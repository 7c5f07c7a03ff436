/** The syntax-tree node the parser hands to the backend (declared in
    Types.h, which is not part of this model): its type tag, identifier, and
    current value, plus the backpatch lists it owns. `Node::realtype`,
    `Node::loadExp` and `assertBoolean` of Types.cpp live here. */
module Ast {
  import opened Outcomes
  import opened TypeRules
  import opened Buffer

  class Node {
    /** The node's type tag (`type`): a type token, or TYPE_ID for a variable reference. */
    var typeName: string
    var id: string
    /** The operand text naming the node's value: a register, a literal or empty. */
    var value: string
    var isNumeric: bool
    var trueList: PatchList
    var falseList: PatchList
    var nextList: PatchList
    var startLoopList: PatchList
    /** The label of the code that follows (set by the while/else/case markers). */
    var nextInstruction: string
    /** StringExp only: the global constant's name (`var`) and its LLVM array type (`str_length`). */
    var globalName: string
    var strLength: string

    constructor (typeName: string, id: string, value: string)
      ensures this.typeName == typeName && this.id == id && this.value == value
      ensures !isNumeric && nextInstruction == "" && globalName == "" && strLength == ""
      ensures trueList == [] && falseList == [] && nextList == [] && startLoopList == []
    {
      this.typeName, this.id, this.value := typeName, id, value;
      isNumeric := false;
      trueList, falseList, nextList, startLoopList := [], [], [], [];
      nextInstruction, globalName, strLength := "", "", "";
    }

    /** realtype: a variable reference has the type the symbol table
        declares for it; any other node has its own tag. */
    function Realtype(st: SymbolTable): (t: string)
      reads this
      ensures typeName != TYPE_ID ==> t == typeName
      ensures typeName == TYPE_ID ==> t == ReturnType(st, id)
    {
      if typeName == TYPE_ID then ReturnType(st, id) else typeName
    }

    /** loadExp: a variable reference takes the value `loadVar(id)` gives.
        `loadVar` is declared in registerAllocator.h without a body here, so
        the model takes it as a parameter. */
    method LoadExp(loadVar: string -> string)
      modifies this`value
      ensures value == if typeName == TYPE_ID then loadVar(id) else old(value)
    {
      if typeName == TYPE_ID {
        value := loadVar(id);
      }
    }
  }

  /** The value `loadExp` leaves in a node. */
  function Loaded(e: Node, loadVar: string -> string): string
    reads e
  {
    if e.typeName == TYPE_ID then loadVar(e.id) else e.value
  }

  /** assertBoolean: after `realtype` it resolves a leftover TYPE_ID once
      more; that second lookup can never turn a non-bool into bool, so the
      node is accepted exactly when its real type is bool. */
  function AssertBoolean(st: SymbolTable, exp: Node): (o: Outcome)
    reads exp
    ensures o == Pass <==> exp.Realtype(st) == TYPE_BOOL
    ensures o == Pass <==>
      (if exp.typeName == TYPE_ID then ReturnType(st, exp.id) else exp.typeName) == TYPE_BOOL
    ensures o != Pass ==> o == Fail(TypeMismatch)
  {
    var t := exp.Realtype(st);
    var t' := if t == TYPE_ID then ReturnType(st, exp.id) else t;
    if t' != TYPE_BOOL then Fail(TypeMismatch) else Pass
  }
}

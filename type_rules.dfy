/** The type rule engine of Types.cpp: decision functions over type-name
    strings, with identifier references resolved through the symbol table. */
module TypeRules {
  import opened Outcomes

  // Type tokens. Their text is defined in Types.h, which is not part of this
  // model; the rules below depend only on the tokens being pairwise distinct
  // and distinct from the "unknown_type" placeholder.
  const TYPE_VOID: string := "VOID"
  const TYPE_BOOL: string := "BOOL"
  const TYPE_INT: string := "INT"
  const TYPE_BYTE: string := "BYTE"
  const TYPE_STRING: string := "STRING"
  /** The tag of a node that names a variable; its real type is in the symbol table. */
  const TYPE_ID: string := "ID"
  /** The placeholder tag assertAssignableTypes also resolves through the symbol table. */
  const UNKNOWN_TYPE: string := "unknown_type"

  /** The fixed table `valid_types` that checkForValidType scans, in its order. */
  const VALID_TYPES: seq<string> := [TYPE_VOID, TYPE_BOOL, TYPE_INT, TYPE_STRING, TYPE_BYTE]

  /** The symbol table: identifier to declared variable type or function
      return type. `exists(id)` is key membership. */
  type SymbolTable = map<string, string>

  /** `symbolTable.getReturnType(id)`. The symbol table is external; for an
      identifier it does not hold, this model answers the empty string, which
      is no valid type. */
  function ReturnType(st: SymbolTable, id: string): string {
    if id in st then st[id] else ""
  }

  /** isNumeric: only int and byte are numeric, and both are valid types. */
  function IsNumeric(t: string): (r: bool)
    ensures r <==> t == TYPE_INT || t == TYPE_BYTE
    ensures r ==> t in VALID_TYPES && t != TYPE_BOOL
  {
    t == TYPE_BYTE || t == TYPE_INT
  }

  /** checkForValidType: passes exactly for the five type tokens; any other
      string is reported with errorMismatch and ends compilation. */
  method CheckForValidType(t: string) returns (o: Outcome)
    ensures o == Pass <==>
      t == TYPE_VOID || t == TYPE_BOOL || t == TYPE_INT || t == TYPE_STRING || t == TYPE_BYTE
    ensures o != Pass ==> o == Fail(TypeMismatch)
  {
    var i := 0;
    while i < |VALID_TYPES|
      invariant 0 <= i <= |VALID_TYPES|
      invariant forall j :: 0 <= j < i ==> VALID_TYPES[j] != t
    {
      if t == VALID_TYPES[i] {
        return Pass;
      }
      i := i + 1;
    }
    assert t != VALID_TYPES[0] && t != VALID_TYPES[1] && t != VALID_TYPES[2]
        && t != VALID_TYPES[3] && t != VALID_TYPES[4];
    return Fail(TypeMismatch);
  }

  /** The type assertAssignableTypes compares for one operand: an identifier
      reference or the "unknown_type" placeholder is replaced by the declared
      type of the operand's identifier. */
  function OperandType(st: SymbolTable, t: string, id: string): string {
    if t == UNKNOWN_TYPE || t == TYPE_ID then ReturnType(st, id) else t
  }

  /** The assignment rule on resolved types: equal types, or a byte value
      widened into an int. */
  predicate Assignable(left: string, right: string) {
    left == right || (left == TYPE_INT && right == TYPE_BYTE)
  }

  /** assertAssignableTypes. With `toExit` a rejected pair ends compilation;
      without it the caller receives `false` and decides. */
  function AssertAssignableTypes(st: SymbolTable, leftType: string, leftId: string,
                                 rightType: string, rightId: string, toExit: bool): (r: Result<bool>)
    ensures var l, rt := OperandType(st, leftType, leftId), OperandType(st, rightType, rightId);
      && (r.Err? <==> toExit && !Assignable(l, rt))
      && (r.Err? ==> r.error == TypeMismatch)
      && (r.Ok? ==> (r.value <==> l == rt || (l == TYPE_INT && rt == TYPE_BYTE)))
  {
    var rType := if rightType == UNKNOWN_TYPE || rightType == TYPE_ID then ReturnType(st, rightId) else rightType;
    var lType := if leftType == UNKNOWN_TYPE || leftType == TYPE_ID then ReturnType(st, leftId) else leftType;
    if rType != lType && !(lType == TYPE_INT && rType == TYPE_BYTE) then
      if toExit then Err(TypeMismatch) else Ok(false)
    else
      Ok(true)
  }

  /** Every type, once resolved, is assignable to itself. */
  lemma AssignableReflexive(st: SymbolTable, t: string, leftId: string, rightId: string, toExit: bool)
    requires t != TYPE_ID && t != UNKNOWN_TYPE
    ensures AssertAssignableTypes(st, t, leftId, t, rightId, toExit) == Ok(true)
  {
  }

  /** Two identifier references with the same declared type are assignable. */
  lemma SameDeclaredTypeAssignable(st: SymbolTable, leftId: string, rightId: string, toExit: bool)
    requires ReturnType(st, leftId) == ReturnType(st, rightId)
    ensures AssertAssignableTypes(st, TYPE_ID, leftId, TYPE_ID, rightId, toExit) == Ok(true)
  {
  }

  /** int <- byte is the only accepted pair of different types; byte <- int is rejected. */
  lemma OnlyWideningCrossesTypes(st: SymbolTable, leftType: string, leftId: string,
                                 rightType: string, rightId: string, toExit: bool)
    ensures var l, rt := OperandType(st, leftType, leftId), OperandType(st, rightType, rightId);
      AssertAssignableTypes(st, leftType, leftId, rightType, rightId, toExit) == Ok(true) && l != rt
      ==> l == TYPE_INT && rt == TYPE_BYTE
    ensures AssertAssignableTypes(st, TYPE_BYTE, leftId, TYPE_INT, rightId, toExit)
            == if toExit then Err(TypeMismatch) else Ok(false)
  {
  }

  /** The assignment rule is a partial order on types: reflexive (above),
      antisymmetric and transitive, so widening never chains into a
      different pair. */
  lemma AssignableIsPartialOrder(a: string, b: string, c: string)
    ensures Assignable(a, b) && Assignable(b, a) ==> a == b
    ensures Assignable(a, b) && Assignable(b, c) ==> Assignable(a, c)
  {
  }

  /** getLlvmType: void stays void, every other type is carried as a 32-bit word. */
  function GetLlvmType(t: string): (r: string)
    ensures r == "void" <==> t == TYPE_VOID
    ensures r != "void" ==> r == "i32"
  {
    if t == TYPE_VOID then "void" else "i32"
  }
}

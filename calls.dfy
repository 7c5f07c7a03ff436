/** Function calls of Types.cpp: `createLlvmArguments`, which writes the
    parenthesised argument list of a call, and `Node::emitCallCode`, which
    emits the call instruction. */
module Calls {
  import opened Outcomes
  import opened TypeRules
  import opened Buffer
  import opened Ast
  import opened Registers

  /** What createLlvmArguments reads from one argument node. */
  datatype Arg = Arg(typeName: string, id: string, value: string)

  function ArgOf(e: Node): Arg
    reads e
  {
    Arg(e.typeName, e.id, e.value)
  }

  function NodeSet(es: seq<Node>): set<Node> {
    set e | e in es
  }

  /** Snapshot of the argument nodes, in order. */
  function ArgsOf(es: seq<Node>): (r: seq<Arg>)
    reads NodeSet(es)
    ensures |r| == |es|
    ensures forall i :: 0 <= i < |es| ==> r[i] == ArgOf(es[i])
  {
    if es == [] then [] else ArgsOf(es[..|es| - 1]) + [ArgOf(es[|es| - 1])]
  }

  /** The argument nodes of a call, if the call has an expression list. */
  function OptionArgs(es: Option<seq<Node>>): (r: Option<seq<Arg>>)
    reads if es.Some? then NodeSet(es.value) else {}
    ensures r.Some? <==> es.Some?
    ensures es.Some? ==> r.value == ArgsOf(es.value)
  {
    if es.Some? then Some(ArgsOf(es.value)) else None
  }

  /** Argument `i`, when the call has an expression list. */
  function Entry(args: Option<seq<Arg>>, i: nat): Option<Arg>
    requires args.Some? ==> i < |args.value|
  {
    if args.Some? then Some(args.value[i]) else None
  }

  /** The LLVM type written for an argument: i8* for a string-tagged node
      (by its own tag, not its real type), i32 otherwise and when the call
      has no expression list. */
  function ArgType(a: Option<Arg>): string {
    if a.Some? && a.value.typeName == TYPE_STRING then "i8*" else "i32"
  }

  /** An argument as written: its type, then its register as getVarRegister
      resolves it (with the node's value as fallback) when there is an
      expression list. */
  function ArgPiece(st: SymbolTable, m: map<string, string>, a: Option<Arg>): string {
    if a.Some? then ArgType(a) + " " + VarRegister(st, m, a.value.id, a.value.value)
    else ArgType(a)
  }

  /** The first `n` argument pieces. */
  function Pieces(st: SymbolTable, m: map<string, string>, args: Option<seq<Arg>>, n: nat): (ps: seq<string>)
    requires args.Some? ==> n <= |args.value|
    ensures |ps| == n
    ensures forall i :: 0 <= i < n ==> ps[i] == ArgPiece(st, m, Entry(args, i))
  {
    if n == 0 then [] else Pieces(st, m, args, n - 1) + [ArgPiece(st, m, Entry(args, n - 1))]
  }

  /** Pieces separated by ", ", built from the end as the loop builds it. */
  function Joined(ps: seq<string>): string {
    if |ps| == 0 then ""
    else if |ps| == 1 then ps[0]
    else Joined(ps[..|ps| - 1]) + ", " + ps[|ps| - 1]
  }

  /** Pieces separated by ", ", defined from the front: the reference
      reading of a comma-separated list. */
  function Join(ps: seq<string>): string {
    if |ps| == 0 then ""
    else if |ps| == 1 then ps[0]
    else ps[0] + ", " + Join(ps[1..])
  }

  /** The argument list the loop writes is the comma-separated list of its pieces. */
  lemma {:induction false} JoinedIsJoin(ps: seq<string>)
    ensures Joined(ps) == Join(ps)
    decreases |ps|
  {
    if |ps| > 2 {
      var init := ps[..|ps| - 1];
      JoinedIsJoin(init);
      JoinedIsJoin(ps[1..]);
      JoinedIsJoin(init[1..]);
      assert ps[1..][..|ps[1..]| - 1] == init[1..];
      assert ps[1..][|ps[1..]| - 1] == ps[|ps| - 1];
      calc {
        Joined(ps);
        Join(init) + ", " + ps[|ps| - 1];
        { assert init[0] == ps[0]; }
        ps[0] + ", " + Join(init[1..]) + ", " + ps[|ps| - 1];
        ps[0] + ", " + (Joined(init[1..]) + ", " + ps[|ps| - 1]);
        ps[0] + ", " + Joined(ps[1..]);
        Join(ps);
      }
    } else if |ps| == 2 {
      assert ps[..1] == [ps[0]];
      assert ps[1..] == [ps[1]];
    }
  }

  /** The mapping after the loop has looked up the first `n` argument identifiers. */
  function Lookups(st: SymbolTable, m: map<string, string>, args: Option<seq<Arg>>, n: nat): map<string, string>
    requires args.Some? ==> n <= |args.value|
  {
    if n == 0 || args.None? then m
    else AfterLookup(st, Lookups(st, m, args, n - 1), args.value[n - 1].id)
  }

  /** Earlier look-ups never change what a later one reads, nor any binding
      that was already there. */
  lemma {:induction false} LookupsStable(st: SymbolTable, m: map<string, string>, args: Option<seq<Arg>>, n: nat,
                                         w: string, fallback: string)
    requires args.Some? ==> n <= |args.value|
    ensures VarRegister(st, Lookups(st, m, args, n), w, fallback) == VarRegister(st, m, w, fallback)
    ensures forall k | k in m :: k in Lookups(st, m, args, n) && Lookups(st, m, args, n)[k] == m[k]
  {
    if n > 0 && args.Some? {
      var prev := Lookups(st, m, args, n - 1);
      LookupsStable(st, m, args, n - 1, w, fallback);
      LookupStable(st, prev, args.value[n - 1].id, w, fallback);
    }
  }

  /** One more argument: read through the mapping the earlier look-ups
      left, it is the piece read through the original mapping. */
  lemma NextPiece(st: SymbolTable, m0: map<string, string>, args: Option<seq<Arg>>, i: nat, piece: string)
    requires args.Some? ==> i < |args.value|
    requires piece == ArgPiece(st, Lookups(st, m0, args, i), Entry(args, i))
    ensures Pieces(st, m0, args, i + 1) == Pieces(st, m0, args, i) + [piece]
  {
    if args.Some? {
      LookupsStable(st, m0, args, i, args.value[i].id, args.value[i].value);
    }
  }

  /** Appending a piece to a list adds a separator unless the list was empty. */
  lemma JoinedSnoc(ps: seq<string>, p: string)
    ensures Joined(ps + [p]) == if ps == [] then p else Joined(ps) + ", " + p
  {
    assert (ps + [p])[..|ps|] == ps;
  }

  /** One step of createLlvmArguments: the separator unless this is the
      first argument, then the argument's type and, when there is an
      expression list, its register. */
  method AppendArgument(list: string, ghost ps: seq<string>, i: nat, args: Option<seq<Arg>>,
                        ghost m0: map<string, string>, st: SymbolTable, alloc: RegisterAllocator)
    returns (list': string, ghost ps': seq<string>)
    requires args.Some? ==> i < |args.value|
    requires ps == Pieces(st, m0, args, i) && list == Joined(ps)
    requires alloc.varToRegMapping == Lookups(st, m0, args, i)
    modifies alloc`varToRegMapping
    ensures ps' == Pieces(st, m0, args, i + 1) && list' == Joined(ps')
    ensures alloc.varToRegMapping == Lookups(st, m0, args, i + 1)
  {
    var piece := if args.Some? && args.value[i].typeName == TYPE_STRING then "i8*" else "i32";
    if args.Some? {
      var value := alloc.GetVarRegister(st, args.value[i].id, args.value[i].value);
      piece := piece + " " + value;
    }
    NextPiece(st, m0, args, i, piece);
    JoinedSnoc(ps, piece);
    list' := if i != 0 then list + ", " + piece else piece;
    ps' := ps + [piece];
  }

  /** createLlvmArguments: "(" then `numArguments` pieces separated by ", "
      then ")". Each piece is the argument's type and, when there is an
      expression list, its register; every look-up may add a default
      binding to the allocator's mapping. */
  method CreateLlvmArguments(numArguments: nat, args: Option<seq<Arg>>, st: SymbolTable, alloc: RegisterAllocator)
    returns (text: string)
    requires args.Some? ==> numArguments <= |args.value|
    modifies alloc`varToRegMapping
    ensures text == "(" + Join(Pieces(st, old(alloc.varToRegMapping), args, numArguments)) + ")"
    ensures alloc.varToRegMapping == Lookups(st, old(alloc.varToRegMapping), args, numArguments)
  {
    ghost var m0 := alloc.varToRegMapping;
    ghost var ps: seq<string> := [];
    var list := "";
    var i := 0;
    while i < numArguments
      invariant i <= numArguments
      invariant ps == Pieces(st, m0, args, i) && list == Joined(ps)
      invariant alloc.varToRegMapping == Lookups(st, m0, args, i)
    {
      list, ps := AppendArgument(list, ps, i, args, m0, st, alloc);
      i := i + 1;
    }
    JoinedIsJoin(ps);
    text := "(" + list + ")";
  }

  /** The text that `print` puts in front of its call: a pointer to the
      string constant's first character. */
  function GepText(value: string, strLength: string, globalName: string): string {
    value + " = getelementptr " + strLength + ", " + strLength + "* " + globalName + ", i32 0, i32 0" + "\n"
  }

  /** The part of a call before "call": the print prefix, then the result
      register when the function returns a value. */
  method CallHeader(n: Node, exprs: Option<seq<Node>>, st: SymbolTable, alloc: RegisterAllocator)
    returns (header: string)
    requires n.id == "print" ==> exprs.Some? && |exprs.value| > 0 && exprs.value[0] != n
    modifies n`value, alloc`counter
    ensures var retType := ReturnType(st, n.id);
      var gep := if n.id == "print"
                 then GepText(old(exprs.value[0].value), exprs.value[0].strLength, exprs.value[0].globalName) else "";
      && (retType != TYPE_VOID ==> alloc.counter == Advance(old(alloc.counter), 1)
                                     && n.value == RegisterName(alloc.counter)
                                     && header == gep + (n.value + " = "))
      && (retType == TYPE_VOID ==> alloc.counter == old(alloc.counter) && n.value == old(n.value) && header == gep)
  {
    header := "";
    if n.id == "print" {
      var s := exprs.value[0];
      header := GepText(s.value, s.strLength, s.globalName);
    }
    var retType := ReturnType(st, n.id);
    if retType != TYPE_VOID {
      var reg := alloc.GetNextRegisterName(1);
      header := header + (reg + " = ");
      n.value := reg;
    }
  }

  /** The rest of emitCallCode: "call", the callee, its argument list, and
      the emission of the whole instruction. */
  method EmitCall(header: string, llvmType: string, id: string, args: Option<seq<Arg>>,
                  st: SymbolTable, alloc: RegisterAllocator, buf: CodeBuffer)
    requires buf.Valid()
    modifies alloc`varToRegMapping, buf`code
    ensures buf.Valid()
    ensures var size := if args.Some? then |args.value| else 0;
      alloc.varToRegMapping == Lookups(st, old(alloc.varToRegMapping), args, size)
    ensures var size := if args.Some? then |args.value| else 0;
      buf.code == old(buf.code)
        + [Instr(header + "call " + llvmType + " @" + id
                 + ("(" + Join(Pieces(st, old(alloc.varToRegMapping), args, size)) + ")"), None, None)]
  {
    var size := if args.Some? then |args.value| else 0;
    var argText := CreateLlvmArguments(size, args, st, alloc);
    var _ := buf.Emit(header + "call " + llvmType + " @" + id + argText);
  }

  /** emitCallCode: one instruction, "call <llvm type of the return type>
      @<name>" with its argument list; a function that returns a value has
      its result put in a fresh register, which becomes the node's value. */
  method EmitCallCode(n: Node, exprs: Option<seq<Node>>, st: SymbolTable, alloc: RegisterAllocator, buf: CodeBuffer)
    requires buf.Valid()
    requires n.id == "print" ==> exprs.Some? && |exprs.value| > 0
    requires exprs.Some? ==> n !in exprs.value
    modifies n`value, alloc`counter, alloc`varToRegMapping, buf`code
    ensures buf.Valid()
    ensures ReturnType(st, n.id) != TYPE_VOID ==>
      alloc.counter == Advance(old(alloc.counter), 1) && n.value == RegisterName(alloc.counter)
    ensures ReturnType(st, n.id) == TYPE_VOID ==> alloc.counter == old(alloc.counter) && n.value == old(n.value)
    ensures alloc.varToRegMapping
      == Lookups(st, old(alloc.varToRegMapping), old(OptionArgs(exprs)), if exprs.Some? then |exprs.value| else 0)
    ensures var retType, size := ReturnType(st, n.id), if exprs.Some? then |exprs.value| else 0;
      var gep := if n.id == "print"
                 then GepText(exprs.value[0].value, exprs.value[0].strLength, exprs.value[0].globalName) else "";
      var res := if retType != TYPE_VOID then n.value + " = " else "";
      var args := "(" + Join(Pieces(st, old(alloc.varToRegMapping), old(OptionArgs(exprs)), size)) + ")";
      buf.code == old(buf.code) + [Instr(gep + res + "call " + GetLlvmType(retType) + " @" + n.id + args, None, None)]
  {
    var args := OptionArgs(exprs);
    ghost var gep := if n.id == "print"
                     then GepText(exprs.value[0].value, exprs.value[0].strLength, exprs.value[0].globalName) else "";
    var header := CallHeader(n, exprs, st, alloc);
    assert header == gep + if ReturnType(st, n.id) != TYPE_VOID then n.value + " = " else "";
    EmitCall(header, GetLlvmType(ReturnType(st, n.id)), n.id, args, st, alloc, buf);
  }
  /** An argument is written as a pointer exactly when its node is
      string-tagged, and carries its register only with an expression list. */
  lemma PieceShape(st: SymbolTable, m: map<string, string>, a: Option<Arg>)
    ensures var p := ArgPiece(st, m, a);
      && (a.Some? && a.value.typeName == TYPE_STRING ==> p[..3] == "i8*")
      && (!(a.Some? && a.value.typeName == TYPE_STRING) ==> p[..3] == "i32")
      && (a.None? ==> p == "i32")
  {
  }
}

/** The per-construct code generation of Types.cpp: the `Node` methods that
    emit jumps and hand their backpatch lists to the parent, and
    `CaseList::emitCase`. Node methods are written as methods taking the node
    as `n`, together with the allocator and the instruction buffer they use. */
module Codegen {
  import opened Outcomes
  import opened Decimal
  import opened TypeRules
  import opened Buffer
  import opened Ast
  import opened Registers

  /** addBreak: an open jump, queued on nextList for the code after the
      enclosing construct. */
  method AddBreak(n: Node, buf: CodeBuffer)
    requires buf.Valid()
    modifies n`nextList, buf`code
    ensures buf.Valid()
    ensures buf.code == old(buf.code) + [Instr("br label @", None, None)]
    ensures n.nextList == old(n.nextList) + [Patch(|old(buf.code)|, First)]
  {
    var jmpInstr := buf.Emit("br label @");
    n.nextList := n.nextList + [Patch(jmpInstr, First)];
  }

  /** addContinue: an open jump, queued on startLoopList for the loop head. */
  method AddContinue(n: Node, buf: CodeBuffer)
    requires buf.Valid()
    modifies n`startLoopList, buf`code
    ensures buf.Valid()
    ensures buf.code == old(buf.code) + [Instr("br label @", None, None)]
    ensures n.startLoopList == old(n.startLoopList) + [Patch(|old(buf.code)|, First)]
  {
    var jmpInstr := buf.Emit("br label @");
    n.startLoopList := n.startLoopList + [Patch(jmpInstr, First)];
  }

  /** emitWhileOpen: the label of the loop test that is emitted next. */
  method EmitWhileOpen(n: Node, buf: CodeBuffer)
    requires buf.Valid()
    modifies n`nextInstruction, buf`labelCount, buf`labelAt
    ensures buf.Valid()
    ensures n.nextInstruction == LabelName(old(buf.labelCount)) && n.nextInstruction !in old(buf.labelAt)
    ensures buf.labelCount == old(buf.labelCount) + 1
    ensures buf.labelAt == old(buf.labelAt)[n.nextInstruction := |buf.code|]
  {
    n.nextInstruction := buf.GenLabel();
  }

  /** emitSwitchOpen: the open jump into the switch instruction, queued on nextList. */
  method EmitSwitchOpen(n: Node, buf: CodeBuffer)
    requires buf.Valid()
    modifies n`nextList, buf`code
    ensures buf.Valid()
    ensures buf.code == old(buf.code) + [Instr("br label @", None, None)]
    ensures n.nextList == old(n.nextList) + [Patch(|old(buf.code)|, First)]
  {
    var jmpInstr := buf.Emit("br label @");
    n.nextList := n.nextList + [Patch(jmpInstr, First)];
  }

  /** emitCaseLabel: the label of the case body that is emitted next. */
  method EmitCaseLabel(n: Node, buf: CodeBuffer)
    requires buf.Valid()
    modifies n`nextInstruction, buf`labelCount, buf`labelAt
    ensures buf.Valid()
    ensures n.nextInstruction == LabelName(old(buf.labelCount)) && n.nextInstruction !in old(buf.labelAt)
    ensures buf.labelCount == old(buf.labelCount) + 1
    ensures buf.labelAt == old(buf.labelAt)[n.nextInstruction := |buf.code|]
  {
    n.nextInstruction := buf.GenLabel();
  }

  /** The buffer after the four backpatches of a loop end. */
  function LoopEndPatched(code: seq<Instr>, startLoop: PatchList, next: PatchList, falses: PatchList,
                          trues: PatchList, start: string, exit: string): (c: seq<Instr>)
    requires InRange(startLoop, |code|) && InRange(next, |code|)
    requires InRange(falses, |code|) && InRange(trues, |code|)
    ensures |c| == |code|
  {
    PatchAll(PatchAll(PatchAll(PatchAll(code, startLoop, start), next, exit), falses, exit), trues, start)
  }

  /** Where the four backpatches of a loop end leave one jump: the test's
      true exits at the start, breaks and false exits at the exit, and
      continues at the start unless also listed for the exit. */
  lemma LoopEndTargetAt(code: seq<Instr>, startLoop: PatchList, next: PatchList, falses: PatchList,
                        trues: PatchList, start: string, exit: string, p: Patch)
    requires InRange(startLoop, |code|) && InRange(next, |code|)
    requires InRange(falses, |code|) && InRange(trues, |code|)
    requires p.instr < |code|
    ensures var t := Target(LoopEndPatched(code, startLoop, next, falses, trues, start, exit)[p.instr], p.slot);
      && (p in trues ==> t == Some(start))
      && (p !in trues && (p in next || p in falses) ==> t == Some(exit))
      && (p !in trues && p !in next && p !in falses && p in startLoop ==> t == Some(start))
  {
    var c1 := PatchAll(code, startLoop, start);
    var c2 := PatchAll(c1, next, exit);
    var c3 := PatchAll(c2, falses, exit);
    PatchAllAt(code, startLoop, start, p);
    PatchAllAt(c1, next, exit, p);
    PatchAllAt(c2, falses, exit, p);
    PatchAllAt(c3, trues, start, p);
  }

  /** emitWhileEnd: continues go to the loop start, a back jump to the start
      is emitted, and a fresh exit label after it receives the breaks and
      the test's false exits; the test's true exits go to the start. */
  method EmitWhileEnd(n: Node, whileStartLabel: string, whileExp: Node, buf: CodeBuffer)
    requires buf.Valid()
    requires InRange(n.startLoopList, |buf.code|) && InRange(n.nextList, |buf.code|)
    requires InRange(whileExp.falseList, |buf.code|) && InRange(whileExp.trueList, |buf.code|)
    modifies buf`code, buf`labelCount, buf`labelAt
    ensures buf.Valid()
    ensures var endLabel := LabelName(old(buf.labelCount));
      && endLabel !in old(buf.labelAt)
      && buf.labelCount == old(buf.labelCount) + 1
      && buf.labelAt == old(buf.labelAt)[endLabel := |old(buf.code)| + 1]
      && buf.code == LoopEndPatched(old(buf.code), n.startLoopList, n.nextList, whileExp.falseList,
                                    whileExp.trueList, whileStartLabel, endLabel)
                     + [Instr("br label %" + whileStartLabel, None, None)]
  {
    ghost var c0 := buf.code;
    buf.Bpatch(n.startLoopList, whileStartLabel);
    ghost var c1 := buf.code;
    var _ := buf.Emit("br label %" + whileStartLabel);
    var whileEndLabel := buf.GenLabel();
    buf.Bpatch(n.nextList, whileEndLabel);
    buf.Bpatch(whileExp.falseList, whileEndLabel);
    buf.Bpatch(whileExp.trueList, whileStartLabel);
    ghost var jmp := [Instr("br label %" + whileStartLabel, None, None)];
    ghost var c2 := PatchAll(c1, n.nextList, whileEndLabel);
    ghost var c3 := PatchAll(c2, whileExp.falseList, whileEndLabel);
    ghost var c4 := PatchAll(c3, whileExp.trueList, whileStartLabel);
    PatchAllPrefix(c1, jmp, n.nextList, whileEndLabel);
    PatchAllPrefix(c2, jmp, whileExp.falseList, whileEndLabel);
    PatchAllPrefix(c3, jmp, whileExp.trueList, whileStartLabel);
    assert buf.code == c4 + jmp;
  }

  /** emitWhileExp: the condition value is truncated to a flag and tested;
      the true edge goes straight to a fresh label at the loop body, the
      false edge is queued on falseList. */
  method EmitWhileExp(n: Node, cmpReg: string, alloc: RegisterAllocator, buf: CodeBuffer)
    requires buf.Valid()
    modifies n`falseList, alloc`counter, buf`code, buf`labelCount, buf`labelAt
    ensures buf.Valid()
    ensures var reg, bodyLabel := RegisterName(alloc.counter), LabelName(old(buf.labelCount));
      && alloc.counter == Advance(old(alloc.counter), 1)
      && bodyLabel !in old(buf.labelAt)
      && buf.labelCount == old(buf.labelCount) + 1
      && buf.labelAt == old(buf.labelAt)[bodyLabel := |old(buf.code)| + 1]
      && buf.code == old(buf.code)
           + [Instr(reg + " = trunc i32 " + cmpReg + " to i1\n" + "br i1 " + reg + ", label @, label @",
                    Some(bodyLabel), None)]
      && n.falseList == old(n.falseList) + [Patch(|old(buf.code)|, Second)]
  {
    var whileExpReg := alloc.GetNextRegisterName(1);
    var code := whileExpReg + " = trunc i32 " + cmpReg + " to i1\n" + "br i1 " + whileExpReg + ", label @, label @";
    var cmpAddress := buf.Emit(code);
    var whileStartCodeLabel := buf.GenLabel();
    buf.Bpatch([Patch(cmpAddress, First)], whileStartCodeLabel);
    n.falseList := n.falseList + [Patch(cmpAddress, Second)];
  }

  /** mergeLists: the statement list's breaks and continues are those of
      both parts. */
  method MergeLists(n: Node, a: Node, b: Node)
    modifies n`nextList, n`startLoopList
    ensures n.nextList == Merge(old(a.nextList), old(b.nextList))
    ensures n.startLoopList == Merge(old(a.startLoopList), old(b.startLoopList))
  {
    var next := Merge(a.nextList, b.nextList);
    var startLoop := Merge(a.startLoopList, b.startLoopList);
    n.nextList := next;
    n.startLoopList := startLoop;
  }

  /** emitReturnCode: `ret` of the node's bound register, or of its own value. */
  method EmitReturnCode(n: Node, st: SymbolTable, alloc: RegisterAllocator, buf: CodeBuffer)
    requires buf.Valid()
    modifies alloc`varToRegMapping, buf`code
    ensures buf.Valid()
    ensures buf.code == old(buf.code)
      + [Instr("ret i32 " + VarRegister(st, old(alloc.varToRegMapping), n.id, n.value), None, None)]
    ensures alloc.varToRegMapping == AfterLookup(st, old(alloc.varToRegMapping), n.id)
  {
    var reg := alloc.GetVarRegister(st, n.id, n.value);
    var _ := buf.Emit("ret i32 " + reg);
  }

  /** emitIfCode: the condition is compared with zero and an open two-way
      branch follows; its then-slot goes on trueList and its else-slot on
      falseList, and no other list changes. */
  method EmitIfCode(n: Node, alloc: RegisterAllocator, buf: CodeBuffer)
    requires buf.Valid()
    modifies n`trueList, n`falseList, alloc`counter, buf`code
    ensures buf.Valid()
    ensures var reg, branch := RegisterName(alloc.counter), |old(buf.code)| + 1;
      && alloc.counter == Advance(old(alloc.counter), 1)
      && buf.code == old(buf.code)
           + [Instr(reg + " = icmp ne i32 0, " + n.value, None, None),
              Instr("br i1 " + reg + ", label @, label @", None, None)]
      && n.trueList == old(n.trueList) + [Patch(branch, First)]
      && n.falseList == old(n.falseList) + [Patch(branch, Second)]
  {
    var ifReg := alloc.GetNextRegisterName(1);
    var code := ifReg + " = icmp ne i32 0, " + n.value;
    var _ := buf.Emit(code);
    code := "br i1 " + ifReg + ", label @, label @";
    var ifInstr := buf.Emit(code);
    n.trueList := n.trueList + [Patch(ifInstr, First)];
    n.falseList := n.falseList + [Patch(ifInstr, Second)];
  }

  /** bpatchIf: the true exits go to the node's nextInstruction, the false
      exits to `falseLabel`, and both lists are spent. */
  method BpatchIf(n: Node, falseLabel: string, buf: CodeBuffer)
    requires buf.Valid()
    requires InRange(n.trueList, |buf.code|) && InRange(n.falseList, |buf.code|)
    modifies n`trueList, n`falseList, buf`code
    ensures buf.Valid()
    ensures buf.code == PatchAll(PatchAll(old(buf.code), old(n.trueList), n.nextInstruction),
                                 old(n.falseList), falseLabel)
    ensures n.trueList == [] && n.falseList == []
    ensures forall p | p in old(n.falseList) :: Target(buf.code[p.instr], p.slot) == Some(falseLabel)
    ensures forall p | p in old(n.trueList) && p !in old(n.falseList) ::
      Target(buf.code[p.instr], p.slot) == Some(n.nextInstruction)
  {
    ghost var c0 := buf.code;
    buf.Bpatch(n.trueList, n.nextInstruction);
    ghost var c1 := buf.code;
    n.trueList := [];
    buf.Bpatch(n.falseList, falseLabel);
    PatchAllEffect(c0, old(n.trueList), n.nextInstruction);
    PatchAllEffect(c1, old(n.falseList), falseLabel);
    n.falseList := [];
  }

  /** emitElseCode: an open jump over the else arm, queued on nextList, and
      the label of the else arm as the node's nextInstruction. */
  method EmitElseCode(n: Node, buf: CodeBuffer)
    requires buf.Valid()
    modifies n`nextList, n`nextInstruction, buf`code, buf`labelCount, buf`labelAt
    ensures buf.Valid()
    ensures buf.code == old(buf.code) + [Instr("br label @", None, None)]
    ensures n.nextInstruction == LabelName(old(buf.labelCount)) && n.nextInstruction !in old(buf.labelAt)
    ensures buf.labelCount == old(buf.labelCount) + 1
    ensures buf.labelAt == old(buf.labelAt)[n.nextInstruction := |old(buf.code)| + 1]
    ensures n.nextList == old(n.nextList) + [Patch(|old(buf.code)|, First)]
  {
    var jmpInstr := buf.Emit("br label @");
    n.nextInstruction := buf.GenLabel();
    n.nextList := n.nextList + [Patch(jmpInstr, First)];
  }

  /** One `case` of a switch: the constant and the label of its body. */
  datatype Case = Case(value: string, dest: string)

  function CaseText(c: Case): string {
    "i32 " + c.value + ", label %" + c.dest + " "
  }

  /** The case table of the switch instruction, in list order. */
  function CasesText(cases: seq<Case>): string
    decreases |cases|
  {
    if cases == [] then "" else CasesText(cases[..|cases| - 1]) + CaseText(cases[|cases| - 1])
  }

  /** The table of two case lists is the table of the first followed by
      that of the second: each case has its own contiguous entry, in order. */
  lemma {:induction false} CasesTextAppend(a: seq<Case>, b: seq<Case>)
    ensures CasesText(a + b) == CasesText(a) + CasesText(b)
    decreases |b|
  {
    if b == [] {
      assert a + b == a;
    } else {
      var init, last := b[..|b| - 1], b[|b| - 1];
      assert (a + b)[..|a + b| - 1] == a + init;
      assert (a + b)[|a + b| - 1] == last;
      CasesTextAppend(a, init);
      calc {
        CasesText(a + b);
        CasesText(a + init) + CaseText(last);
        (CasesText(a) + CasesText(init)) + CaseText(last);
        CasesText(a) + (CasesText(init) + CaseText(last));
        CasesText(a) + CasesText(b);
      }
    }
  }

  lemma SplitAt<T>(s: seq<T>, i: nat)
    requires i <= |s|
    ensures s[..i] + s[i..] == s
  {
  }

  /** A case's entry stands in the table right after the entries of the
      cases before it. */
  lemma CaseEntryAt(cases: seq<Case>, i: nat)
    requires i < |cases|
    ensures CasesText(cases) == CasesText(cases[..i]) + CaseText(cases[i]) + CasesText(cases[i + 1..])
  {
    var upTo := cases[..i + 1];
    SplitAt(cases, i + 1);
    CasesTextAppend(upTo, cases[i + 1..]);
    assert upTo[..|upTo| - 1] == cases[..i];
  }

  function SwitchText(switchVal: string, cases: seq<Case>): string {
    ("switch i32 " + switchVal + ", label @ [ ") + CasesText(cases) + "]"
  }

  /** Where emitCase's two backpatches leave a pending jump: the breaks of
      the arms after the switch, and the switch's entry jumps at the case
      table's dispatch label. */
  lemma CaseExitTargetAt(code: seq<Instr>, switchNext: PatchList, nextList: PatchList,
                         dispatch: string, after: string, p: Patch)
    requires InRange(switchNext, |code|) && InRange(nextList, |code|)
    requires p.instr < |code|
    ensures var t := Target(PatchAll(PatchAll(code, switchNext, dispatch), nextList, after)[p.instr], p.slot);
      && (p in nextList ==> t == Some(after))
      && (p !in nextList && p in switchNext ==> t == Some(dispatch))
      && (p !in nextList && p !in switchNext ==> t == Target(code[p.instr], p.slot))
  {
    PatchAllAt(code, switchNext, dispatch, p);
    PatchAllAt(PatchAll(code, switchNext, dispatch), nextList, after, p);
  }

  /** A switch's case list (`CaseList`): the cases in source order, whether
      a default arm exists and its label, and the breaks of the arms. */
  class CaseList {
    var caseList: seq<Case>
    var hasDefault: bool
    var defaultLabel: string
    var nextList: PatchList

    /** The switch instruction's text, built case by case. */
    method BuildSwitchText(switchVal: string) returns (code: string)
      ensures code == SwitchText(switchVal, caseList)
    {
      code := "switch i32 " + switchVal + ", label @ [ ";
      var i := 0;
      while i < |caseList|
        invariant 0 <= i <= |caseList|
        invariant code == ("switch i32 " + switchVal + ", label @ [ ") + CasesText(caseList[..i])
      {
        assert caseList[..i + 1][..i] == caseList[..i];
        code := code + ("i32 " + caseList[i].value + ", label %" + caseList[i].dest + " ");
        i := i + 1;
      }
      assert caseList[..i] == caseList;
      code := code + "]";
    }

    /** The first half of emitCase: the jump that ends the last arm, and a
        fresh label that receives the switch's entry jumps. */
    method EmitCaseDispatch(switchNext: PatchList, buf: CodeBuffer) returns (defaultJmp: nat, dispatch: string)
      requires buf.Valid()
      requires InRange(switchNext, |buf.code|)
      modifies buf`code, buf`labelCount, buf`labelAt
      ensures buf.Valid()
      ensures defaultJmp == |old(buf.code)|
      ensures dispatch == LabelName(old(buf.labelCount)) && dispatch !in old(buf.labelAt)
      ensures buf.labelCount == old(buf.labelCount) + 1
      ensures buf.labelAt == old(buf.labelAt)[dispatch := |old(buf.code)| + 1]
      ensures buf.code == PatchAll(old(buf.code), switchNext, dispatch) + [Instr("br label @", None, None)]
    {
      ghost var code0 := buf.code;
      defaultJmp := buf.Emit("br label @");
      dispatch := buf.GenLabel();
      PatchAllPrefix(code0, [Instr("br label @", None, None)], switchNext, dispatch);
      buf.Bpatch(switchNext, dispatch);
    }

    /** The second half of emitCase: the switch instruction and the label
        after it, with the default slot, the breaks and the jump ending the
        last arm patched. */
    method EmitCaseSwitch(switchVal: string, defaultJmp: nat, ghost pre: seq<Instr>, buf: CodeBuffer)
      returns (after: string)
      requires buf.Valid()
      requires defaultJmp == |pre| && InRange(nextList, |pre|)
      requires buf.code == pre + [Instr("br label @", None, None)]
      modifies buf`code, buf`labelCount, buf`labelAt
      ensures buf.Valid()
      ensures after == LabelName(old(buf.labelCount)) && after !in old(buf.labelAt)
      ensures buf.labelCount == old(buf.labelCount) + 1
      ensures buf.labelAt == old(buf.labelAt)[after := |pre| + 2]
      ensures buf.code == PatchAll(pre, nextList, after)
             + [Instr("br label @", Some(after), None),
                Instr(SwitchText(switchVal, caseList), Some(if hasDefault then defaultLabel else after), None)]
    {
      var code := BuildSwitchText(switchVal);
      var switchInstr := buf.Emit(code);
      after := buf.GenLabel();
      var defaultDest := if hasDefault then defaultLabel else after;
      PatchSingle(buf.code, Patch(switchInstr, First), defaultDest);
      buf.Bpatch([Patch(switchInstr, First)], defaultDest);
      ghost var sw := Instr(code, Some(defaultDest), None);
      assert buf.code == pre + [Instr("br label @", None, None), sw];
      PatchAllPrefix(pre, [Instr("br label @", None, None), sw], nextList, after);
      buf.Bpatch(nextList, after);
      ghost var p2 := PatchAll(pre, nextList, after);
      PatchSingle(buf.code, Patch(defaultJmp, First), after);
      buf.Bpatch([Patch(defaultJmp, First)], after);
      assert buf.code == p2 + [Instr("br label @", Some(after), None), sw];
    }

    /** emitCase: the jump that ends the last arm, then a fresh label that
        receives the switch's entry jumps, the switch instruction, and a fresh
        label after it. The switch's default slot goes to the default arm if
        there is one and otherwise after the switch; the breaks of the arms and
        the jump ending the last arm go after the switch too. */
    method EmitCase(switchNext: PatchList, switchVal: string, buf: CodeBuffer)
      requires buf.Valid()
      requires InRange(switchNext, |buf.code|) && InRange(nextList, |buf.code|)
      modifies buf`code, buf`labelCount, buf`labelAt
      ensures buf.Valid()
      ensures var dispatch, after, b := LabelName(old(buf.labelCount)), LabelName(old(buf.labelCount) + 1), |old(buf.code)|;
        && dispatch !in old(buf.labelAt) && after !in old(buf.labelAt) && dispatch != after
        && buf.labelCount == old(buf.labelCount) + 2
        && buf.labelAt == old(buf.labelAt)[dispatch := b + 1][after := b + 2]
        && buf.code == PatchAll(PatchAll(old(buf.code), switchNext, dispatch), nextList, after)
             + [Instr("br label @", Some(after), None),
                Instr(SwitchText(switchVal, caseList), Some(if hasDefault then defaultLabel else after), None)]
    {
      var defaultJmp, dispatch := EmitCaseDispatch(switchNext, buf);
      ghost var pre := PatchAll(old(buf.code), switchNext, dispatch);
      var _ := EmitCaseSwitch(switchVal, defaultJmp, pre, buf);
      LabelNameInjective(old(buf.labelCount), old(buf.labelCount) + 1);
    }
  }
}

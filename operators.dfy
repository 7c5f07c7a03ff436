/** The expression nodes of Types.cpp whose constructors type-check their
    operands and compose backpatch lists: the short-circuit `BinaryLogicOp`,
    `UnaryLogicOp`, `RelOp`, and the string literal `StringExp`. Each
    constructor is a method that fills in the freshly allocated node `n`
    from its children; a type error is a failure and changes nothing. */
module Operators {
  import opened Outcomes
  import opened Decimal
  import opened TypeRules
  import opened Buffer
  import opened Ast
  import opened Registers

  /** The texts of the short-circuit operator's records. */
  function LeftTestText(isAnd: bool, r1: string, leftOp: string): string {
    r1 + " = icmp " + (if isAnd then "eq" else "ne") + " i32 " + leftOp + ", 0"
  }

  function LeftBranchText(r1: string): string {
    "br i1 " + r1 + ", label @, label @"
  }

  function RightValueText(r2: string, r3: string, rightOp: string): string {
    r2 + " = icmp ne i32 " + rightOp + ", 0\n" + r3 + " = zext i1 " + r2 + " to i32"
  }

  function PhiText(isAnd: bool, r3: string, r4: string): string {
    r4 + " = phi i32 [" + (if isAnd then "0" else "1") + ", @], [" + r3 + ", @]"
  }

  /** The six records a short-circuit operator appends, with the targets its
      closing backpatches give them. `r1`..`r4` are its four registers;
      `evalLeft`, `evalRight` and `join` are its three labels, at the second,
      fourth and sixth record; `rightCode` (the marker's nextInstruction) is
      where the branch's SECOND slot goes when the left operand does not
      decide the result, so that the right operand's code runs. */
  function LogicOpRecords(isAnd: bool, r1: string, r2: string, r3: string, r4: string,
                          leftOp: string, rightOp: string, evalLeft: string, evalRight: string,
                          join: string, rightCode: string): seq<Instr>
  {
    [ Instr("br label @", Some(evalRight), None),
      Instr(LeftTestText(isAnd, r1, leftOp), None, None),
      Instr(LeftBranchText(r1), Some(join), Some(rightCode)),
      Instr(RightValueText(r2, r3, rightOp), None, None),
      Instr("br label @", Some(join), None),
      Instr(PhiText(isAnd, r3, r4), Some(evalLeft), Some(evalRight)) ]
  }

  /** The six records before any of their slots is filled. */
  function LogicOpOpenRecords(isAnd: bool, r1: string, r2: string, r3: string, r4: string,
                              leftOp: string, rightOp: string): seq<Instr>
  {
    [ Instr("br label @", None, None),
      Instr(LeftTestText(isAnd, r1, leftOp), None, None),
      Instr(LeftBranchText(r1), None, None),
      Instr(RightValueText(r2, r3, rightOp), None, None),
      Instr("br label @", None, None),
      Instr(PhiText(isAnd, r3, r4), None, None) ]
  }

  /** The closing backpatches of a short-circuit operator, applied to its six
      open records, give the records of LogicOpRecords. */
  lemma LogicOpClosing(pre: seq<Instr>, isAnd: bool, r1: string, r2: string, r3: string, r4: string,
                       leftOp: string, rightOp: string, evalLeft: string, evalRight: string,
                       join: string, rightCode: string)
    ensures var b := |pre|;
      var open := pre + LogicOpOpenRecords(isAnd, r1, r2, r3, r4, leftOp, rightOp);
      var s1 := PatchOne(PatchOne(open, Patch(b + 2, First), join), Patch(b + 4, First), join);
      var s2 := PatchOne(PatchOne(s1, Patch(b + 5, Second), evalRight), Patch(b, First), evalRight);
      var s3 := PatchOne(s2, Patch(b + 5, First), evalLeft);
      PatchOne(s3, Patch(b + 2, Second), rightCode)
        == pre + LogicOpRecords(isAnd, r1, r2, r3, r4, leftOp, rightOp, evalLeft, evalRight, join, rightCode)
  {
    var b := |pre|;
    var done := LogicOpRecords(isAnd, r1, r2, r3, r4, leftOp, rightOp, evalLeft, evalRight, join, rightCode);
    var open := pre + LogicOpOpenRecords(isAnd, r1, r2, r3, r4, leftOp, rightOp);
    var s1 := PatchOne(PatchOne(open, Patch(b + 2, First), join), Patch(b + 4, First), join);
    var s2 := PatchOne(PatchOne(s1, Patch(b + 5, Second), evalRight), Patch(b, First), evalRight);
    var s3 := PatchOne(s2, Patch(b + 5, First), evalLeft);
    var s4 := PatchOne(s3, Patch(b + 2, Second), rightCode);
    assert |s4| == |pre + done|;
    forall j | 0 <= j < |s4| ensures s4[j] == (pre + done)[j] {
      if j >= b {
        assert done[j - b] == (pre + done)[j];
      }
    }
  }

  /** The opening of a short-circuit operator: an open jump, then the label
      `evalLeft`, which receives the marker's breaks and the left operand's
      false exits. */
  method LogicOpOpen(markerNext: PatchList, leftFalse: PatchList, buf: CodeBuffer)
    returns (rightJmpInstr: nat, evalLeft: string)
    requires buf.Valid()
    requires InRange(markerNext, |buf.code|) && InRange(leftFalse, |buf.code|)
    modifies buf`code, buf`labelCount, buf`labelAt
    ensures buf.Valid()
    ensures rightJmpInstr == |old(buf.code)|
    ensures evalLeft == LabelName(old(buf.labelCount)) && evalLeft !in old(buf.labelAt)
    ensures buf.labelCount == old(buf.labelCount) + 1
    ensures buf.labelAt == old(buf.labelAt)[evalLeft := |old(buf.code)| + 1]
    ensures buf.code == PatchAll(PatchAll(old(buf.code), markerNext, evalLeft), leftFalse, evalLeft)
                        + [Instr("br label @", None, None)]
  {
    ghost var code0 := buf.code;
    rightJmpInstr := buf.Emit("br label @");
    evalLeft := buf.GenLabel();
    PatchAllPrefix(code0, [Instr("br label @", None, None)], markerNext, evalLeft);
    buf.Bpatch(markerNext, evalLeft);
    ghost var code1 := PatchAll(code0, markerNext, evalLeft);
    PatchAllPrefix(code1, [Instr("br label @", None, None)], leftFalse, evalLeft);
    buf.Bpatch(leftFalse, evalLeft);
  }

  /** The short-circuit test of the left value: one register, a compare
      with zero (`eq` for AND, `ne` for OR) and an open two-way branch. */
  method LogicOpLeftTest(left: Node, isAnd: bool, st: SymbolTable, loadVar: string -> string,
                         alloc: RegisterAllocator, buf: CodeBuffer)
    returns (brInstr: nat, leftReg: string)
    requires buf.Valid()
    modifies left`value, alloc`counter, alloc`varToRegMapping, buf`code
    ensures buf.Valid()
    ensures left.value == old(Loaded(left, loadVar))
    ensures leftReg == VarRegister(st, old(alloc.varToRegMapping), left.id, left.value)
    ensures alloc.varToRegMapping == AfterLookup(st, old(alloc.varToRegMapping), left.id)
    ensures alloc.counter == Bump(old(alloc.counter), 1)
    ensures brInstr == |old(buf.code)| + 1
    ensures buf.code == old(buf.code)
      + [Instr(LeftTestText(isAnd, RegisterName(alloc.counter), leftReg), None, None),
         Instr(LeftBranchText(RegisterName(alloc.counter)), None, None)]
  {
    var compRegI1 := alloc.GetNextRegisterName(1);
    left.LoadExp(loadVar);
    leftReg := alloc.GetVarRegister(st, left.id, left.value);
    var code := compRegI1 + " = icmp " + (if isAnd then "eq" else "ne") + " i32 " + leftReg + ", 0";
    var _ := buf.Emit(code);
    brInstr := buf.Emit("br i1 " + compRegI1 + ", label @, label @");
  }

  /** The right value turned into 0 or 1 under a fresh label `evalRight`:
      two registers, a compare with zero and a zero-extension. */
  method LogicOpRightValue(right: Node, st: SymbolTable, loadVar: string -> string,
                           alloc: RegisterAllocator, buf: CodeBuffer)
    returns (evalRight: string, compReg: string, rightReg: string)
    requires buf.Valid()
    modifies right`value, alloc`counter, alloc`varToRegMapping, buf`code, buf`labelCount, buf`labelAt
    ensures buf.Valid()
    ensures right.value == old(Loaded(right, loadVar))
    ensures rightReg == VarRegister(st, old(alloc.varToRegMapping), right.id, right.value)
    ensures alloc.varToRegMapping == AfterLookup(st, old(alloc.varToRegMapping), right.id)
    ensures alloc.counter == Bump(Bump(old(alloc.counter), 1), 1)
    ensures compReg == RegisterName(alloc.counter)
    ensures evalRight == LabelName(old(buf.labelCount)) && evalRight !in old(buf.labelAt)
    ensures buf.labelCount == old(buf.labelCount) + 1
    ensures buf.labelAt == old(buf.labelAt)[evalRight := |old(buf.code)|]
    ensures buf.code == old(buf.code)
      + [Instr(RightValueText(RegisterName(Bump(old(alloc.counter), 1)), compReg, rightReg), None, None)]
  {
    evalRight := buf.GenLabel();
    var compRegI1 := alloc.GetNextRegisterName(1);
    compReg := alloc.GetNextRegisterName(1);
    right.LoadExp(loadVar);
    rightReg := alloc.GetVarRegister(st, right.id, right.value);
    var code := compRegI1 + " = icmp ne i32 " + rightReg + ", 0\n" + compReg + " = zext i1 " + compRegI1 + " to i32";
    var _ := buf.Emit(code);
  }

  /** The join of a short-circuit operator: an open jump, the label `join`,
      one register for the phi, and the closing backpatches of the six records. */
  method LogicOpJoin(isAnd: bool, ghost r1: string, ghost r2: string, compReg: string,
                     ghost leftOp: string, ghost rightOp: string, evalLeft: string,
                     evalRight: string, rightCode: string, rightJmpInstr: nat, brInstr: nat,
                     ghost pre: seq<Instr>, alloc: RegisterAllocator, buf: CodeBuffer)
    returns (resReg: string)
    requires buf.Valid()
    requires rightJmpInstr == |pre| && brInstr == |pre| + 2
    requires buf.code == pre + [Instr("br label @", None, None)]
                             + [Instr(LeftTestText(isAnd, r1, leftOp), None, None), Instr(LeftBranchText(r1), None, None)]
                             + [Instr(RightValueText(r2, compReg, rightOp), None, None)]
    modifies alloc`counter, buf`code, buf`labelCount, buf`labelAt
    ensures buf.Valid()
    ensures alloc.counter == Bump(old(alloc.counter), 1) && resReg == RegisterName(alloc.counter)
    ensures var join := LabelName(old(buf.labelCount));
      && join !in old(buf.labelAt)
      && buf.labelCount == old(buf.labelCount) + 1
      && buf.labelAt == old(buf.labelAt)[join := |pre| + 5]
      && buf.code == pre + LogicOpRecords(isAnd, r1, r2, compReg, resReg, leftOp, rightOp,
                                          evalLeft, evalRight, join, rightCode)
  {
    var jmpInstr := buf.Emit("br label @");
    var join := buf.GenLabel();
    resReg := alloc.GetNextRegisterName(1);
    var code := resReg + " = phi i32 [" + (if isAnd then "0" else "1") + ", @], [" + compReg + ", @]";
    var phiInstr := buf.Emit(code);
    ghost var open := LogicOpOpenRecords(isAnd, r1, r2, compReg, resReg, leftOp, rightOp);
    assert buf.code == pre + open;
    LogicOpClosing(pre, isAnd, r1, r2, compReg, resReg, leftOp, rightOp, evalLeft, evalRight, join, rightCode);
    PatchPair(buf.code, Patch(brInstr, First), Patch(jmpInstr, First), join);
    buf.Bpatch([Patch(brInstr, First), Patch(jmpInstr, First)], join);
    PatchPair(buf.code, Patch(phiInstr, Second), Patch(rightJmpInstr, First), evalRight);
    buf.Bpatch([Patch(phiInstr, Second), Patch(rightJmpInstr, First)], evalRight);
    PatchSingle(buf.code, Patch(phiInstr, First), evalLeft);
    buf.Bpatch([Patch(phiInstr, First)], evalLeft);
    PatchSingle(buf.code, Patch(brInstr, Second), rightCode);
    buf.Bpatch([Patch(brInstr, Second)], rightCode);
  }

  /** The first half of a short-circuit operator: the opening and the test
      of the left value. */
  method LogicOpEnter(left: Node, isAnd: bool, markerNext: PatchList, leftFalse: PatchList,
                      st: SymbolTable, loadVar: string -> string, alloc: RegisterAllocator, buf: CodeBuffer)
    returns (rightJmpInstr: nat, evalLeft: string, brInstr: nat, leftReg: string)
    requires buf.Valid()
    requires InRange(markerNext, |buf.code|) && InRange(leftFalse, |buf.code|)
    modifies left`value, alloc`counter, alloc`varToRegMapping, buf`code, buf`labelCount, buf`labelAt
    ensures buf.Valid()
    ensures left.value == old(Loaded(left, loadVar))
    ensures leftReg == VarRegister(st, old(alloc.varToRegMapping), left.id, left.value)
    ensures alloc.varToRegMapping == AfterLookup(st, old(alloc.varToRegMapping), left.id)
    ensures alloc.counter == Bump(old(alloc.counter), 1)
    ensures evalLeft == LabelName(old(buf.labelCount)) && evalLeft !in old(buf.labelAt)
    ensures buf.labelCount == old(buf.labelCount) + 1
    ensures buf.labelAt == old(buf.labelAt)[evalLeft := |old(buf.code)| + 1]
    ensures rightJmpInstr == |old(buf.code)| && brInstr == |old(buf.code)| + 2
    ensures buf.code == PatchAll(PatchAll(old(buf.code), markerNext, evalLeft), leftFalse, evalLeft)
      + [Instr("br label @", None, None)]
      + [Instr(LeftTestText(isAnd, RegisterName(alloc.counter), leftReg), None, None),
         Instr(LeftBranchText(RegisterName(alloc.counter)), None, None)]
  {
    rightJmpInstr, evalLeft := LogicOpOpen(markerNext, leftFalse, buf);
    brInstr, leftReg := LogicOpLeftTest(left, isAnd, st, loadVar, alloc, buf);
  }

  /** The second half of a short-circuit operator: the right value and the join. */
  method LogicOpLeave(right: Node, isAnd: bool, ghost r1: string, ghost leftOp: string,
                      evalLeft: string, rightCode: string, rightJmpInstr: nat, brInstr: nat,
                      ghost pre: seq<Instr>, st: SymbolTable, loadVar: string -> string,
                      alloc: RegisterAllocator, buf: CodeBuffer)
    returns (resReg: string)
    requires buf.Valid()
    requires rightJmpInstr == |pre| && brInstr == |pre| + 2
    requires buf.code == pre + [Instr("br label @", None, None)]
                             + [Instr(LeftTestText(isAnd, r1, leftOp), None, None), Instr(LeftBranchText(r1), None, None)]
    modifies right`value, alloc`counter, alloc`varToRegMapping, buf`code, buf`labelCount, buf`labelAt
    ensures buf.Valid()
    ensures right.value == old(Loaded(right, loadVar))
    ensures alloc.varToRegMapping == AfterLookup(st, old(alloc.varToRegMapping), right.id)
    ensures alloc.counter == Bump(Bump(Bump(old(alloc.counter), 1), 1), 1)
    ensures resReg == RegisterName(alloc.counter)
    ensures var evalRight, join := LabelName(old(buf.labelCount)), LabelName(old(buf.labelCount) + 1);
      && evalRight !in old(buf.labelAt) && join !in old(buf.labelAt) && evalRight != join
      && buf.labelCount == old(buf.labelCount) + 2
      && buf.labelAt == old(buf.labelAt)[evalRight := |pre| + 3][join := |pre| + 5]
      && buf.code == pre + LogicOpRecords(isAnd, r1, RegisterName(Bump(old(alloc.counter), 1)),
                                          RegisterName(Bump(Bump(old(alloc.counter), 1), 1)), resReg, leftOp,
                                          VarRegister(st, old(alloc.varToRegMapping), right.id, old(Loaded(right, loadVar))),
                                          evalLeft, evalRight, join, rightCode)
  {
    var evalRight, compReg, rightReg := LogicOpRightValue(right, st, loadVar, alloc, buf);
    resReg := LogicOpJoin(isAnd, r1, RegisterName(Bump(old(alloc.counter), 1)), compReg, leftOp, rightReg,
                          evalLeft, evalRight, rightCode, rightJmpInstr, brInstr, pre, alloc, buf);
    LabelNameInjective(old(buf.labelCount), old(buf.labelCount) + 1);
  }

  /** The fields a logical operator sets on its result node. */
  method SetBoolResult(n: Node, trueList: PatchList, falseList: PatchList, value: string)
    modifies n`typeName, n`isNumeric, n`trueList, n`falseList, n`value
    ensures n.typeName == TYPE_BOOL && !n.isNumeric
    ensures n.trueList == trueList && n.falseList == falseList && n.value == value
  {
    n.typeName, n.isNumeric := TYPE_BOOL, false;
    n.trueList, n.falseList, n.value := trueList, falseList, value;
  }

  /** The code of BinaryLogicOp once both operands are known to be bool:
      the opening, the left test, the right value and the join. */
  method LogicOpCode(left: Node, right: Node, isAnd: bool, marker: Node,
                     st: SymbolTable, loadVar: string -> string,
                     alloc: RegisterAllocator, buf: CodeBuffer) returns (resReg: string)
    requires left != right
    requires buf.Valid()
    requires InRange(marker.nextList, |buf.code|) && InRange(left.falseList, |buf.code|)
    modifies left`value, right`value, alloc`counter, alloc`varToRegMapping, buf`code, buf`labelCount, buf`labelAt
    ensures buf.Valid()
    ensures left.value == old(Loaded(left, loadVar)) && right.value == old(Loaded(right, loadVar))
    ensures alloc.counter == Advance(old(alloc.counter), 4) && resReg == RegisterName(alloc.counter)
    ensures alloc.varToRegMapping == AfterLookup(st, AfterLookup(st, old(alloc.varToRegMapping), left.id), right.id)
    ensures var k, b, c := old(buf.labelCount), |old(buf.code)|, old(alloc.counter);
      var evalLeft, evalRight, join := LabelName(k), LabelName(k + 1), LabelName(k + 2);
      && evalLeft !in old(buf.labelAt) && evalRight !in old(buf.labelAt) && join !in old(buf.labelAt)
      && buf.labelCount == k + 3
      && buf.labelAt == old(buf.labelAt)[evalLeft := b + 1][evalRight := b + 3][join := b + 5]
      && buf.code == PatchAll(PatchAll(old(buf.code), marker.nextList, evalLeft), left.falseList, evalLeft)
                     + LogicOpRecords(isAnd, RegisterName(Advance(c, 1)), RegisterName(Advance(c, 2)),
                                      RegisterName(Advance(c, 3)), RegisterName(Advance(c, 4)),
                                      VarRegister(st, old(alloc.varToRegMapping), left.id, old(Loaded(left, loadVar))),
                                      VarRegister(st, old(alloc.varToRegMapping), right.id, old(Loaded(right, loadVar))),
                                      evalLeft, evalRight, join, marker.nextInstruction)
  {
    ghost var c0, m0 := alloc.counter, alloc.varToRegMapping;
    ghost var rightLoaded := Loaded(right, loadVar);
    var rightJmpInstr, evalLeft, brInstr, leftReg :=
      LogicOpEnter(left, isAnd, marker.nextList, left.falseList, st, loadVar, alloc, buf);
    ghost var pre := PatchAll(PatchAll(old(buf.code), marker.nextList, evalLeft), left.falseList, evalLeft);
    resReg := LogicOpLeave(right, isAnd, RegisterName(alloc.counter), leftReg, evalLeft, marker.nextInstruction,
                           rightJmpInstr, brInstr, pre, st, loadVar, alloc, buf);
    LookupStable(st, m0, left.id, right.id, rightLoaded);
    assert Advance(c0, 1) == Bump(c0, 1);
    assert Advance(c0, 2) == Bump(Advance(c0, 1), 1);
    assert Advance(c0, 3) == Bump(Advance(c0, 2), 1);
    assert Advance(c0, 4) == Bump(Advance(c0, 3), 1) == alloc.counter;
  }

  /** BinaryLogicOp: both operands must be bool. The code is the opening,
      the left test, the right value and the join above; the result is the
      phi's register, giving 0 (AND) or 1 (OR) on the decided edge. AND keeps
      the right operand's true exits and both false exits; OR keeps both
      true exits and the right operand's false exits. */
  method BinaryLogicOp(n: Node, left: Node, right: Node, isAnd: bool, marker: Node,
                       st: SymbolTable, loadVar: string -> string,
                       alloc: RegisterAllocator, buf: CodeBuffer) returns (o: Outcome)
    requires n != left && n != right && n != marker && left != right
    requires buf.Valid()
    requires InRange(marker.nextList, |buf.code|) && InRange(left.falseList, |buf.code|)
    modifies n`typeName, n`isNumeric, n`trueList, n`falseList, n`value, left`value, right`value
    modifies alloc`counter, alloc`varToRegMapping, buf`code, buf`labelCount, buf`labelAt
    ensures buf.Valid()
    ensures o == Pass <==> old(left.Realtype(st)) == TYPE_BOOL && old(right.Realtype(st)) == TYPE_BOOL
    ensures o != Pass ==>
      && o == Fail(TypeMismatch)
      && n.typeName == old(n.typeName) && n.isNumeric == old(n.isNumeric) && n.value == old(n.value)
      && n.trueList == old(n.trueList) && n.falseList == old(n.falseList)
      && left.value == old(left.value) && right.value == old(right.value)
      && alloc.counter == old(alloc.counter) && alloc.varToRegMapping == old(alloc.varToRegMapping)
      && buf.code == old(buf.code) && buf.labelCount == old(buf.labelCount) && buf.labelAt == old(buf.labelAt)
    ensures o == Pass ==>
      && n.typeName == TYPE_BOOL && !n.isNumeric
      && n.trueList == (if isAnd then old(right.trueList) else Merge(old(left.trueList), old(right.trueList)))
      && n.falseList == (if isAnd then Merge(old(left.falseList), old(right.falseList)) else old(right.falseList))
      && left.value == old(Loaded(left, loadVar)) && right.value == old(Loaded(right, loadVar))
      && alloc.counter == Advance(old(alloc.counter), 4)
      && n.value == RegisterName(alloc.counter)
      && alloc.varToRegMapping == AfterLookup(st, AfterLookup(st, old(alloc.varToRegMapping), left.id), right.id)
    ensures o == Pass ==>
      var k, b, c := old(buf.labelCount), |old(buf.code)|, old(alloc.counter);
      var evalLeft, evalRight, join := LabelName(k), LabelName(k + 1), LabelName(k + 2);
      && evalLeft !in old(buf.labelAt) && evalRight !in old(buf.labelAt) && join !in old(buf.labelAt)
      && buf.labelCount == k + 3
      && buf.labelAt == old(buf.labelAt)[evalLeft := b + 1][evalRight := b + 3][join := b + 5]
      && buf.code == PatchAll(PatchAll(old(buf.code), marker.nextList, evalLeft), left.falseList, evalLeft)
                     + LogicOpRecords(isAnd, RegisterName(Advance(c, 1)), RegisterName(Advance(c, 2)),
                                      RegisterName(Advance(c, 3)), RegisterName(Advance(c, 4)),
                                      VarRegister(st, old(alloc.varToRegMapping), left.id, old(Loaded(left, loadVar))),
                                      VarRegister(st, old(alloc.varToRegMapping), right.id, old(Loaded(right, loadVar))),
                                      evalLeft, evalRight, join, marker.nextInstruction)
  {
    if left.Realtype(st) != TYPE_BOOL || right.Realtype(st) != TYPE_BOOL {
      return Fail(TypeMismatch);
    }
    var resReg := LogicOpCode(left, right, isAnd, marker, st, loadVar, alloc, buf);
    if isAnd {
      SetBoolResult(n, right.trueList, Merge(left.falseList, right.falseList), resReg);
    } else {
      SetBoolResult(n, Merge(left.trueList, right.trueList), right.falseList, resReg);
    }
    return Pass;
  }

  /** UnaryLogicOp: the operand is loaded first, then it must be bool; the
      result is `1 - value` in a fresh register, and the operand's true and
      false exits trade places. */
  method UnaryLogicOp(n: Node, exp: Node, st: SymbolTable, loadVar: string -> string,
                      alloc: RegisterAllocator, buf: CodeBuffer) returns (o: Outcome)
    requires n != exp
    requires buf.Valid()
    modifies n`typeName, n`isNumeric, n`trueList, n`falseList, n`value, exp`value, alloc`counter, buf`code
    ensures buf.Valid()
    ensures exp.value == old(Loaded(exp, loadVar))
    ensures o == Pass <==> old(exp.Realtype(st)) == TYPE_BOOL
    ensures o != Pass ==>
      && o == Fail(TypeMismatch)
      && n.typeName == old(n.typeName) && n.isNumeric == old(n.isNumeric) && n.value == old(n.value)
      && n.trueList == old(n.trueList) && n.falseList == old(n.falseList)
      && alloc.counter == old(alloc.counter) && buf.code == old(buf.code)
    ensures o == Pass ==>
      && n.typeName == TYPE_BOOL && !n.isNumeric
      && n.trueList == old(exp.falseList) && n.falseList == old(exp.trueList)
      && alloc.counter == Advance(old(alloc.counter), 1)
      && n.value == RegisterName(alloc.counter)
      && buf.code == old(buf.code) + [Instr(n.value + " = sub i32 1, " + exp.value, None, None)]
  {
    exp.LoadExp(loadVar);
    if exp.Realtype(st) != TYPE_BOOL {
      return Fail(TypeMismatch);
    }
    var reg := alloc.GetNextRegisterName(1);
    var _ := buf.Emit(reg + " = sub i32 1, " + exp.value);
    SetBoolResult(n, exp.falseList, exp.trueList, reg);
    return Pass;
  }

  /** RelOp: both operands must be numeric; both are loaded and the
      comparison's register is the result. `emitCmpCode` is declared in
      registerAllocator.h without a body here, so the model takes it as the
      parameter `cmpCode`; its lists stay as they were. */
  method RelOp(n: Node, left: Node, right: Node, op: string, st: SymbolTable,
               loadVar: string -> string, cmpCode: (string, string, string) -> string) returns (o: Outcome)
    requires n != left && n != right && left != right
    modifies n`typeName, n`isNumeric, n`value, left`value, right`value
    ensures o == Pass <==> IsNumeric(old(left.Realtype(st))) && IsNumeric(old(right.Realtype(st)))
    ensures o != Pass ==>
      && o == Fail(TypeMismatch)
      && n.typeName == old(n.typeName) && n.isNumeric == old(n.isNumeric) && n.value == old(n.value)
      && left.value == old(left.value) && right.value == old(right.value)
    ensures o == Pass ==>
      && n.typeName == TYPE_BOOL && !n.isNumeric
      && left.value == old(Loaded(left, loadVar)) && right.value == old(Loaded(right, loadVar))
      && n.value == cmpCode(left.value, right.value, op)
  {
    if !(IsNumeric(left.Realtype(st)) && IsNumeric(right.Realtype(st))) {
      return Fail(TypeMismatch);
    }
    n.typeName, n.isNumeric := TYPE_BOOL, false;
    left.LoadExp(loadVar);
    right.LoadExp(loadVar);
    n.value := cmpCode(left.value, right.value, op);
    return Pass;
  }

  /** The LLVM array type of a string literal's constant: one byte per
      character but the closing quote's, which becomes the terminator. */
  function StringArrayType(str: string): (t: string)
    requires |str| >= 1
  {
    "[" + NatToString(|str| - 1) + " x i8]"
  }

  /** The global line of a string literal: its closing quote becomes `\00"`. */
  function StringGlobal(globalName: string, str: string): (g: string)
    requires |str| >= 1
  {
    globalName + " = constant " + StringArrayType(str) + "c" + str[..|str| - 1] + "\\00\""
  }

  /** StringExp: a string literal (with its quotes) gets the next string
      constant `wN`: its value is `%wN`, its global `@.wN`, and a global line
      defines it. The empty string has no last character to replace, which
      `std::string::replace` rejects. */
  method StringExp(n: Node, str: string, alloc: RegisterAllocator, buf: CodeBuffer) returns (o: Outcome)
    modifies n`typeName, n`id, n`value, n`globalName, n`strLength, alloc`stringCounter, buf`globals
    ensures |str| == 0 <==> o == Fail(StringOutOfRange)
    ensures o == Pass || o == Fail(StringOutOfRange)
    ensures o != Pass ==> alloc.stringCounter == old(alloc.stringCounter) && buf.globals == old(buf.globals)
    ensures o == Pass ==>
      var name := StringConstantName(old(alloc.stringCounter));
      && n.typeName == TYPE_STRING && n.id == str
      && n.value == "%" + name && n.globalName == "@." + name
      && n.strLength == StringArrayType(str)
      && alloc.stringCounter == old(alloc.stringCounter) + 1
      && buf.globals == old(buf.globals) + [StringGlobal(n.globalName, str)]
  {
    if |str| == 0 {
      return Fail(StringOutOfRange);
    }
    n.typeName, n.id := TYPE_STRING, str;
    var stringVar := alloc.CreateStringConstant(1);
    n.value := "%" + stringVar;
    n.globalName := "@." + stringVar;
    n.strLength := "[" + NatToString(|str| - 1) + " x i8]";
    buf.EmitGlobal(n.globalName + " = constant " + n.strLength + "c" + str[..|str| - 1] + "\\00\"");
    return Pass;
  }

  /** For a quoted literal, the array type counts exactly the characters
      between the quotes plus the terminator, and they are what the constant
      holds. */
  lemma {:induction false} QuotedLiteralConstant(globalName: string, content: string)
    ensures var str := "\"" + content + "\"";
      && StringArrayType(str) == "[" + NatToString(|content| + 1) + " x i8]"
      && StringGlobal(globalName, str)
         == globalName + " = constant [" + NatToString(|content| + 1) + " x i8]c\"" + content + "\\00\""
  {
    var str := "\"" + content + "\"";
    assert str[..|str| - 1] == "\"" + content;
  }
}

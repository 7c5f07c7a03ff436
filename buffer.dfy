/** The instruction buffer the code generator writes into. It is an external
    collaborator of the backend; this module gives it an abstract meaning:
    an append-only sequence of instruction records, each with up to two jump
    targets (the FIRST and SECOND `@` placeholders of its text) that stay
    open until a backpatch fills them, and labels that name the position of
    the next record to be appended. */
module Buffer {
  import opened Outcomes
  import opened Decimal

  /** Which placeholder of an instruction a pending jump fills
      (`BranchLabelIndex`: FIRST or SECOND). */
  datatype Slot = First | Second

  /** One backpatch-list entry: an instruction index and a slot in it. */
  datatype Patch = Patch(instr: nat, slot: Slot)

  /** A backpatch list: `vector<pair<int, BranchLabelIndex>>`. */
  type PatchList = seq<Patch>

  /** An emitted instruction: its text and its two jump targets, `None`
      while the placeholder is still open. */
  datatype Instr = Instr(text: string, first: Option<string>, second: Option<string>)

  function Target(ins: Instr, s: Slot): Option<string> {
    if s == First then ins.first else ins.second
  }

  function Other(s: Slot): Slot {
    if s == First then Second else First
  }

  /** An instruction with one slot filled: the text and the other slot stay. */
  function SetTarget(ins: Instr, s: Slot, dest: string): (r: Instr)
    ensures r.text == ins.text
    ensures Target(r, s) == Some(dest)
    ensures Target(r, Other(s)) == Target(ins, Other(s))
  {
    if s == First then ins.(first := Some(dest)) else ins.(second := Some(dest))
  }

  /** Every entry of the list names an instruction among the first n. */
  predicate InRange(list: PatchList, n: nat) {
    forall p | p in list :: p.instr < n
  }

  function PatchOne(code: seq<Instr>, p: Patch, dest: string): (r: seq<Instr>)
    requires p.instr < |code|
  {
    code[p.instr := SetTarget(code[p.instr], p.slot, dest)]
  }

  /** `bpatch(list, label)` on the buffer contents: the entries are filled in
      list order. */
  function PatchAll(code: seq<Instr>, list: PatchList, dest: string): (r: seq<Instr>)
    requires InRange(list, |code|)
    ensures |r| == |code|
    decreases |list|
  {
    if list == [] then code
    else
      assert InRange(list[..|list| - 1], |code|) by {
        forall p | p in list[..|list| - 1] ensures p.instr < |code| {
          assert p in list;
        }
      }
      PatchOne(PatchAll(code, list[..|list| - 1], dest), list[|list| - 1], dest)
  }

  /** What a backpatch does: every slot named in the list now targets the
      label; every other slot, and every text, is as before. */
  lemma {:induction false} PatchAllEffect(code: seq<Instr>, list: PatchList, dest: string)
    requires InRange(list, |code|)
    ensures forall j | 0 <= j < |code| :: PatchAll(code, list, dest)[j].text == code[j].text
    ensures forall j, s | 0 <= j < |code| ::
      Target(PatchAll(code, list, dest)[j], s) == if Patch(j, s) in list then Some(dest) else Target(code[j], s)
    decreases |list|
  {
    if list != [] {
      var init := list[..|list| - 1];
      assert list == init + [list[|list| - 1]];
      assert InRange(init, |code|) by {
        forall p | p in init ensures p.instr < |code| {
          assert p in list;
        }
      }
      PatchAllEffect(code, init, dest);
      forall j, s | 0 <= j < |code|
        ensures Target(PatchAll(code, list, dest)[j], s) == if Patch(j, s) in list then Some(dest) else Target(code[j], s)
      {
        assert Patch(j, s) in list <==> Patch(j, s) in init || Patch(j, s) == list[|list| - 1];
      }
    }
  }

  /** PatchAllEffect at one slot. */
  lemma PatchAllAt(code: seq<Instr>, list: PatchList, dest: string, p: Patch)
    requires InRange(list, |code|) && p.instr < |code|
    ensures Target(PatchAll(code, list, dest)[p.instr], p.slot)
            == if p in list then Some(dest) else Target(code[p.instr], p.slot)
  {
    PatchAllEffect(code, list, dest);
  }

  /** Patching entries of the old buffer leaves later records alone. */
  lemma {:induction false} PatchAllPrefix(code: seq<Instr>, later: seq<Instr>, list: PatchList, dest: string)
    requires InRange(list, |code|)
    ensures InRange(list, |code + later|)
    ensures PatchAll(code + later, list, dest) == PatchAll(code, list, dest) + later
    decreases |list|
  {
    if list != [] {
      var init := list[..|list| - 1];
      assert InRange(init, |code|) by {
        forall p | p in init ensures p.instr < |code| {
          assert p in list;
        }
      }
      PatchAllPrefix(code, later, init, dest);
    }
  }

  /** A backpatch of one entry, and of two. */
  lemma PatchSingle(code: seq<Instr>, p: Patch, dest: string)
    requires p.instr < |code|
    ensures InRange([p], |code|)
    ensures PatchAll(code, [p], dest) == PatchOne(code, p, dest)
  {
    assert [p][..0] == [];
  }

  lemma PatchPair(code: seq<Instr>, p: Patch, q: Patch, dest: string)
    requires p.instr < |code| && q.instr < |code|
    ensures InRange([p, q], |code|)
    ensures PatchAll(code, [p, q], dest) == PatchOne(PatchOne(code, p, dest), q, dest)
  {
    assert [p, q][..1] == [p];
    PatchSingle(code, p, dest);
  }

  /** `merge`: the entries of both lists, each one kept. */
  function Merge(a: PatchList, b: PatchList): (r: PatchList)
    ensures |r| == |a| + |b|
    ensures forall p :: p in r <==> p in a || p in b
    ensures forall n: nat :: InRange(a, n) && InRange(b, n) ==> InRange(r, n)
  {
    a + b
  }

  function LabelName(k: nat): string {
    "label_" + NatToString(k)
  }

  lemma LabelNameInjective(a: nat, b: nat)
    ensures LabelName(a) == LabelName(b) <==> a == b
  {
    PrefixCancel("label_", NatToString(a), NatToString(b));
    NatToStringInjective(a, b);
  }

  class CodeBuffer {
    /** The instructions of the function being generated. */
    var code: seq<Instr>
    /** Lines emitted outside any function body (string constants). */
    var globals: seq<string>
    /** How many labels have been generated. */
    var labelCount: nat
    /** The position each generated label stands at: the index of the record
        that follows it. */
    var labelAt: map<string, nat>

    /** Every label stands within the buffer, and no label from number
        `labelCount` on has been generated yet. */
    ghost predicate Valid()
      reads this
    {
      && (forall l | l in labelAt :: labelAt[l] <= |code|)
      && (forall k: nat | k >= labelCount :: LabelName(k) !in labelAt)
    }

    constructor ()
      ensures Valid()
      ensures code == [] && globals == [] && labelCount == 0 && labelAt == map[]
    {
      code, globals, labelCount, labelAt := [], [], 0, map[];
    }

    /** `emit`: appends a record with both slots open and returns its index. */
    method Emit(text: string) returns (index: nat)
      requires Valid()
      modifies this`code
      ensures Valid()
      ensures code == old(code) + [Instr(text, None, None)]
      ensures index == |old(code)|
    {
      index := |code|;
      code := code + [Instr(text, None, None)];
    }

    /** `emitGlobal`: a line outside the function body. */
    method EmitGlobal(text: string)
      modifies this`globals
      ensures globals == old(globals) + [text]
    {
      globals := globals + [text];
    }

    /** `genLabel` (and `genLabelNextLine`): a label never generated before,
        standing at the position of the next record. */
    method GenLabel() returns (dest: string)
      requires Valid()
      modifies this`labelCount, this`labelAt
      ensures Valid()
      ensures dest == LabelName(old(labelCount)) && dest !in old(labelAt)
      ensures labelCount == old(labelCount) + 1
      ensures labelAt == old(labelAt)[dest := |code|]
    {
      dest := LabelName(labelCount);
      labelAt := labelAt[dest := |code|];
      labelCount := labelCount + 1;
      forall k: nat | k >= labelCount ensures LabelName(k) !in labelAt {
        LabelNameInjective(k, labelCount - 1);
      }
    }

    /** `bpatch(list, label)`: fills the named slot of every listed record. */
    method Bpatch(list: PatchList, dest: string)
      requires Valid()
      requires InRange(list, |code|)
      modifies this`code
      ensures Valid()
      ensures code == PatchAll(old(code), list, dest)
    {
      var i := 0;
      while i < |list|
        invariant 0 <= i <= |list|
        invariant InRange(list[..i], |old(code)|)
        invariant code == PatchAll(old(code), list[..i], dest)
      {
        assert list[..i + 1][..i] == list[..i];
        assert list[i] in list;
        code := PatchOne(code, list[i], dest);
        i := i + 1;
        assert InRange(list[..i], |old(code)|) by {
          forall p | p in list[..i] ensures p.instr < |old(code)| {
            assert p in list;
          }
        }
      }
      assert list[..i] == list;
    }
  }
}

/** The register and binding allocator of registerAllocator.h and
    registerAllocator.cpp: a register counter (`%tN` names, pre-incremented),
    a separate string-constant counter (`wN` names, post-incremented), and
    the map from identifier to the register that currently holds it. */
module Registers {
  import opened Outcomes
  import opened Decimal
  import opened TypeRules
  import opened Ast

  const U32_MODULUS: int := 0x1_0000_0000

  /** `unsigned int`, the type of the register counter. */
  newtype u32 = x: int | 0 <= x < 0x1_0000_0000

  /** `counter += increment` on an unsigned int with an int increment: the
      sum taken modulo 2^32. */
  function Bump(c: u32, k: int): (r: u32)
    ensures 0 <= c as int + k < U32_MODULUS ==> r as int == c as int + k
    ensures (r as int - (c as int + k)) % U32_MODULUS == 0
  {
    ((c as int + k) % U32_MODULUS) as u32
  }

  /** The counter after n single-register allocations. */
  function Advance(c: u32, n: nat): u32 {
    if n == 0 then c else Bump(Advance(c, n - 1), 1)
  }

  /** Below 2^32, n allocations move the counter by exactly n. */
  lemma {:induction false} AdvanceExact(c: u32, n: nat)
    requires c as int + n < U32_MODULUS
    ensures Advance(c, n) as int == c as int + n
  {
    if n > 0 {
      AdvanceExact(c, n - 1);
    }
  }

  /** The name `getNextRegisterName` prints for a counter value. */
  function RegisterName(c: u32): string {
    "%t" + NatToString(c as nat)
  }

  /** The name `createStringConstant` prints for a counter value. */
  function StringConstantName(c: int): string {
    "w" + IntToString(c)
  }

  lemma RegisterNameInjective(a: u32, b: u32)
    ensures RegisterName(a) == RegisterName(b) <==> a == b
  {
    PrefixCancel("%t", NatToString(a as nat), NatToString(b as nat));
    NatToStringInjective(a as nat, b as nat);
  }

  lemma StringConstantNameInjective(a: int, b: int)
    ensures StringConstantName(a) == StringConstantName(b) <==> a == b
  {
    PrefixCancel("w", IntToString(a), IntToString(b));
    IntToStringInjective(a, b);
  }

  /** A fresh allocator hands out `%t1` first and `w0` first. */
  lemma FirstNames()
    ensures RegisterName(Bump(0, 1)) == "%t1"
    ensures StringConstantName(0) == "w0"
  {
  }

  function Sum(ks: seq<int>): int {
    if ks == [] then 0 else ks[0] + Sum(ks[1..])
  }

  lemma {:induction false} SumOfPositives(ks: seq<int>)
    requires forall i :: 0 <= i < |ks| ==> ks[i] >= 1
    ensures Sum(ks) >= |ks|
  {
    if ks != [] {
      SumOfPositives(ks[1..]);
    }
  }

  /** The counter values that successive `getNextRegisterName(k)` calls
      leave behind, one per increment in `ks`. */
  function CounterTrace(c: u32, ks: seq<int>): (t: seq<u32>)
    ensures |t| == |ks|
    decreases |ks|
  {
    if ks == [] then [] else [Bump(c, ks[0])] + CounterTrace(Bump(c, ks[0]), ks[1..])
  }

  /** Calls with positive increments that stay below 2^32 in total return
      strictly increasing counter values, all above the start. */
  lemma {:induction false} CounterTraceIncreasing(c: u32, ks: seq<int>)
    requires forall i :: 0 <= i < |ks| ==> ks[i] >= 1
    requires c as int + Sum(ks) < U32_MODULUS
    ensures forall i :: 0 <= i < |ks| ==> c < CounterTrace(c, ks)[i]
    ensures forall i, j :: 0 <= i < j < |ks| ==> CounterTrace(c, ks)[i] < CounterTrace(c, ks)[j]
    decreases |ks|
  {
    if ks != [] {
      var rest := ks[1..];
      SumOfPositives(rest);
      var c' := Bump(c, ks[0]);
      assert c' as int == c as int + ks[0];
      CounterTraceIncreasing(c', rest);
      var t := CounterTrace(c, ks);
      assert t == [c'] + CounterTrace(c', rest);
      forall i, j | 0 <= i < j < |ks| ensures t[i] < t[j] {
        if i > 0 {
          assert t[i] == CounterTrace(c', rest)[i - 1];
        }
        assert t[j] == CounterTrace(c', rest)[j - 1];
      }
    }
  }

  /** Hence the register names of such calls are pairwise distinct. */
  lemma SuccessiveRegisterNamesDistinct(c: u32, ks: seq<int>)
    requires forall i :: 0 <= i < |ks| ==> ks[i] >= 1
    requires c as int + Sum(ks) < U32_MODULUS
    ensures forall i, j :: 0 <= i < j < |ks| ==>
      RegisterName(CounterTrace(c, ks)[i]) != RegisterName(CounterTrace(c, ks)[j])
  {
    CounterTraceIncreasing(c, ks);
    forall i, j | 0 <= i < j < |ks|
      ensures RegisterName(CounterTrace(c, ks)[i]) != RegisterName(CounterTrace(c, ks)[j])
    {
      RegisterNameInjective(CounterTrace(c, ks)[i], CounterTrace(c, ks)[j]);
    }
  }

  /** `from` stands in `s` at position i. */
  predicate OccursAt(s: string, pat: string, i: nat) {
    i + |pat| <= |s| && s[i..i + |pat|] == pat
  }

  /** `std::string::find(pat, start)`: the first position at or after
      `start` where `pat` stands, if any. */
  function Find(s: string, pat: string, start: nat): (r: Option<nat>)
    ensures r.Some? ==> start <= r.value && OccursAt(s, pat, r.value)
    ensures r.Some? ==> forall j :: start <= j < r.value ==> !OccursAt(s, pat, j)
    ensures r.None? ==> forall j :: start <= j ==> !OccursAt(s, pat, j)
    decreases |s| - start
  {
    if start + |pat| > |s| then None
    else if s[start..start + |pat|] == pat then Some(start)
    else Find(s, pat, start + 1)
  }

  /** The static `replace` helper: the first occurrence of `from` is
      replaced by `to`; without one the string is returned unchanged. */
  function ReplaceFirst(s: string, from: string, to: string): (r: string)
    ensures (forall j :: !OccursAt(s, from, j)) ==> r == s
    ensures forall k: nat :: OccursAt(s, from, k) && (forall j :: 0 <= j < k ==> !OccursAt(s, from, j)) ==>
      r == s[..k] + to + s[k + |from|..]
  {
    match Find(s, from, 0)
    case None => s
    case Some(k) =>
      assert forall k': nat :: OccursAt(s, from, k') && (forall j :: 0 <= j < k' ==> !OccursAt(s, from, j)) ==> k' == k by {
        forall k': nat | OccursAt(s, from, k') && (forall j :: 0 <= j < k' ==> !OccursAt(s, from, j))
          ensures k' == k
        {
        }
      }
      s[..k] + to + s[k + |from|..]
  }

  /** A byte literal `<digits>b` has its marker stripped: only a b is removed. */
  lemma {:induction false} ByteLiteralMarkerStripped(digits: string)
    requires IsDigits(digits)
    ensures ReplaceFirst(digits + "b", "b", "") == digits
  {
    var s := digits + "b";
    assert OccursAt(s, "b", |digits|);
    forall j | 0 <= j < |digits| ensures !OccursAt(s, "b", j) {
      assert s[j] == digits[j];
    }
    assert s[..|digits|] == digits;
  }

  /** The operand `createArithmeticCode` uses for a node: the register bound
      to its identifier if the map has one, otherwise the node's own value. */
  function OperandRegister(m: map<string, string>, id: string, fallback: string): string {
    if id in m then m[id] else fallback
  }

  /** The result of `getVarRegister(var, fallback)` for a binding map `m`:
      `operator[]` yields the empty string for a declared identifier the map
      does not hold. */
  function VarRegister(st: SymbolTable, m: map<string, string>, v: string, fallback: string): string {
    if v != INVALID_ID && v in st then (if v in m then m[v] else "") else fallback
  }

  /** The binding map after `getVarRegister(var, ...)`: `operator[]` inserts
      an empty entry for a declared identifier the map does not hold. */
  function AfterLookup(st: SymbolTable, m: map<string, string>, v: string): map<string, string> {
    if v != INVALID_ID && v in st && v !in m then m[v := ""] else m
  }

  /** A looked-up identifier reads the same afterwards: the inserted default is what it read. */
  lemma LookupStable(st: SymbolTable, m: map<string, string>, v: string, w: string, fallback: string)
    ensures VarRegister(st, AfterLookup(st, m, v), w, fallback) == VarRegister(st, m, w, fallback)
    ensures forall k | k in m :: k in AfterLookup(st, m, v) && AfterLookup(st, m, v)[k] == m[k]
  {
  }

  /** The sentinel identifier of a node that names no variable (from Types.h,
      which is not part of this model). */
  const INVALID_ID: string := "INVALID_ID"

  /** The division-by-zero test createArithmeticCode writes ahead of sdiv and
      udiv, text as written (its two labels are never defined). */
  function DivisionGuard(reg: string, divisor: string): string {
    reg + "icmp eq i32 " + divisor + ", 0\n"
    + "br i1" + reg + " label @divideByzero@" + " label @continueCode@" + "\n"
  }

  function IsDivision(op: string): bool {
    op == "sdiv" || op == "udiv"
  }

  class RegisterAllocator {
    var counter: u32
    var stringCounter: int
    var varToRegMapping: map<string, string>

    constructor ()
      ensures counter == 0 && stringCounter == 0 && varToRegMapping == map[]
    {
      counter, stringCounter, varToRegMapping := 0, 0, map[];
    }

    /** getNextRegisterName: the counter moves by `increment` first, and the
        name printed is that of the new value. */
    method GetNextRegisterName(increment: int) returns (name: string)
      modifies this`counter
      ensures counter == Bump(old(counter), increment)
      ensures name == RegisterName(counter)
    {
      counter := Bump(counter, increment);
      name := RegisterName(counter);
    }

    /** getCurrentRegisterName: `getNextRegisterName(0)`, the name of the
        register allocated last, with the counter left as it was. */
    method GetCurrentRegisterName() returns (name: string)
      modifies this`counter
      ensures counter == old(counter)
      ensures name == RegisterName(counter)
    {
      name := GetNextRegisterName(0);
    }

    /** createStringConstant: the name of the old counter value, then the
        counter moves by `increment`; the register counter is untouched. */
    method CreateStringConstant(increment: int) returns (name: string)
      modifies this`stringCounter
      ensures name == StringConstantName(old(stringCounter))
      ensures stringCounter == old(stringCounter) + increment
    {
      name := StringConstantName(stringCounter);
      stringCounter := stringCounter + increment;
    }

    /** getVarRegister: the fallback for INVALID_ID or an identifier the
        symbol table does not know, else the identifier's register. */
    method GetVarRegister(st: SymbolTable, v: string, fallback: string) returns (r: string)
      modifies this`varToRegMapping
      ensures v == INVALID_ID || v !in st ==> r == fallback
      ensures v != INVALID_ID && v in st && v in old(varToRegMapping) ==> r == old(varToRegMapping)[v]
      ensures v != INVALID_ID && v in st && v !in old(varToRegMapping) ==> r == ""
      ensures r == VarRegister(st, old(varToRegMapping), v, fallback)
      ensures varToRegMapping == AfterLookup(st, old(varToRegMapping), v)
    {
      if v != INVALID_ID && v in st {
        if v !in varToRegMapping {
          varToRegMapping := varToRegMapping[v := ""];
        }
        return varToRegMapping[v];
      }
      return fallback;
    }

    /** addVariable: binds the identifier to stack slot `%position`; every
        other binding stays. */
    method AddVariable(position: int, varName: string)
      modifies this`varToRegMapping
      ensures varName in varToRegMapping && varToRegMapping[varName] == "%" + IntToString(position)
      ensures forall k | k in old(varToRegMapping) && k != varName ::
        k in varToRegMapping && varToRegMapping[k] == old(varToRegMapping)[k]
      ensures varToRegMapping.Keys == old(varToRegMapping).Keys + {varName}
    {
      varToRegMapping := varToRegMapping[varName := "%" + IntToString(position)];
    }

    /** createRegister: materializes `value` into a fresh register by the
        node's real type (int: identity add; byte: truncate, the first "b"
        of the literal removed; bool: 1 for "true", 0 otherwise) and makes the
        node's value that register. Only a variable reference rebinds its
        identifier. Any other real type is an internal error. */
    method CreateRegister(node: Node, value: string, st: SymbolTable) returns (r: Result<string>)
      modifies this`counter, this`varToRegMapping, node`value
      ensures counter == Advance(old(counter), 1)
      ensures var name, rt := RegisterName(counter), node.Realtype(st);
        && (r.Ok? <==> rt == TYPE_INT || rt == TYPE_BYTE || rt == TYPE_BOOL)
        && (rt == TYPE_INT ==> r == Ok(name + " = add i32 " + value + ", 0"))
        && (rt == TYPE_BYTE ==> r == Ok(name + " = trunc i32 " + ReplaceFirst(value, "b", "") + "to i8"))
        && (rt == TYPE_BOOL && value == "true" ==> r == Ok(name + " = add i32 1, 0"))
        && (rt == TYPE_BOOL && value != "true" ==> r == Ok(name + " = add i32 0, 0"))
        && (r.Err? ==> r.error == InvalidRegisterType(rt))
        && (r.Ok? ==> node.value == name)
        && (r.Ok? && node.typeName == TYPE_ID ==> varToRegMapping == old(varToRegMapping)[node.id := name])
        && (r.Ok? && node.typeName != TYPE_ID ==> varToRegMapping == old(varToRegMapping))
      ensures r.Err? ==> node.value == old(node.value) && varToRegMapping == old(varToRegMapping)
    {
      var registerName := GetNextRegisterName(1);
      var code;
      var t := node.Realtype(st);
      if t == TYPE_INT {
        code := registerName + " = add i32 " + value + ", 0";
      } else if t == TYPE_BYTE {
        code := registerName + " = trunc i32 " + ReplaceFirst(value, "b", "") + "to i8";
      } else if t == TYPE_BOOL {
        if value == "true" {
          code := registerName + " = add i32 1, 0";
        } else {
          code := registerName + " = add i32 0, 0";
        }
      } else {
        return Err(InvalidRegisterType(t));
      }
      if node.typeName == TYPE_ID {
        varToRegMapping := varToRegMapping[node.id := registerName];
      }
      node.value := registerName;
      return Ok(code);
    }

    /** createArithmeticCode: each operand is the register bound to its
        identifier, else the node's own value; add, sub and mul take one new
        register, sdiv and udiv two (the zero test, then the quotient), and
        the result is named with the last one. */
    method CreateArithmeticCode(left: Node, right: Node, op: string) returns (code: string)
      modifies this`counter
      ensures var lop := OperandRegister(varToRegMapping, left.id, left.value);
        var rop := OperandRegister(varToRegMapping, right.id, right.value);
        && counter == (if IsDivision(op) then Advance(old(counter), 2) else Advance(old(counter), 1))
        && code == (if IsDivision(op) then DivisionGuard(RegisterName(Bump(old(counter), 1)), rop) else "")
                   + RegisterName(counter) + " = " + op + " i32 " + lop + ", " + rop
    {
      var l := OperandRegister(varToRegMapping, left.id, left.value);
      var r := OperandRegister(varToRegMapping, right.id, right.value);
      ghost var c0 := counter;
      assert Advance(c0, 1) == Bump(c0, 1);
      assert Advance(c0, 2) == Bump(Advance(c0, 1), 1);
      var guard := "";
      if op == "sdiv" || op == "udiv" {
        var g := GetNextRegisterName(1);
        var cur := GetCurrentRegisterName();
        guard := g + "icmp eq i32 " + r + ", 0\n" + "br i1" + cur + " label @divideByzero@" + " label @continueCode@" + "\n";
        assert guard == DivisionGuard(RegisterName(Bump(c0, 1)), r);
      }
      var res := GetNextRegisterName(1);
      assert counter == if IsDivision(op) then Advance(c0, 2) else Advance(c0, 1);
      code := guard + res + " = " + op + " i32 " + l + ", " + r;
    }
  }
}

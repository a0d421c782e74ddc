/** The effect of each EldenRing instruction on the register file, as pure
    functions from the register values before the instruction to the
    register values after it. Every function follows the Java routine's
    reads and writes in their source order, so operands that name the same
    register behave as they do in the simulator. */
module Routines {
  import opened Int32

  const RegisterCount: int := 32

  /** The register `intd` charges (FP) although it is not one of its operands. */
  const FpRegister: int := 10

  /** The instruction routines, one per registered instruction. */
  datatype Routine =
    | crf | cef | lvlup | grace | lat | runea | che | tad
    | strd | intd | sms | mes | grune | gvow | mfla

  /** A register file state: 32 Java ints. */
  predicate IsRegs(s: seq<int>) {
    |s| == RegisterCount && forall r :: 0 <= r < RegisterCount ==> IsInt32(s[r])
  }

  predicate IsRegister(r: int) {
    0 <= r < RegisterCount
  }

  /** The operand list has at least n entries and the first n name registers. */
  predicate Operands(ops: seq<int>, n: nat) {
    n <= |ops| && forall i :: 0 <= i < n ==> IsRegister(ops[i])
  }

  /** Every register not listed in `written` has the same value in s and t. */
  predicate Keeps(s: seq<int>, t: seq<int>, written: seq<int>) {
    |s| == |t| == RegisterCount &&
    forall r :: 0 <= r < RegisterCount && r !in written ==> t[r] == s[r]
  }

  // ---------------------------------------------------------------------
  // Single-register instructions

  /** crf: HP(operands[0]) += 5. */
  function Crf(s: seq<int>, ops: seq<int>): (t: seq<int>)
    requires IsRegs(s) && Operands(ops, 1)
    ensures IsRegs(t) && Keeps(s, t, [ops[0]])
    ensures Congruent(t[ops[0]], s[ops[0]] + 5)
  {
    s[ops[0] := Add(s[ops[0]], 5)]
  }

  /** cef: FP(operands[0]) += 5. */
  function Cef(s: seq<int>, ops: seq<int>): (t: seq<int>)
    requires IsRegs(s) && Operands(ops, 1)
    ensures IsRegs(t) && Keeps(s, t, [ops[0]])
    ensures Congruent(t[ops[0]], s[ops[0]] + 5)
  {
    var rd := ops[0];
    s[rd := Add(s[rd], 5)]
  }

  /** sms: STR(operands[0]) += 2. */
  function Sms(s: seq<int>, ops: seq<int>): (t: seq<int>)
    requires IsRegs(s) && Operands(ops, 1)
    ensures IsRegs(t) && Keeps(s, t, [ops[0]])
    ensures Congruent(t[ops[0]], s[ops[0]] + 2)
  {
    s[ops[0] := Add(s[ops[0]], 2)]
  }

  /** mes: INT(operands[0]) += 2. */
  function Mes(s: seq<int>, ops: seq<int>): (t: seq<int>)
    requires IsRegs(s) && Operands(ops, 1)
    ensures IsRegs(t) && Keeps(s, t, [ops[0]])
    ensures Congruent(t[ops[0]], s[ops[0]] + 2)
  {
    var currentInt := s[ops[0]];
    s[ops[0] := Add(currentInt, 2)]
  }

  /** gvow: HP(operands[0]) *= 2. */
  function Gvow(s: seq<int>, ops: seq<int>): (t: seq<int>)
    requires IsRegs(s) && Operands(ops, 1)
    ensures IsRegs(t) && Keeps(s, t, [ops[0]])
    ensures Congruent(t[ops[0]], 2 * s[ops[0]])
  {
    s[ops[0] := Twice(s[ops[0]])]
  }

  // ---------------------------------------------------------------------
  // Two- and three-register instructions

  /** grace: HP(operands[0]) += 10, then FP(operands[1]) += 10, the second
      add reading the register after the first has been written. */
  function Grace(s: seq<int>, ops: seq<int>): (t: seq<int>)
    requires IsRegs(s) && Operands(ops, 2)
    ensures IsRegs(t) && Keeps(s, t, ops[..2])
    ensures ops[0] != ops[1] ==>
      Congruent(t[ops[0]], s[ops[0]] + 10) && Congruent(t[ops[1]], s[ops[1]] + 10)
  {
    var hpReg, fpReg := ops[0], ops[1];
    var s1 := s[hpReg := Add(s[hpReg], 10)];
    s1[fpReg := Add(s1[fpReg], 10)]
  }

  /** che: operands[0] and operands[1] each receive a draw in [1, 100];
      when both name one register the second draw is what remains, so the
      state after che always depends on the second draw. */
  function Che(s: seq<int>, ops: seq<int>, draw0: int, draw1: int): (t: seq<int>)
    requires IsRegs(s) && Operands(ops, 2)
    requires 1 <= draw0 <= 100 && 1 <= draw1 <= 100
    ensures IsRegs(t) && Keeps(s, t, ops[..2])
    ensures 1 <= t[ops[0]] <= 100 && 1 <= t[ops[1]] <= 100
    ensures t[ops[1]] == draw1 && (ops[0] != ops[1] ==> t[ops[0]] == draw0)
  {
    s[ops[0] := draw0][ops[1] := draw1]
  }

  /** tad: HP(operands[0]) := max(HP - enemy STR(operands[1]), 0). */
  function Tad(s: seq<int>, ops: seq<int>): (t: seq<int>)
    requires IsRegs(s) && Operands(ops, 2)
    ensures IsRegs(t) && Keeps(s, t, [ops[0]])
    ensures t[ops[0]] >= 0
    ensures var d := s[ops[0]] - s[ops[1]];
      IsInt32(d) ==> (d >= 0 ==> t[ops[0]] == d) && (d <= 0 ==> t[ops[0]] == 0)
  {
    var hp := s[ops[0]];
    var str := s[ops[1]];
    s[ops[0] := FloorZero(Sub(hp, str))]
  }

  /** strd: enemy HP(operands[1]) := max(enemy HP - my STR(operands[0]), 0). */
  function Strd(s: seq<int>, ops: seq<int>): (t: seq<int>)
    requires IsRegs(s) && Operands(ops, 2)
    ensures IsRegs(t) && Keeps(s, t, [ops[1]])
    ensures t[ops[1]] >= 0
    ensures var d := s[ops[1]] - s[ops[0]];
      IsInt32(d) ==> (d >= 0 ==> t[ops[1]] == d) && (d <= 0 ==> t[ops[1]] == 0)
  {
    var mySTR := s[ops[0]];
    var enemyHP := s[ops[1]];
    s[ops[1] := FloorZero(Sub(enemyHP, mySTR))]
  }

  /** intd: enemy HP(operands[1]) := max(enemy HP - my INT(operands[0]), 0),
      then FP (register 10) := max(FP - 2, 0), FP being read after the first
      write. */
  function Intd(s: seq<int>, ops: seq<int>): (t: seq<int>)
    requires IsRegs(s) && Operands(ops, 2)
    ensures IsRegs(t) && Keeps(s, t, [ops[1], FpRegister])
    ensures t[ops[1]] >= 0 && t[FpRegister] >= 0
    ensures var d := s[ops[1]] - s[ops[0]];
      ops[1] != FpRegister && IsInt32(d) ==>
        (d >= 0 ==> t[ops[1]] == d) && (d <= 0 ==> t[ops[1]] == 0)
    ensures var f := s[FpRegister] - 2;
      ops[1] != FpRegister && IsInt32(f) ==>
        (f >= 0 ==> t[FpRegister] == f) && (f <= 0 ==> t[FpRegister] == 0)
  {
    var myINT := s[ops[0]];
    var enemyHP := s[ops[1]];
    var s1 := s[ops[1] := FloorZero(Sub(enemyHP, myINT))];
    s1[FpRegister := FloorZero(Sub(s1[FpRegister], 2))]
  }

  /** mfla: HP(operands[0]) := HP / 2 (Java division, toward zero), then
      STR(operands[1]) *= 2, then INT(operands[2]) *= 2. */
  function Mfla(s: seq<int>, ops: seq<int>): (t: seq<int>)
    requires IsRegs(s) && Operands(ops, 3)
    ensures IsRegs(t) && Keeps(s, t, ops[..3])
    ensures var hpReg, strReg, intReg := ops[0], ops[1], ops[2];
      hpReg != strReg && hpReg != intReg && strReg != intReg ==>
        (s[hpReg] >= 0 ==> 0 <= s[hpReg] - 2 * t[hpReg] <= 1) &&
        (s[hpReg] < 0 ==> -1 <= s[hpReg] - 2 * t[hpReg] <= 0) &&
        Congruent(t[strReg], 2 * s[strReg]) && Congruent(t[intReg], 2 * s[intReg])
  {
    var hpReg, strReg, intReg := ops[0], ops[1], ops[2];
    var s1 := s[hpReg := TruncDiv(s[hpReg], 2)];
    var s2 := s1[strReg := Twice(s1[strReg])];
    s2[intReg := Twice(s2[intReg])]
  }

  // ---------------------------------------------------------------------
  // Instructions that loop over their whole operand list

  /** The per-register update of a looping instruction: add k (lvlup,
      runea), double (grune) or set to 1 (lat). */
  datatype Step = Increment(k: int) | Double | SetToOne

  function Apply(step: Step, x: int): (y: int)
    ensures IsInt32(x) ==> IsInt32(y)
  {
    match step
    case Increment(k) => Add(x, k)
    case Double => Twice(x)
    case SetToOne => 1
  }

  /** `for (int reg : operands)` applying the step: the operand list taken
      left to right, each step reading the register as the previous steps
      left it. */
  function Sweep(s: seq<int>, ops: seq<int>, step: Step): (t: seq<int>)
    requires IsRegs(s) && Operands(ops, |ops|)
    ensures IsRegs(t)
    decreases |ops|
  {
    if ops == [] then s
    else
      var p := Sweep(s, ops[..|ops| - 1], step);
      var reg := ops[|ops| - 1];
      p[reg := Apply(step, p[reg])]
  }

  /** The step applied n times to v. */
  function Iterate(step: Step, n: nat, v: int): int {
    if n == 0 then v else Apply(step, Iterate(step, n - 1, v))
  }

  function Pow2(n: nat): (p: int)
    ensures p >= 1
  {
    if n == 0 then 1 else 2 * Pow2(n - 1)
  }

  /** After a sweep, a register listed k times has had the step applied k times. */
  lemma {:induction false} SweepCount(s: seq<int>, ops: seq<int>, step: Step)
    requires IsRegs(s) && Operands(ops, |ops|)
    ensures forall r :: 0 <= r < RegisterCount ==>
      Sweep(s, ops, step)[r] == Iterate(step, multiset(ops)[r], s[r])
    decreases |ops|
  {
    if ops != [] {
      var init, last := ops[..|ops| - 1], ops[|ops| - 1];
      SweepCount(s, init, step);
      assert ops == init + [last];
      assert multiset(ops) == multiset(init) + multiset{last};
    }
  }

  /** SweepCount at one register. */
  lemma SweepCountAt(s: seq<int>, ops: seq<int>, step: Step, r: int)
    requires IsRegs(s) && Operands(ops, |ops|) && IsRegister(r)
    ensures Sweep(s, ops, step)[r] == Iterate(step, multiset(ops)[r], s[r])
  {
    SweepCount(s, ops, step);
  }

  /** Adding k, n times, gives the 32-bit wrap of v + k * n. */
  lemma {:induction false} IterateAdd(k: int, n: nat, v: int)
    requires IsInt32(v)
    ensures Iterate(Increment(k), n, v) == Wrap(v + k * n)
  {
    if n > 0 {
      IterateAdd(k, n - 1, v);
      WrapAdd(v + k * (n - 1), k);
      assert v + k * (n - 1) + k == v + k * n;
    }
  }

  /** Doubling n times gives the 32-bit wrap of v * 2^n. */
  lemma {:induction false} IterateTwice(n: nat, v: int)
    requires IsInt32(v)
    ensures Iterate(Double, n, v) == Wrap(v * Pow2(n))
  {
    if n > 0 {
      IterateTwice(n - 1, v);
      WrapDouble(v * Pow2(n - 1));
      assert 2 * (v * Pow2(n - 1)) == v * Pow2(n);
    }
  }

  /** Setting to 1 at least once leaves 1. */
  lemma {:induction false} IterateSetOne(n: nat, v: int)
    ensures Iterate(SetToOne, n, v) == if n == 0 then v else 1
  {
    if n > 0 {
      assert Iterate(SetToOne, n, v) == Apply(SetToOne, Iterate(SetToOne, n - 1, v));
    }
  }

  /** lvlup: every listed register += 1, once per listing. */
  function Lvlup(s: seq<int>, ops: seq<int>): (t: seq<int>)
    requires IsRegs(s) && Operands(ops, |ops|)
    ensures IsRegs(t) && Keeps(s, t, ops)
    ensures forall r :: 0 <= r < RegisterCount ==> t[r] == Wrap(s[r] + multiset(ops)[r])
  {
    SweepAdds(s, ops, 1);
    Sweep(s, ops, Increment(1))
  }

  /** runea: every listed register += 5, once per listing. */
  function Runea(s: seq<int>, ops: seq<int>): (t: seq<int>)
    requires IsRegs(s) && Operands(ops, |ops|)
    ensures IsRegs(t) && Keeps(s, t, ops)
    ensures forall r :: 0 <= r < RegisterCount ==> t[r] == Wrap(s[r] + 5 * multiset(ops)[r])
  {
    SweepAdds(s, ops, 5);
    Sweep(s, ops, Increment(5))
  }

  /** grune: every listed register *= 2, once per listing. */
  function Grune(s: seq<int>, ops: seq<int>): (t: seq<int>)
    requires IsRegs(s) && Operands(ops, |ops|)
    ensures IsRegs(t) && Keeps(s, t, ops)
    ensures forall r :: 0 <= r < RegisterCount ==> t[r] == Wrap(s[r] * Pow2(multiset(ops)[r]))
  {
    SweepDoubles(s, ops);
    Sweep(s, ops, Double)
  }

  /** lat: every listed register := 1. */
  function Lat(s: seq<int>, ops: seq<int>): (t: seq<int>)
    requires IsRegs(s) && Operands(ops, |ops|)
    ensures IsRegs(t)
    ensures forall r :: 0 <= r < RegisterCount ==> t[r] == if r in ops then 1 else s[r]
  {
    SweepSets(s, ops);
    Sweep(s, ops, SetToOne)
  }

  /** A sweep leaves every register it does not list unchanged. */
  lemma SweepKeeps(s: seq<int>, ops: seq<int>, step: Step)
    requires IsRegs(s) && Operands(ops, |ops|)
    ensures Keeps(s, Sweep(s, ops, step), ops)
  {
    SweepCount(s, ops, step);
    forall r | 0 <= r < RegisterCount && r !in ops
      ensures Sweep(s, ops, step)[r] == s[r]
    {
      assert multiset(ops)[r] == 0;
    }
  }

  /** The closed form of a sweep that adds k: congruent to k times the count. */
  lemma SweepAdds(s: seq<int>, ops: seq<int>, k: int)
    requires IsRegs(s) && Operands(ops, |ops|)
    ensures Keeps(s, Sweep(s, ops, Increment(k)), ops)
    ensures forall r :: 0 <= r < RegisterCount ==>
      Sweep(s, ops, Increment(k))[r] == Wrap(s[r] + k * multiset(ops)[r])
  {
    SweepKeeps(s, ops, Increment(k));
    forall r | 0 <= r < RegisterCount
      ensures Sweep(s, ops, Increment(k))[r] == Wrap(s[r] + k * multiset(ops)[r])
    {
      SweepCountAt(s, ops, Increment(k), r);
      IterateAdd(k, multiset(ops)[r], s[r]);
    }
  }

  /** The closed form of a doubling sweep: congruent to 2^count times the value. */
  lemma SweepDoubles(s: seq<int>, ops: seq<int>)
    requires IsRegs(s) && Operands(ops, |ops|)
    ensures Keeps(s, Sweep(s, ops, Double), ops)
    ensures forall r :: 0 <= r < RegisterCount ==>
      Sweep(s, ops, Double)[r] == Wrap(s[r] * Pow2(multiset(ops)[r]))
  {
    SweepKeeps(s, ops, Double);
    forall r | 0 <= r < RegisterCount
      ensures Sweep(s, ops, Double)[r] == Wrap(s[r] * Pow2(multiset(ops)[r]))
    {
      SweepCountAt(s, ops, Double, r);
      IterateTwice(multiset(ops)[r], s[r]);
    }
  }

  /** The closed form of the lat sweep. */
  lemma SweepSets(s: seq<int>, ops: seq<int>)
    requires IsRegs(s) && Operands(ops, |ops|)
    ensures forall r :: 0 <= r < RegisterCount ==>
      Sweep(s, ops, SetToOne)[r] == if r in ops then 1 else s[r]
  {
    forall r | 0 <= r < RegisterCount
      ensures Sweep(s, ops, SetToOne)[r] == if r in ops then 1 else s[r]
    {
      SweepCountAt(s, ops, SetToOne, r);
      IterateSetOne(multiset(ops)[r], s[r]);
    }
  }

  // ---------------------------------------------------------------------
  // Dispatch: the routine bound to an instruction, run on the register file

  /** How many leading operands the routine reads: a fixed count, or the
      whole list for the routines that loop over it. */
  function Arity(rt: Routine, ops: seq<int>): nat {
    match rt
    case crf | cef | sms | mes | gvow => 1
    case grace | che | tad | strd | intd => 2
    case mfla => 3
    case lvlup | lat | runea | grune => |ops|
  }

  /** Keeps is preserved when the written list grows. */
  lemma KeepsWiden(s: seq<int>, t: seq<int>, written: seq<int>, wider: seq<int>)
    requires Keeps(s, t, written)
    requires forall r :: r in written ==> r in wider
    ensures Keeps(s, t, wider)
  {
  }

  /** The effect of the routine; draw0 and draw1 are the two random draws
      that only `che` consumes. */
  function Effect(rt: Routine, s: seq<int>, ops: seq<int>, draw0: int, draw1: int): (t: seq<int>)
    requires IsRegs(s) && Operands(ops, Arity(rt, ops))
    requires 1 <= draw0 <= 100 && 1 <= draw1 <= 100
    ensures IsRegs(t)
  {
    match rt
    case crf => Crf(s, ops)
    case cef => Cef(s, ops)
    case lvlup => Lvlup(s, ops)
    case grace => Grace(s, ops)
    case lat => Lat(s, ops)
    case runea => Runea(s, ops)
    case che => Che(s, ops, draw0, draw1)
    case tad => Tad(s, ops)
    case strd => Strd(s, ops)
    case intd => Intd(s, ops)
    case sms => Sms(s, ops)
    case mes => Mes(s, ops)
    case grune => Grune(s, ops)
    case gvow => Gvow(s, ops)
    case mfla => Mfla(s, ops)
  }
}

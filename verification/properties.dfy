/** Properties of the EldenRing routines that relate several runs, aliased
    operands, or concrete register values. */
module RoutineProperties {
  import opened Int32
  import opened Routines

  /** Every routine except intd writes only registers named among the
      operands it reads; intd may also write register 10. */
  lemma OnlyOperandsChange(rt: Routine, s: seq<int>, ops: seq<int>, draw0: int, draw1: int)
    requires IsRegs(s) && Operands(ops, Arity(rt, ops))
    requires 1 <= draw0 <= 100 && 1 <= draw1 <= 100
    ensures rt != intd ==> Keeps(s, Effect(rt, s, ops, draw0, draw1), ops[..Arity(rt, ops)])
    ensures rt == intd ==> Keeps(s, Effect(rt, s, ops, draw0, draw1), ops[..2] + [FpRegister])
  {
    var t := Effect(rt, s, ops, draw0, draw1);
    var used := ops[..Arity(rt, ops)];
    match rt
    case crf => KeepsWiden(s, t, [ops[0]], used);
    case cef => KeepsWiden(s, t, [ops[0]], used);
    case sms => KeepsWiden(s, t, [ops[0]], used);
    case mes => KeepsWiden(s, t, [ops[0]], used);
    case gvow => KeepsWiden(s, t, [ops[0]], used);
    case tad => KeepsWiden(s, t, [ops[0]], used);
    case strd => KeepsWiden(s, t, [ops[1]], used);
    case grace | che | mfla => assert Keeps(s, t, used);
    case intd => KeepsWiden(s, t, [ops[1], FpRegister], ops[..2] + [FpRegister]);
    case lvlup | lat | runea | grune => assert used == ops;
  }

  /** The floored routines never leave their target negative, and hit exactly
      0 when the subtrahend is at least the minuend and nothing overflows. */
  lemma DamageFloorsAtZero(s: seq<int>, ops: seq<int>)
    requires IsRegs(s) && Operands(ops, 2)
    ensures Tad(s, ops)[ops[0]] >= 0 && Strd(s, ops)[ops[1]] >= 0
    ensures Intd(s, ops)[ops[1]] >= 0 && Intd(s, ops)[FpRegister] >= 0
    ensures s[ops[1]] >= s[ops[0]] && IsInt32(s[ops[0]] - s[ops[1]]) ==> Tad(s, ops)[ops[0]] == 0
    ensures s[ops[0]] >= s[ops[1]] && IsInt32(s[ops[1]] - s[ops[0]]) ==> Strd(s, ops)[ops[1]] == 0
    ensures s[ops[0]] >= s[ops[1]] && IsInt32(s[ops[1]] - s[ops[0]]) ==> Intd(s, ops)[ops[1]] == 0
  {
    var t := Intd(s, ops);
    if ops[1] == FpRegister && s[ops[0]] >= s[ops[1]] && IsInt32(s[ops[1]] - s[ops[0]]) {
      // FP is floored once by the damage and once more by the charge
      var s1 := s[ops[1] := FloorZero(Sub(s[ops[1]], s[ops[0]]))];
      assert s1[FpRegister] == 0;
      assert t[FpRegister] == FloorZero(Sub(0, 2));
    }
  }

  /** Java wrap-around defeats the floor: HP at the least int minus a positive
      STR overflows to a large positive value rather than to 0. */
  lemma TadOverflowWraps(s: seq<int>, ops: seq<int>)
    requires IsRegs(s) && Operands(ops, 2) && ops[0] != ops[1]
    requires s[ops[0]] == MinValue && s[ops[1]] == 1
    ensures Tad(s, ops)[ops[0]] == MaxValue
  {
  }

  /** intd reads FP after writing enemy HP: when enemy HP is register 10,
      the charge of 2 applies to the already damaged value, so FP ends at
      max(max(FP - INT, 0) - 2, 0); FP 8 and INT 4 give 2. */
  lemma IntdRereadsFp(s: seq<int>, ops: seq<int>)
    requires IsRegs(s) && Operands(ops, 2) && ops[1] == FpRegister
    requires IsInt32(s[FpRegister] - s[ops[0]])
    ensures Intd(s, ops)[FpRegister] == FloorZero(FloorZero(s[FpRegister] - s[ops[0]]) - 2)
    ensures s[FpRegister] == 8 && s[ops[0]] == 4 ==> Intd(s, ops)[FpRegister] == 2
  {
  }

  /** The damage routines floor the Java-int difference, overflow included:
      whatever int w has the low 32 bits of the exact difference, the target
      ends at max(w, 0). */
  lemma DamageWrapsThenFloors(s: seq<int>, ops: seq<int>, w: int)
    requires IsRegs(s) && Operands(ops, 2) && IsInt32(w)
    ensures Congruent(w, s[ops[0]] - s[ops[1]]) ==> Tad(s, ops)[ops[0]] == FloorZero(w)
    ensures Congruent(w, s[ops[1]] - s[ops[0]]) ==> Strd(s, ops)[ops[1]] == FloorZero(w)
    ensures Congruent(w, s[ops[1]] - s[ops[0]]) && ops[1] != FpRegister ==>
      Intd(s, ops)[ops[1]] == FloorZero(w)
  {
    var a, b := s[ops[0]], s[ops[1]];
    if Congruent(w, a - b) {
      CongruentSym(w, a - b);
      CongruentTrans(Sub(a, b), a - b, w);
      CongruentInt32Equal(Sub(a, b), w);
    }
    if Congruent(w, b - a) {
      CongruentSym(w, b - a);
      CongruentTrans(Sub(b, a), b - a, w);
      CongruentInt32Equal(Sub(b, a), w);
    }
  }

  /** lat is idempotent. */
  lemma {:induction false} LatIdempotent(s: seq<int>, ops: seq<int>)
    requires IsRegs(s) && Operands(ops, |ops|)
    ensures Lat(Lat(s, ops), ops) == Lat(s, ops)
  {
    var once := Lat(s, ops);
    var twice := Lat(once, ops);
    assert forall r :: 0 <= r < RegisterCount ==> twice[r] == once[r];
  }

  /** A register listed k times by lvlup, runea or grune gains k, 5k or a
      factor 2^k, exactly when the result fits in an int. */
  lemma RepeatedOperands(s: seq<int>, ops: seq<int>, r: int)
    requires IsRegs(s) && Operands(ops, |ops|) && IsRegister(r)
    ensures var k := multiset(ops)[r];
      (IsInt32(s[r] + k) ==> Lvlup(s, ops)[r] == s[r] + k) &&
      (IsInt32(s[r] + 5 * k) ==> Runea(s, ops)[r] == s[r] + 5 * k) &&
      (IsInt32(s[r] * Pow2(k)) ==> Grune(s, ops)[r] == s[r] * Pow2(k))
  {
  }

  /** grace with one register as both operands adds 20 to it. */
  lemma GraceSameRegister(s: seq<int>, ops: seq<int>)
    requires IsRegs(s) && Operands(ops, 2) && ops[0] == ops[1]
    ensures Congruent(Grace(s, ops)[ops[0]], s[ops[0]] + 20)
  {
    var r := ops[0];
    var mid := Add(s[r], 10);
    CongruentAdd(mid, s[r] + 10, 10);
    CongruentTrans(Grace(s, ops)[r], mid + 10, s[r] + 20);
  }

  /** gvow twice multiplies by 4 (modulo 2^32); on HP = 3 it gives 12. */
  lemma GvowTwice(s: seq<int>, ops: seq<int>)
    requires IsRegs(s) && Operands(ops, 1)
    ensures Congruent(Gvow(Gvow(s, ops), ops)[ops[0]], 4 * s[ops[0]])
    ensures s[ops[0]] == 3 ==> Gvow(Gvow(s, ops), ops)[ops[0]] == 12
  {
    var r := ops[0];
    var once := Gvow(s, ops)[r];
    CongruentDouble(once, 2 * s[r]);
    CongruentTrans(Gvow(Gvow(s, ops), ops)[r], 2 * once, 4 * s[r]);
  }

  /** mfla halves HP toward zero: 7 becomes 3 and -7 becomes -3; with
      distinct registers STR and INT double exactly when they fit. */
  lemma MflaTruncates(s: seq<int>, ops: seq<int>)
    requires IsRegs(s) && Operands(ops, 3)
    requires ops[0] != ops[1] && ops[0] != ops[2] && ops[1] != ops[2]
    ensures s[ops[0]] == 7 ==> Mfla(s, ops)[ops[0]] == 3
    ensures s[ops[0]] == -7 ==> Mfla(s, ops)[ops[0]] == -3
    ensures IsInt32(2 * s[ops[1]]) ==> Mfla(s, ops)[ops[1]] == 2 * s[ops[1]]
    ensures IsInt32(2 * s[ops[2]]) ==> Mfla(s, ops)[ops[2]] == 2 * s[ops[2]]
  {
    var t := Mfla(s, ops);
    if IsInt32(2 * s[ops[1]]) {
      CongruentInt32Equal(t[ops[1]], 2 * s[ops[1]]);
    }
    if IsInt32(2 * s[ops[2]]) {
      CongruentInt32Equal(t[ops[2]], 2 * s[ops[2]]);
    }
  }

  // ---------------------------------------------------------------------
  // End-to-end scenarios

  /** HP = 20, crf: HP = 25. */
  lemma CrfScenario(s: seq<int>, ops: seq<int>)
    requires IsRegs(s) && Operands(ops, 1) && s[ops[0]] == 20
    ensures Crf(s, ops)[ops[0]] == 25
  {
  }

  /** HP = 100, enemy STR = 30, tad: HP = 70; enemy STR = 80, tad: HP = 0. */
  lemma TadScenario(s: seq<int>, hp: int, str: int)
    requires IsRegs(s) && IsRegister(hp) && IsRegister(str) && hp != str
    requires s[hp] == 100 && s[str] == 30
    ensures Tad(s, [hp, str])[hp] == 70
    ensures Tad(Tad(s, [hp, str])[str := 80], [hp, str])[hp] == 0
  {
  }

  /** STR = 4, INT = 6, FP = 8, enemy HP = 50, intd INT, enemy HP:
      enemy HP = 44 and FP = 6. */
  lemma IntdScenario(s: seq<int>, strReg: int, intReg: int, enemyHp: int)
    requires IsRegs(s) && IsRegister(strReg) && IsRegister(intReg) && IsRegister(enemyHp)
    requires FpRegister !in [strReg, intReg, enemyHp]
    requires strReg != intReg && intReg != enemyHp && strReg != enemyHp
    requires s[strReg] == 4 && s[intReg] == 6 && s[FpRegister] == 8 && s[enemyHp] == 50
    ensures var t := Intd(s, [intReg, enemyHp]);
      t[enemyHp] == 44 && t[FpRegister] == 6 && t[strReg] == 4 && t[intReg] == 6
  {
  }

  /** Four registers holding 1, 2, 3, 4: lvlup gives 2, 3, 4, 5, and lat
      then gives 1, 1, 1, 1. */
  lemma LvlupLatScenario(s: seq<int>, ops: seq<int>)
    requires IsRegs(s) && Operands(ops, |ops|) && |ops| == 4
    requires forall i, j :: 0 <= i < j < 4 ==> ops[i] != ops[j]
    requires forall i :: 0 <= i < 4 ==> s[ops[i]] == i + 1
    ensures forall i :: 0 <= i < 4 ==> Lvlup(s, ops)[ops[i]] == i + 2
    ensures forall i :: 0 <= i < 4 ==> Lat(Lvlup(s, ops), ops)[ops[i]] == 1
  {
    forall i | 0 <= i < 4
      ensures Lvlup(s, ops)[ops[i]] == i + 2
    {
      assert multiset(ops)[ops[i]] == 1 by {
        assert ops == [ops[0], ops[1], ops[2], ops[3]];
      }
      RepeatedOperands(s, ops, ops[i]);
    }
  }
}

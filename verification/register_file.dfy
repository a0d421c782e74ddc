/** The simulate routines of the EldenRing instructions as methods that read
    and write MARS's shared register file in place, one register at a time,
    in the order the Java routines do. Each is proved to leave the register
    file in the state the matching function of `Routines` describes. */
module RegisterBank {
  import opened Int32
  import opened Routines

  /** The 32 int registers, read by getValue and written by updateRegister. */
  class RegisterFile {
    var regs: array<int>

    ghost predicate Valid()
      reads this, regs
    {
      regs.Length == RegisterCount && IsRegs(regs[..])
    }

    /** The register values, indexed by register number. */
    function Values(): seq<int>
      reads this, regs
    {
      regs[..]
    }

    constructor (init: seq<int>)
      requires IsRegs(init)
      ensures Valid() && fresh(regs) && Values() == init
    {
      var a := new int[RegisterCount](i => if 0 <= i < |init| then init[i] else 0);
      assert a[..] == init by {
        assert forall i :: 0 <= i < RegisterCount ==> a[i] == init[i];
      }
      regs := a;
    }

    method Crf(ops: seq<int>)
      requires Valid() && Operands(ops, 1)
      modifies regs
      ensures Valid() && Values() == Routines.Crf(old(Values()), ops)
    {
      var reg := ops[0];
      var hp := regs[reg];
      regs[reg] := Add(hp, 5);
    }

    method Cef(ops: seq<int>)
      requires Valid() && Operands(ops, 1)
      modifies regs
      ensures Valid() && Values() == Routines.Cef(old(Values()), ops)
    {
      var rd := ops[0];
      var current := regs[rd];
      regs[rd] := Add(current, 5);
    }

    method Lvlup(ops: seq<int>)
      requires Valid() && Operands(ops, |ops|)
      modifies regs
      ensures Valid() && Values() == Routines.Lvlup(old(Values()), ops)
    {
      for i := 0 to |ops|
        invariant Valid()
        invariant regs[..] == Sweep(old(regs[..]), ops[..i], Increment(1))
      {
        var reg := ops[i];
        var currVal := regs[reg];
        regs[reg] := Add(currVal, 1);
        assert ops[..i + 1][..i] == ops[..i];
      }
      assert ops[..|ops|] == ops;
    }

    method Grace(ops: seq<int>)
      requires Valid() && Operands(ops, 2)
      modifies regs
      ensures Valid() && Values() == Routines.Grace(old(Values()), ops)
    {
      var hpReg := ops[0];
      var fpReg := ops[1];
      regs[hpReg] := Add(regs[hpReg], 10);
      regs[fpReg] := Add(regs[fpReg], 10);
    }

    method Lat(ops: seq<int>)
      requires Valid() && Operands(ops, |ops|)
      modifies regs
      ensures Valid() && Values() == Routines.Lat(old(Values()), ops)
    {
      for i := 0 to |ops|
        invariant Valid()
        invariant regs[..] == Sweep(old(regs[..]), ops[..i], SetToOne)
      {
        regs[ops[i]] := 1;
        assert ops[..i + 1][..i] == ops[..i];
      }
      assert ops[..|ops|] == ops;
    }

    method Runea(ops: seq<int>)
      requires Valid() && Operands(ops, |ops|)
      modifies regs
      ensures Valid() && Values() == Routines.Runea(old(Values()), ops)
    {
      for i := 0 to |ops|
        invariant Valid()
        invariant regs[..] == Sweep(old(regs[..]), ops[..i], Increment(5))
      {
        var reg := ops[i];
        var current := regs[reg];
        regs[reg] := Add(current, 5);
        assert ops[..i + 1][..i] == ops[..i];
      }
      assert ops[..|ops|] == ops;
    }

    /** draw0 and draw1 stand for the two values of `(int) (Math.random() * 100) + 1`. */
    method Che(ops: seq<int>, draw0: int, draw1: int)
      requires Valid() && Operands(ops, 2)
      requires 1 <= draw0 <= 100 && 1 <= draw1 <= 100
      modifies regs
      ensures Valid() && Values() == Routines.Che(old(Values()), ops, draw0, draw1)
    {
      regs[ops[0]] := draw0;
      regs[ops[1]] := draw1;
    }

    method Tad(ops: seq<int>)
      requires Valid() && Operands(ops, 2)
      modifies regs
      ensures Valid() && Values() == Routines.Tad(old(Values()), ops)
    {
      var hp := regs[ops[0]];
      var str := regs[ops[1]];
      regs[ops[0]] := FloorZero(Sub(hp, str));
    }

    method Strd(ops: seq<int>)
      requires Valid() && Operands(ops, 2)
      modifies regs
      ensures Valid() && Values() == Routines.Strd(old(Values()), ops)
    {
      var mySTR := regs[ops[0]];
      var enemyHP := regs[ops[1]];
      regs[ops[1]] := FloorZero(Sub(enemyHP, mySTR));
    }

    method Intd(ops: seq<int>)
      requires Valid() && Operands(ops, 2)
      modifies regs
      ensures Valid() && Values() == Routines.Intd(old(Values()), ops)
    {
      var myINT := regs[ops[0]];
      var enemyHP := regs[ops[1]];
      regs[ops[1]] := FloorZero(Sub(enemyHP, myINT));
      var fpReg := FpRegister;
      regs[fpReg] := FloorZero(Sub(regs[fpReg], 2));
    }

    method Sms(ops: seq<int>)
      requires Valid() && Operands(ops, 1)
      modifies regs
      ensures Valid() && Values() == Routines.Sms(old(Values()), ops)
    {
      var currentSTR := regs[ops[0]];
      regs[ops[0]] := Add(currentSTR, 2);
    }

    method Mes(ops: seq<int>)
      requires Valid() && Operands(ops, 1)
      modifies regs
      ensures Valid() && Values() == Routines.Mes(old(Values()), ops)
    {
      var currentINT := regs[ops[0]];
      regs[ops[0]] := Add(currentINT, 2);
    }

    method Grune(ops: seq<int>)
      requires Valid() && Operands(ops, |ops|)
      modifies regs
      ensures Valid() && Values() == Routines.Grune(old(Values()), ops)
    {
      for i := 0 to |ops|
        invariant Valid()
        invariant regs[..] == Sweep(old(regs[..]), ops[..i], Double)
      {
        var reg := ops[i];
        regs[reg] := Twice(regs[reg]);
        assert ops[..i + 1][..i] == ops[..i];
      }
      assert ops[..|ops|] == ops;
    }

    method Gvow(ops: seq<int>)
      requires Valid() && Operands(ops, 1)
      modifies regs
      ensures Valid() && Values() == Routines.Gvow(old(Values()), ops)
    {
      var reg := ops[0];
      regs[reg] := Twice(regs[reg]);
    }

    method Mfla(ops: seq<int>)
      requires Valid() && Operands(ops, 3)
      modifies regs
      ensures Valid() && Values() == Routines.Mfla(old(Values()), ops)
    {
      var hpReg := ops[0];
      var strReg := ops[1];
      var intReg := ops[2];
      regs[hpReg] := TruncDiv(regs[hpReg], 2);
      regs[strReg] := Twice(regs[strReg]);
      regs[intReg] := Twice(regs[intReg]);
    }

    /** The host's dispatch: run the routine bound to a matched instruction. */
    method Simulate(rt: Routine, ops: seq<int>, draw0: int, draw1: int)
      requires Valid() && Operands(ops, Arity(rt, ops))
      requires 1 <= draw0 <= 100 && 1 <= draw1 <= 100
      modifies regs
      ensures Valid() && Values() == Effect(rt, old(Values()), ops, draw0, draw1)
    {
      match rt
      case crf => Crf(ops);
      case cef => Cef(ops);
      case lvlup => Lvlup(ops);
      case grace => Grace(ops);
      case lat => Lat(ops);
      case runea => Runea(ops);
      case che => Che(ops, draw0, draw1);
      case tad => Tad(ops);
      case strd => Strd(ops);
      case intd => Intd(ops);
      case sms => Sms(ops);
      case mes => Mes(ops);
      case grune => Grune(ops);
      case gvow => Gvow(ops);
      case mfla => Mfla(ops);
    }
  }
}

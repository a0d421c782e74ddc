/** The EldenRing instruction set as MARS sees it: the list of basic
    instructions built by `populate()`, each binding an example syntax, a
    description, an encoding format, a 32-bit pattern and its routine. */
module EldenRing {
  import opened Routines

  datatype Format = IFormat | RFormat

  /** A bit pattern, kept as its space-separated groups of the same letter:
      a digit is a fixed bit and a letter (f, s, t) a bit of an operand field.
      R-format patterns have six groups (opcode, three register fields, shift
      amount, function code); I-format patterns have four (opcode, two
      register fields, 16-bit immediate). */
  datatype Pattern =
    | RPattern(opcode: string, rs: string, rt: string, rd: string, shamt: string, funct: string)
    | IPattern(opcode: string, rs: string, rt: string, imm: string)

  /** An example syntax: the mnemonic followed by its operands. */
  datatype Syntax = Syntax(mnemonic: string, operands: seq<string>)

  /** One BasicInstruction. */
  datatype Instruction = Instruction(
    example: Syntax,
    description: string,
    format: Format,
    pattern: Pattern,
    routine: Routine)

  /** The groups joined by single spaces: the pattern string MARS is given. */
  function PatternText(p: Pattern): string {
    match p
    case RPattern(op, rs, rt, rd, sh, fn) => op + " " + rs + " " + rt + " " + rd + " " + sh + " " + fn
    case IPattern(op, rs, rt, imm) => op + " " + rs + " " + rt + " " + imm
  }

  /** Operands joined by ", ". */
  function JoinOperands(ops: seq<string>): string {
    if |ops| <= 1 then (if ops == [] then "" else ops[0])
    else ops[0] + ", " + JoinOperands(ops[1..])
  }

  /** The example syntax string MARS is given. */
  function SyntaxText(x: Syntax): string {
    if x.operands == [] then x.mnemonic else x.mnemonic + " " + JoinOperands(x.operands)
  }

  /** The mnemonic MARS reads off an example syntax: everything up to its
      first space. */
  function Mnemonic(example: string): (m: string)
    ensures m <= example && ' ' !in m
    ensures |m| < |example| ==> example[|m|] == ' '
  {
    if example == [] || example[0] == ' ' then []
    else [example[0]] + Mnemonic(example[1..])
  }

  /** The number of positions in a pattern string: its characters other than
      the separating spaces. */
  function Positions(text: string): int {
    |text| - multiset(text)[' ']
  }

  /** The name of the routine, as written in assembly source. */
  function Name(rt: Routine): string {
    match rt
    case crf => "crf"
    case cef => "cef"
    case lvlup => "lvlup"
    case grace => "grace"
    case lat => "lat"
    case runea => "runea"
    case che => "che"
    case tad => "tad"
    case strd => "strd"
    case intd => "intd"
    case sms => "sms"
    case mes => "mes"
    case grune => "grune"
    case gvow => "gvow"
    case mfla => "mfla"
  }

  /** g is one group of w positions. */
  predicate Group(g: string, w: nat) {
    |g| == w && ' ' !in g
  }

  /** p has the layout of the format: 6-5-5-5-5-6 positions for R, 6-5-5-16
      for I. */
  predicate Fits(p: Pattern, f: Format) {
    (p.RPattern? <==> f == RFormat) &&
    Group(p.opcode, 6) && Group(p.rs, 5) && Group(p.rt, 5) &&
    (p.RPattern? ==> Group(p.rd, 5) && Group(p.shamt, 5) && Group(p.funct, 6)) &&
    (p.IPattern? ==> Group(p.imm, 16))
  }

  /** A definition is well formed when its pattern has the layout of its
      format and its mnemonic, a single word, names the routine bound to it. */
  predicate WellFormed(d: Instruction) {
    Fits(d.pattern, d.format) && ' ' !in d.example.mnemonic && d.example.mnemonic == Name(d.routine)
  }

  /** Every digit of g is a 0 or a 1. */
  predicate BinaryGroup(g: string) {
    forall c :: c in g && '0' <= c <= '9' ==> c == '0' || c == '1'
  }

  /** Every fixed position of the pattern is a 0 or a 1. */
  predicate BinaryLiterals(p: Pattern) {
    BinaryGroup(p.opcode) && BinaryGroup(p.rs) && BinaryGroup(p.rt) &&
    (p.RPattern? ==> BinaryGroup(p.rd) && BinaryGroup(p.shamt) && BinaryGroup(p.funct)) &&
    (p.IPattern? ==> BinaryGroup(p.imm))
  }

  /** The opcode field (the first six positions of the pattern) bound to
      each routine. */
  function OpcodeField(rt: Routine): string {
    match rt
    case crf => "001000"
    case cef => "000001"
    case lvlup => "000002"
    case grace => "000003"
    case lat => "000004"
    case runea => "000005"
    case che => "000006"
    case tad => "000007"
    case strd => "000008"
    case intd => "000009"
    case sms => "000010"
    case mes => "000011"
    case grune => "000012"
    case gvow => "000013"
    case mfla => "000014"
  }

  /** crf is the only I-format instruction. */
  function FormatOf(rt: Routine): Format {
    if rt == crf then IFormat else RFormat
  }

  /** The number of operands the example syntax lists. */
  function OperandCount(rt: Routine): nat {
    match rt
    case crf | cef | sms | mes | gvow => 1
    case grace | che | tad | strd | intd => 2
    case mfla => 3
    case lvlup | lat | runea | grune => 4
  }

  /** d's mnemonic and opcode field are those of its routine. */
  predicate Named(d: Instruction) {
    d.example.mnemonic == Name(d.routine) && d.pattern.opcode == OpcodeField(d.routine)
  }

  /** d is the well-formed definition of routine rt, with the routine's
      mnemonic, opcode field, format and number of example operands. */
  predicate Defines(d: Instruction, rt: Routine) {
    d.routine == rt && Named(d) && WellFormed(d)
    && d.format == FormatOf(rt) && |d.example.operands| == OperandCount(rt)
  }

  /** A single word followed by a space (or by nothing) is its own mnemonic. */
  lemma {:induction false} MnemonicOfWord(m: string, rest: string)
    requires ' ' !in m && (rest == [] || rest[0] == ' ')
    ensures Mnemonic(m + rest) == m
  {
    if m != [] {
      assert (m + rest)[0] == m[0];
      assert (m + rest)[1..] == m[1..] + rest;
      MnemonicOfWord(m[1..], rest);
    }
  }

  /** The mnemonic read off the example syntax string is the syntax's own. */
  lemma MnemonicOfSyntax(x: Syntax)
    requires ' ' !in x.mnemonic
    ensures Mnemonic(SyntaxText(x)) == x.mnemonic
  {
    if x.operands == [] {
      MnemonicOfWord(x.mnemonic, []);
      assert x.mnemonic + [] == x.mnemonic;
    } else {
      MnemonicOfWord(x.mnemonic, " " + JoinOperands(x.operands));
      assert SyntaxText(x) == x.mnemonic + (" " + JoinOperands(x.operands));
    }
  }

  /** A group without spaces is all positions. */
  lemma PositionsOfGroup(g: string)
    requires ' ' !in g
    ensures Positions(g) == |g|
  {
    assert multiset(g)[' '] == 0;
  }

  /** Joining two pattern strings with a space adds their positions. */
  lemma PositionsOfJoin(a: string, b: string)
    ensures Positions(a + " " + b) == Positions(a) + Positions(b)
  {
    assert multiset(a + " " + b) == multiset(a) + multiset(" ") + multiset(b);
  }

  /** A pattern with its format's layout spells a pattern string of exactly
      32 positions. */
  lemma PatternPositions(p: Pattern, f: Format)
    requires Fits(p, f)
    ensures Positions(PatternText(p)) == 32
  {
    match p
    case RPattern(op, rs, rt, rd, sh, fn) =>
      PositionsOfGroup(op);
      PositionsOfGroup(rs);
      PositionsOfGroup(rt);
      PositionsOfGroup(rd);
      PositionsOfGroup(sh);
      PositionsOfGroup(fn);
      PositionsOfJoin(op, rs);
      PositionsOfJoin(op + " " + rs, rt);
      PositionsOfJoin(op + " " + rs + " " + rt, rd);
      PositionsOfJoin(op + " " + rs + " " + rt + " " + rd, sh);
      PositionsOfJoin(op + " " + rs + " " + rt + " " + rd + " " + sh, fn);
    case IPattern(op, rs, rt, imm) =>
      PositionsOfGroup(op);
      PositionsOfGroup(rs);
      PositionsOfGroup(rt);
      PositionsOfGroup(imm);
      PositionsOfJoin(op, rs);
      PositionsOfJoin(op + " " + rs, rt);
      PositionsOfJoin(op + " " + rs + " " + rt, imm);
  }

  /** What a well-formed definition gives MARS: the mnemonic of its example
      string names its routine and its pattern string has 32 positions. */
  lemma WellFormedText(d: Instruction)
    requires WellFormed(d)
    ensures Mnemonic(SyntaxText(d.example)) == Name(d.routine)
    ensures Positions(PatternText(d.pattern)) == 32
  {
    MnemonicOfSyntax(d.example);
    PatternPositions(d.pattern, d.format);
  }

  // One method per `new BasicInstruction(...)` of the instruction list.

  const CrfDescription: string :=
    "Crismon Flask: Add 5 points to your HP($t1)"

  method CrfInstruction() returns (d: Instruction)
    ensures Defines(d, crf) && BinaryLiterals(d.pattern)
  {
    d := Instruction(
      Syntax("crf", ["$t1"]),
      CrfDescription,
      IFormat,
      IPattern("001000", "fffff", "00000", "ssssssssssssssss"),
      crf);
  }

  const CefDescription: string :=
    "Cerulean Flask: Add 5 points to your FP($t2)"

  method CefInstruction() returns (d: Instruction)
    ensures Defines(d, cef) && BinaryLiterals(d.pattern)
  {
    d := Instruction(
      Syntax("cef", ["$t2"]),
      CefDescription,
      RFormat,
      RPattern("000001", "fffff", "sssss", "00000", "00000", "100000"),
      cef);
  }

  const LvlupDescription: string :=
    "LevelUp: Add 1 point to each stat($t1-$t4)"

  method LvlupInstruction() returns (d: Instruction)
    ensures Defines(d, lvlup) && !BinaryLiterals(d.pattern)
  {
    d := Instruction(
      Syntax("lvlup", ["$t1", "$t2", "$t3", "$t4"]),
      LvlupDescription,
      RFormat,
      RPattern("000002", "fffff", "sssss", "ttttt", "00000", "000000"),
      lvlup);
    assert '2' in d.pattern.opcode;
  }

  const GraceDescription: string :=
    "Grace: Restores 10 points to HP($t1) and FP($t2)"

  method GraceInstruction() returns (d: Instruction)
    ensures Defines(d, grace) && !BinaryLiterals(d.pattern)
  {
    d := Instruction(
      Syntax("grace", ["$t1", "$t2"]),
      GraceDescription,
      RFormat,
      RPattern("000003", "fffff", "sssss", "00000", "00000", "100001"),
      grace);
    assert '3' in d.pattern.opcode;
  }

  const LatDescription: string :=
    "Larval Tear: Set all your stats($t1-$t4) back to 1"

  method LatInstruction() returns (d: Instruction)
    ensures Defines(d, lat) && !BinaryLiterals(d.pattern)
  {
    d := Instruction(
      Syntax("lat", ["$t1", "$t2", "$t3", "$t4"]),
      LatDescription,
      RFormat,
      RPattern("000004", "fffff", "sssss", "ttttt", "00000", "010011"),
      lat);
    assert '4' in d.pattern.opcode;
  }

  const RuneaDescription: string :=
    "Rune Arc: Add 5 points to all of your stats($t1-$t4)"

  method RuneaInstruction() returns (d: Instruction)
    ensures Defines(d, runea) && !BinaryLiterals(d.pattern)
  {
    d := Instruction(
      Syntax("runea", ["$t1", "$t2", "$t3", "$t4"]),
      RuneaDescription,
      RFormat,
      RPattern("000005", "fffff", "sssss", "ttttt", "00000", "010100"),
      runea);
    assert '5' in d.pattern.opcode;
  }

  const CheDescription: string :=
    "Change Enemy: Change the enemies stats($t5,$t6) to random values"

  method CheInstruction() returns (d: Instruction)
    ensures Defines(d, che) && !BinaryLiterals(d.pattern)
  {
    d := Instruction(
      Syntax("che", ["$t5", "$t6"]),
      CheDescription,
      RFormat,
      RPattern("000006", "fffff", "sssss", "00000", "00000", "100000"),
      che);
    assert '6' in d.pattern.opcode;
  }

  const TadDescription: string :=
    "Take Damage: Subtract your HP($t1) depending on the enemies STR($t6)"

  method TadInstruction() returns (d: Instruction)
    ensures Defines(d, tad) && !BinaryLiterals(d.pattern)
  {
    d := Instruction(
      Syntax("tad", ["$t1", "$t6"]),
      TadDescription,
      RFormat,
      RPattern("000007", "fffff", "sssss", "00000", "00000", "100001"),
      tad);
    assert '7' in d.pattern.opcode;
  }

  const StrdDescription: string :=
    "STR Damage: Subtract the enemies HP($t5) depending on your STR($t3)"

  method StrdInstruction() returns (d: Instruction)
    ensures Defines(d, strd) && !BinaryLiterals(d.pattern)
  {
    d := Instruction(
      Syntax("strd", ["$t3", "$t5"]),
      StrdDescription,
      RFormat,
      RPattern("000008", "fffff", "sssss", "00000", "00000", "100002"),
      strd);
    assert '8' in d.pattern.opcode;
  }

  const IntdDescription: string :=
    "INT Damage: Subtract the enemies HP($t5) depending on your INT($t4) and subtract 2 points from your FP($t2)"

  method IntdInstruction() returns (d: Instruction)
    ensures Defines(d, intd) && !BinaryLiterals(d.pattern)
  {
    d := Instruction(
      Syntax("intd", ["$t4", "$t5"]),
      IntdDescription,
      RFormat,
      RPattern("000009", "fffff", "sssss", "00000", "00000", "100003"),
      intd);
    assert '9' in d.pattern.opcode;
  }

  const SmsDescription: string :=
    "Smithing Stone: Add 2 points to your STR($t3)"

  method SmsInstruction() returns (d: Instruction)
    ensures Defines(d, sms) && !BinaryLiterals(d.pattern)
  {
    d := Instruction(
      Syntax("sms", ["$t3"]),
      SmsDescription,
      RFormat,
      RPattern("000010", "fffff", "00000", "00000", "00000", "100004"),
      sms);
    assert '4' in d.pattern.funct;
  }

  const MesDescription: string :=
    "Memory Stone: Add 2 points to your INT($t4)"

  method MesInstruction() returns (d: Instruction)
    ensures Defines(d, mes) && !BinaryLiterals(d.pattern)
  {
    d := Instruction(
      Syntax("mes", ["$t4"]),
      MesDescription,
      RFormat,
      RPattern("000011", "fffff", "00000", "00000", "00000", "100005"),
      mes);
    assert '5' in d.pattern.funct;
  }

  const GruneDescription: string :=
    "Great Rune: Doubles all of your stats($t1-$t4)"

  method GruneInstruction() returns (d: Instruction)
    ensures Defines(d, grune) && !BinaryLiterals(d.pattern)
  {
    d := Instruction(
      Syntax("grune", ["$t1", "$t2", "$t3", "$t4"]),
      GruneDescription,
      RFormat,
      RPattern("000012", "fffff", "sssss", "ttttt", "00000", "100006"),
      grune);
    assert '2' in d.pattern.opcode;
  }

  const GvowDescription: string :=
    "Golden Vow: Doubles your HP($t1)"

  method GvowInstruction() returns (d: Instruction)
    ensures Defines(d, gvow) && !BinaryLiterals(d.pattern)
  {
    d := Instruction(
      Syntax("gvow", ["$t1"]),
      GvowDescription,
      RFormat,
      RPattern("000013", "fffff", "00000", "00000", "00000", "100007"),
      gvow);
    assert '3' in d.pattern.opcode;
  }

  const MflaDescription: string :=
    "Midra's Flame: Reduce your HP($t1) by half and double your STR($t3) and INT($t4)"

  method MflaInstruction() returns (d: Instruction)
    ensures Defines(d, mfla) && !BinaryLiterals(d.pattern)
  {
    d := Instruction(
      Syntax("mfla", ["$t1", "$t3", "$t4"]),
      MflaDescription,
      RFormat,
      RPattern("000014", "fffff", "sssss", "ttttt", "00000", "100008"),
      mfla);
    assert '4' in d.pattern.opcode;
  }

  /** The place of each routine's definition in the instruction list, in
      source order. */
  function Position(rt: Routine): (p: nat)
    ensures p < 15
  {
    match rt
    case crf => 0
    case cef => 1
    case lvlup => 2
    case grace => 3
    case lat => 4
    case runea => 5
    case che => 6
    case tad => 7
    case strd => 8
    case intd => 9
    case sms => 10
    case mes => 11
    case grune => 12
    case gvow => 13
    case mfla => 14
  }

  /** ds lists one definition per routine, in source order. */
  predicate InOrder(ds: seq<Instruction>) {
    |ds| == 15 && forall i :: 0 <= i < |ds| ==> Position(ds[i].routine) == i
  }

  /** Fifteen definitions of the routines, listed in source order. */
  lemma RoutinesInOrder(
    d0: Instruction,
    d1: Instruction,
    d2: Instruction,
    d3: Instruction,
    d4: Instruction,
    d5: Instruction,
    d6: Instruction,
    d7: Instruction,
    d8: Instruction,
    d9: Instruction,
    d10: Instruction,
    d11: Instruction,
    d12: Instruction,
    d13: Instruction,
    d14: Instruction)
    requires d0.routine == crf
    requires d1.routine == cef
    requires d2.routine == lvlup
    requires d3.routine == grace
    requires d4.routine == lat
    requires d5.routine == runea
    requires d6.routine == che
    requires d7.routine == tad
    requires d8.routine == strd
    requires d9.routine == intd
    requires d10.routine == sms
    requires d11.routine == mes
    requires d12.routine == grune
    requires d13.routine == gvow
    requires d14.routine == mfla
    ensures InOrder([d0, d1, d2, d3, d4, d5, d6, d7, d8, d9, d10, d11, d12, d13, d14])
  {
  }

  /** A property of each of fifteen definitions holds of every entry of
      the list of them. */
  lemma AllHold(
    P: Instruction -> bool,
    d0: Instruction,
    d1: Instruction,
    d2: Instruction,
    d3: Instruction,
    d4: Instruction,
    d5: Instruction,
    d6: Instruction,
    d7: Instruction,
    d8: Instruction,
    d9: Instruction,
    d10: Instruction,
    d11: Instruction,
    d12: Instruction,
    d13: Instruction,
    d14: Instruction)
    requires P(d0) && P(d1) && P(d2) && P(d3) && P(d4) && P(d5) && P(d6) && P(d7)
    requires P(d8) && P(d9) && P(d10) && P(d11) && P(d12) && P(d13) && P(d14)
    ensures forall d :: d in [d0, d1, d2, d3, d4, d5, d6, d7, d8, d9, d10, d11, d12, d13, d14] ==> P(d)
  {
  }

  /** No two routines share a name. */
  lemma NameInjective(a: Routine, b: Routine)
    ensures Name(a) == Name(b) ==> a == b
  {
  }

  /** No two routines share an opcode field. */
  lemma OpcodeInjective(a: Routine, b: Routine)
    ensures OpcodeField(a) == OpcodeField(b) ==> a == b
  {
  }

  /** No two routines share a place in the list. */
  lemma PositionInjective(a: Routine, b: Routine)
    ensures Position(a) == Position(b) ==> a == b
  {
  }

  /** A list in source order holds each routine's definition at that
      routine's place, so every routine is defined in it. */
  lemma EntriesCover(ds: seq<Instruction>)
    requires InOrder(ds)
    ensures forall rt: Routine :: ds[Position(rt)].routine == rt
  {
    forall rt: Routine
      ensures ds[Position(rt)].routine == rt
    {
      PositionInjective(ds[Position(rt)].routine, rt);
    }
  }

  /** In a list in source order of definitions of their routines, no two
      instructions share a mnemonic or an opcode field. */
  lemma EntriesDistinct(ds: seq<Instruction>)
    requires InOrder(ds) && forall d :: d in ds ==> Defines(d, d.routine)
    ensures forall i, j :: 0 <= i < j < |ds| ==>
      ds[i].example.mnemonic != ds[j].example.mnemonic && ds[i].pattern.opcode != ds[j].pattern.opcode
  {
    forall i, j | 0 <= i < j < |ds|
      ensures ds[i].example.mnemonic != ds[j].example.mnemonic && ds[i].pattern.opcode != ds[j].pattern.opcode
    {
      assert Named(ds[i]) && Named(ds[j]);
      NameInjective(ds[i].routine, ds[j].routine);
      OpcodeInjective(ds[i].routine, ds[j].routine);
    }
  }

  /** The instruction list of the custom instruction set. */
  class InstructionSet {
    var instructionList: seq<Instruction>

    constructor ()
      ensures instructionList == []
    {
      instructionList := [];
    }

    /** Appends the fifteen EldenRing instructions, in source order. */
    method Populate()
      modifies this
      ensures |instructionList| == |old(instructionList)| + 15
      ensures instructionList[..|old(instructionList)|] == old(instructionList)
      ensures InOrder(instructionList[|old(instructionList)|..])
      ensures forall d :: d in instructionList[|old(instructionList)|..] ==> Defines(d, d.routine)
    {
      var crfDef := CrfInstruction();
      var cefDef := CefInstruction();
      var lvlupDef := LvlupInstruction();
      var graceDef := GraceInstruction();
      var latDef := LatInstruction();
      var runeaDef := RuneaInstruction();
      var cheDef := CheInstruction();
      var tadDef := TadInstruction();
      var strdDef := StrdInstruction();
      var intdDef := IntdInstruction();
      var smsDef := SmsInstruction();
      var mesDef := MesInstruction();
      var gruneDef := GruneInstruction();
      var gvowDef := GvowInstruction();
      var mflaDef := MflaInstruction();
      RoutinesInOrder(crfDef, cefDef, lvlupDef, graceDef, latDef, runeaDef, cheDef, tadDef, strdDef, intdDef, smsDef, mesDef, gruneDef, gvowDef, mflaDef);
      AllHold((d: Instruction) => Defines(d, d.routine), crfDef, cefDef, lvlupDef, graceDef, latDef, runeaDef, cheDef, tadDef, strdDef, intdDef, smsDef, mesDef, gruneDef, gvowDef, mflaDef);
      instructionList := instructionList + [crfDef, cefDef, lvlupDef, graceDef, latDef, runeaDef, cheDef, tadDef, strdDef, intdDef, smsDef, mesDef, gruneDef, gvowDef, mflaDef];
      assert instructionList[|old(instructionList)|..] == [crfDef, cefDef, lvlupDef, graceDef, latDef, runeaDef, cheDef, tadDef, strdDef, intdDef, smsDef, mesDef, gruneDef, gvowDef, mflaDef];
    }
  }
}

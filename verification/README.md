# EldenRing: a custom MIPS instruction set for MARS, in Dafny

EldenRing is a custom assembly language that plugs into the MARS MIPS
simulator and lets a program play a small Elden Ring-style game on the
general-purpose registers. Registers hold stats such as HP, FP, STR and INT.
The language's `populate()` adds fifteen basic instructions to MARS's
instruction list. Each instruction has an example syntax (`crf $t1`), a
description, an encoding format (I or R), a 32-position bit pattern, and a
simulate routine that reads and writes MARS's register file.

The model has five modules:

- `Int32` (`int32.dfy`) is Java `int` arithmetic:
  - values in [-2^31, 2^31);
  - two's-complement wrap-around of `+`, `-` and `* 2`;
  - `Math.max(x, 0)`;
  - division by 2 that truncates toward zero.
- `Routines` (`routines.dfy`) states each simulate routine as a pure
  function from the 32 register values before it to the values after it.
  Reads and writes happen in the Java routine's order, so aliased operands
  behave as in the simulator. The four looping routines (`lvlup`, `lat`,
  `runea`, `grune`) are a left-to-right sweep over the operand list.
  Closed forms are proved for them: a register listed k times gets old + k,
  old + 5k, old · 2^k (all wrapped to 32 bits), or 1.
- `RegisterBank` (`register_file.dfy`) holds the routines as methods of a
  `RegisterFile` class. The class updates an `array<int>` of 32 registers in
  place, one `getValue`/`updateRegister` at a time. Each method is proved to
  leave exactly the state the matching `Routines` function describes.
- `RoutineProperties` (`properties.dfy`) holds properties that relate
  several runs, aliased operands, or concrete game scenarios.
- `EldenRing` (`registry.dfy`) holds the fifteen instruction definitions,
  one method per `new BasicInstruction(...)`. It also holds the
  `InstructionSet` class, whose `Populate` appends the definitions to the
  instruction list. Lemmas relate the definitions to the strings MARS
  reads.
  - A bit pattern is kept as its space-separated groups.
  - An example syntax is kept as a mnemonic plus operands.
  - `PatternText` and `SyntaxText` rebuild the exact source strings.

Two facts about the registered set:

- `populate()` adds fifteen instructions.
- Thirteen of the fifteen patterns carry digits 2–9 in their opcode or
  function-code group (`000002`, `100003`, ...). Only the `crf` and `cef`
  patterns consist of `0`/`1` and operand letters alone. The record methods
  state which kind each pattern is.

## Model

| member | source | states |
|---|---|---|
| Int32.Add | EldenRing.java:29 | Java `int` addition: the result is an int, agrees with the exact sum modulo 2^32, and equals it when the sum fits |
| Int32.Sub | EldenRing.java:122 | Java `int` subtraction: an int congruent to the exact difference, equal to it when it fits |
| Int32.Twice | EldenRing.java:187 | Java `x * 2`: an int congruent to 2x, equal to 2x when that fits |
| Int32.FloorZero | EldenRing.java:122 | `Math.max(a, 0)`: never negative, at least `a`, and either `a` or 0 |
| Int32.TruncDiv | EldenRing.java:215 | Java `/` by a positive divisor: the remainder has the sign of the dividend and is smaller than the divisor (rounds toward zero) |
| Int32.WrapAdd | EldenRing.java:53-56 | wrapping after every addition gives the same int as wrapping the exact total once |
| Int32.WrapDouble | EldenRing.java:186-188 | wrapping after every doubling gives the same int as wrapping the exact product once |
| Routines.Crf | EldenRing.java:26-29 | crf adds 5 (mod 2^32) to operand 0 and changes no other register |
| Routines.Cef | EldenRing.java:39-42 | cef adds 5 (mod 2^32) to operand 0 and changes no other register |
| Routines.Sms | EldenRing.java:161-163 | sms adds 2 (mod 2^32) to operand 0 and changes no other register |
| Routines.Mes | EldenRing.java:173-175 | mes adds 2 (mod 2^32) to operand 0 and changes no other register |
| Routines.Gvow | EldenRing.java:198-200 | gvow doubles (mod 2^32) operand 0 and changes no other register |
| Routines.Grace | EldenRing.java:66-70 | grace writes only its two operands; with distinct operands each gains 10 (mod 2^32) |
| Routines.Che | EldenRing.java:107-109 | che writes only its two operands, both end in [1, 100], and the second draw wins when they coincide |
| Routines.Tad | EldenRing.java:119-122 | tad writes only HP (operand 0), never leaves it negative, and without overflow leaves max(HP − STR, 0) |
| Routines.Strd | EldenRing.java:132-135 | strd writes only enemy HP (operand 1), never negative, and without overflow leaves max(enemy HP − STR, 0) |
| Routines.Intd | EldenRing.java:145-151 | intd writes only enemy HP and register 10; both end non-negative; with enemy HP not register 10, and no overflow, they are max(HP − INT, 0) and max(FP − 2, 0) |
| Routines.Mfla | EldenRing.java:210-217 | mfla writes only its three operands; with distinct operands HP is halved toward zero and STR and INT double (mod 2^32) |
| Routines.Lvlup | EldenRing.java:52-56 | lvlup changes only listed registers; each register ends at its old value plus the number of times it is listed, wrapped to 32 bits |
| Routines.Runea | EldenRing.java:93-97 | runea changes only listed registers; each ends at old + 5 × times listed, wrapped to 32 bits |
| Routines.Grune | EldenRing.java:185-188 | grune changes only listed registers; each ends at old × 2^(times listed), wrapped to 32 bits |
| Routines.Lat | EldenRing.java:80-83 | lat sets every listed register to 1 and leaves every other register unchanged |
| Routines.Sweep | EldenRing.java:53-56 | the as-written `for (int reg : operands)` read-then-write pass (also lines 81-83, 94-97, 186-188), one step per listed operand in list order; the result is again 32 Java ints |
| Routines.SweepCount | EldenRing.java:53-56 | one pass over the operand list applies the update to each register as many times as it is listed |
| Routines.IterateAdd | EldenRing.java:53-56 | adding k, n times, in Java ints equals the wrapped value of v + k·n |
| Routines.IterateTwice | EldenRing.java:186-188 | doubling n times in Java ints equals the wrapped value of v·2^n |
| Routines.SweepAdds | EldenRing.java:94-97 | a pass that adds k per listing leaves unlisted registers alone and gives old + k·count (wrapped) |
| Routines.SweepDoubles | EldenRing.java:186-188 | a doubling pass leaves unlisted registers alone and gives old·2^count (wrapped) |
| Routines.SweepSets | EldenRing.java:81-83 | a set-to-1 pass gives 1 on listed registers and the old value elsewhere |
| Routines.Effect | EldenRing.java:24-25 | the simulate routine bound to each instruction, applied to the register values; the result is again 32 Java ints |
| RoutineProperties.OnlyOperandsChange | EldenRing.java:18-219 | every routine except intd changes only the registers among the operands it reads; intd may also change register 10 |
| RoutineProperties.DamageFloorsAtZero | EldenRing.java:119-151 | tad, strd and intd never leave their targets (or FP) negative, and give exactly 0 when the subtrahend is at least the minuend without overflow |
| RoutineProperties.TadOverflowWraps | EldenRing.java:120-122 | HP at the least int minus STR 1 wraps to the greatest int; the floor does not catch it |
| RoutineProperties.IntdRereadsFp | EldenRing.java:146-151 | when enemy HP is register 10 and nothing overflows, FP ends at max(max(FP − INT, 0) − 2, 0): the charge applies to the already damaged value (8, 4 give 2) |
| RoutineProperties.DamageWrapsThenFloors | EldenRing.java:120-148 | tad, strd and intd (enemy HP not register 10) leave max(w, 0) for the int w holding the low 32 bits of the exact difference, overflow included |
| RoutineProperties.LatIdempotent | EldenRing.java:80-83 | running lat twice on the same operands equals running it once |
| RoutineProperties.RepeatedOperands | EldenRing.java:52-97 | a register listed k times gains k (lvlup), 5k (runea) or a factor 2^k (grune), exactly, when the result fits in an int |
| RoutineProperties.GraceSameRegister | EldenRing.java:66-70 | grace with one register as both operands adds 20 (mod 2^32) |
| RoutineProperties.GvowTwice | EldenRing.java:198-200 | gvow twice multiplies by 4 (mod 2^32); HP 3 becomes 12 |
| RoutineProperties.MflaTruncates | EldenRing.java:210-217 | with distinct operands, mfla takes HP 7 to 3 and −7 to −3, and doubles STR and INT exactly when they fit |
| RoutineProperties.CrfScenario | EldenRing.java:26-29 | HP 20 becomes 25 after crf |
| RoutineProperties.TadScenario | EldenRing.java:119-122 | HP 100 with enemy STR 30 becomes 70; a later enemy STR of 80 brings it to 0 |
| RoutineProperties.IntdScenario | EldenRing.java:145-151 | STR 4, INT 6, FP 8, enemy HP 50: after intd enemy HP is 44 and FP 6; STR and INT unchanged |
| RoutineProperties.LvlupLatScenario | EldenRing.java:52-83 | four distinct registers 1, 2, 3, 4 become 2, 3, 4, 5 after lvlup, and all 1 after lat |
| RegisterBank.RegisterFile.Crf | EldenRing.java:26-29 | the in-place crf leaves the register array equal to `Routines.Crf` of its old contents |
| RegisterBank.RegisterFile.Cef | EldenRing.java:39-42 | the in-place cef equals `Routines.Cef` of the old contents |
| RegisterBank.RegisterFile.Lvlup | EldenRing.java:52-56 | the for-each loop over the operands equals `Routines.Lvlup` of the old contents |
| RegisterBank.RegisterFile.Grace | EldenRing.java:66-70 | the in-place grace equals `Routines.Grace` of the old contents |
| RegisterBank.RegisterFile.Lat | EldenRing.java:80-83 | the loop equals `Routines.Lat` of the old contents |
| RegisterBank.RegisterFile.Runea | EldenRing.java:93-97 | the loop equals `Routines.Runea` of the old contents |
| RegisterBank.RegisterFile.Che | EldenRing.java:107-109 | with both draws in [1, 100], the in-place che equals `Routines.Che` of the old contents |
| RegisterBank.RegisterFile.Tad | EldenRing.java:119-122 | the in-place tad equals `Routines.Tad` of the old contents |
| RegisterBank.RegisterFile.Strd | EldenRing.java:132-135 | the in-place strd equals `Routines.Strd` of the old contents |
| RegisterBank.RegisterFile.Intd | EldenRing.java:145-151 | the in-place intd, re-reading register 10, equals `Routines.Intd` of the old contents |
| RegisterBank.RegisterFile.Sms | EldenRing.java:161-163 | the in-place sms equals `Routines.Sms` of the old contents |
| RegisterBank.RegisterFile.Mes | EldenRing.java:173-175 | the in-place mes equals `Routines.Mes` of the old contents |
| RegisterBank.RegisterFile.Grune | EldenRing.java:185-188 | the loop equals `Routines.Grune` of the old contents |
| RegisterBank.RegisterFile.Gvow | EldenRing.java:198-200 | the in-place gvow equals `Routines.Gvow` of the old contents |
| RegisterBank.RegisterFile.Mfla | EldenRing.java:210-217 | the three in-place writes equal `Routines.Mfla` of the old contents |
| RegisterBank.RegisterFile.Simulate | EldenRing.java:24-25 | running the simulate routine bound to an instruction leaves the registers at `Routines.Effect` of the old contents |
| EldenRing.Mnemonic | EldenRing.java:20 | the mnemonic read off an example string is a space-free prefix of it, ending at the first space |
| EldenRing.MnemonicOfSyntax | EldenRing.java:46 | the mnemonic read off a rebuilt example syntax string is the syntax's own mnemonic |
| EldenRing.PatternPositions | EldenRing.java:36 | a pattern with its format's 6-5-5-5-5-6 (R) or 6-5-5-16 (I) layout spells a string of 32 positions |
| EldenRing.WellFormedText | EldenRing.java:19-23 | a well-formed definition's example string names its routine, and its pattern string has 32 positions |
| EldenRing.CrfInstruction | EldenRing.java:20-23 | the crf definition: mnemonic `crf`, opcode `001000`, I-format, one operand, well formed, pattern all 0/1 |
| EldenRing.CefInstruction | EldenRing.java:33-36 | the cef definition: opcode `000001`, R-format, one operand, well formed, pattern all 0/1 |
| EldenRing.LvlupInstruction | EldenRing.java:46-49 | the lvlup definition: opcode `000002`, R-format, four operands, well formed, a non-binary digit |
| EldenRing.GraceInstruction | EldenRing.java:60-63 | the grace definition: opcode `000003`, R-format, two operands, well formed, a non-binary digit |
| EldenRing.LatInstruction | EldenRing.java:74-77 | the lat definition: opcode `000004`, R-format, four operands, well formed, a non-binary digit |
| EldenRing.RuneaInstruction | EldenRing.java:87-90 | the runea definition: opcode `000005`, R-format, four operands, well formed, a non-binary digit |
| EldenRing.CheInstruction | EldenRing.java:101-104 | the che definition: opcode `000006`, R-format, two operands, well formed, a non-binary digit |
| EldenRing.TadInstruction | EldenRing.java:113-116 | the tad definition: opcode `000007`, R-format, two operands, well formed, a non-binary digit |
| EldenRing.StrdInstruction | EldenRing.java:126-129 | the strd definition: opcode `000008`, R-format, two operands, well formed, a non-binary digit |
| EldenRing.IntdInstruction | EldenRing.java:139-142 | the intd definition: opcode `000009`, R-format, two operands, well formed, a non-binary digit |
| EldenRing.SmsInstruction | EldenRing.java:155-158 | the sms definition: opcode `000010`, R-format, one operand, well formed, a non-binary digit |
| EldenRing.MesInstruction | EldenRing.java:167-170 | the mes definition: opcode `000011`, R-format, one operand, well formed, a non-binary digit |
| EldenRing.GruneInstruction | EldenRing.java:179-182 | the grune definition: opcode `000012`, R-format, four operands, well formed, a non-binary digit |
| EldenRing.GvowInstruction | EldenRing.java:192-195 | the gvow definition: opcode `000013`, R-format, one operand, well formed, a non-binary digit |
| EldenRing.MflaInstruction | EldenRing.java:204-207 | the mfla definition: opcode `000014`, R-format, three operands, well formed, a non-binary digit |
| EldenRing.Position | EldenRing.java:18-219 | each routine's place in the instruction list is below 15 |
| EldenRing.RoutinesInOrder | EldenRing.java:18-219 | fifteen definitions of crf, cef, lvlup, …, mfla listed in that order are in source order |
| EldenRing.AllHold | EldenRing.java:18-219 | a property of each of the fifteen definitions holds of every entry of their list |
| EldenRing.NameInjective | EldenRing.java:18-219 | no two routines share a mnemonic |
| EldenRing.OpcodeInjective | EldenRing.java:18-219 | no two routines share an opcode field |
| EldenRing.PositionInjective | EldenRing.java:18-219 | no two routines share a place in the list |
| EldenRing.EntriesCover | EldenRing.java:18-219 | a list in source order holds every routine's definition at that routine's place |
| EldenRing.EntriesDistinct | EldenRing.java:18-219 | in a list in source order of definitions, no two entries share a mnemonic or an opcode field |
| EldenRing.InstructionSet.constructor | EldenRing.java:7 | a new instruction set starts with an empty instruction list |
| EldenRing.InstructionSet.Populate | EldenRing.java:18-219 | populate keeps the earlier list and appends exactly fifteen entries, in source order, each a well-formed definition of its routine |

## Left out

- MARS's register file internals are not part of this model. This covers
  register 0's hard-wired zero, the hi/lo registers, and the program
  counter. The model is a plain array of 32 ints, which `getValue` and
  `updateRegister` read and write.
- The host's decoding of a source line into `statement.getOperands()` is
  not part of this model, nor is the matching of operands against the
  bit-pattern fields. The routines take the operand list as given. So
  `lvlup`, `lat`, `runea` and `grune` are modelled for an operand list of
  any length, although their example syntax names four registers and their
  pattern has only three operand fields (f, s, t).
- `Math.random()` is not modelled as a floating-point draw. Each of `che`'s
  two draws `(int) (Math.random() * 100) + 1` is a parameter known to lie
  in [1, 100].
- `getName()` and `getDescription()` (lines 9-15) return constant strings
  with no behaviour to prove.
- `ProcessingException` is never thrown by these routines: no operand is
  out of range once the host has decoded it. Operand registers are required
  to be valid indices.
- EldenRing.InstructionSet.Populate: the fifteen definitions are created in
  source order and appended as one block. The source calls
  `instructionList.add` fifteen times. The final list is the same, but the
  intermediate lists are not stated.
- EldenRing.InstructionSet.Populate: whether each pattern is binary is
  stated by the fifteen record methods (crf and cef binary, the rest not),
  not repeated in Populate's postcondition.
- Pattern and example strings are kept as their groups and their
  mnemonic/operand parts. `PatternText` and `SyntaxText` give back the
  exact strings of the source, and `WellFormedText` connects the two
  views.
- Routines.Grace, Routines.Mfla: the exact per-register postconditions are
  stated for distinct operands. Aliased operands are covered by
  `GraceSameRegister` and by the functions themselves, which follow the
  Java read/write order.
- Routines.Intd: the exact damage/charge postconditions of the function
  itself are stated for an enemy-HP register other than register 10. The
  aliased case, where enemy HP is register 10, is stated in full by
  `IntdRereadsFp` for every input whose difference fits in an int.

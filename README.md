# CHIP-8 instruction front-end and CPU, in Dafny

This project models the core of chocolatechip8, a CHIP-8 interpreter written twice: once in
TypeScript and once in Kotlin. The model covers four parts.

- **Bit-field readers.** `OpcodeReader` in TypeScript and `OpcodeParser` in Kotlin take a
  16-bit instruction word apart into its class (top nibble), X, Y, N, NN and NNN.
- **Two decoders.** Each maps a word to a closed set of instruction variants or throws. They
  dispatch on the class, then on NN or N for the overloaded classes 0x0, 0x8, 0xE and 0xF.
- **The Kotlin `Cpu`.** It holds 4096 memory cells, 16 registers, the index register, the
  program counter, two timers and a 16-slot stack with its pointer. It has a big-endian fetch
  and one `executeOpcode` handler per variant it supports (00EE, 1NNN, 2NNN, 3XNN, 4XNN,
  5XY0, 6XNN, 7XNN and 8XY0-8XY6).
- **The earlier TypeScript `Cpu`.** It has a pure fetch, a `decodeOpcode` that carries out
  ANNN and 2NNN only, and two timer ticks that stop at zero.

How the source maps to Dafny:

- Bitwise operators (`and`, `or`, `xor`, `shr`, `shl`, and `&`, `|`, `<<`, `>>`) are
  defined in `Bits` on unbounded integers read as infinite two's complement.
- Thrown exceptions become `Err(message)` of `Outcome.Result`.
- The rendering of the offending word in those messages is in `Numerals`: decimal for
  Kotlin, `toString(16)` for TypeScript. It is proved to be readable back.
- The Kotlin `Cpu` is a class over three `array<int>`s (`KtCpu.Cpu`). Each handler is a
  method named after its variant. Each method is proved to perform `KtMachine.Execute` on
  the CPU's state as a value. What the transitions amount to is proved about `Execute`.
- The TypeScript `Cpu` is a class (`TsCpu.Cpu`) whose `DecodeOpcode` performs
  `TsCpu.Decoded`. Its fetch and timer methods read no field, so they are functions.

## Model

| member | source | states |
|---|---|---|
| OpcodeReader.ParseOpcodeFirstMask | src/opcodeReader.ts:2-6 | the class is a multiple of 0x1000 in [0, 0xF000], for every integer |
| OpcodeReader.ParseOpcodeVX | src/opcodeReader.ts:8-12 | X is in [0, 15] for every integer |
| OpcodeReader.ParseOpcodeVY | src/opcodeReader.ts:14-18 | Y is in [0, 15] for every integer |
| OpcodeReader.ParseOpcodeN | src/opcodeReader.ts:20-24 | N is in [0, 15] for every integer |
| OpcodeReader.ParseOpcodeNN | src/opcodeReader.ts:26-30 | NN is in [0, 255] for every integer |
| OpcodeReader.ParseOpcodeNNN | src/opcodeReader.ts:32-36 | NNN is in [0, 4095] for every integer |
| OpcodeReader.MatchesMasks | src/opcodeReader.ts:2-36 | each extractor equals the source's `&`/`>>` expression on the word's two's-complement bits, for every integer |
| OpcodeReader.FieldConsistency | src/opcodeReader.ts:14-36 | NN = Y*16 + N and NNN = X*256 + NN, for every integer |
| OpcodeReader.Recomposition | src/opcodeReader.ts:2-24 | a 16-bit word equals class + X*256 + Y*16 + N |
| OpcodeReader.ReaderExamples | src/__test__/opcodeReader.test.ts:6-64 | the field values the reader's tests expect |
| OpcodeParser.ParseOpcodeFirstMask | components/cpu/src/main/kotlin/com/walterscarborough/chocolatechip8/OpcodeParser.kt:4-8 | the class is a multiple of 0x1000 in [0, 0xF000] |
| OpcodeParser.ParseOpcodeVX | components/cpu/src/main/kotlin/com/walterscarborough/chocolatechip8/OpcodeParser.kt:10-14 | X is in [0, 15] |
| OpcodeParser.ParseOpcodeVY | components/cpu/src/main/kotlin/com/walterscarborough/chocolatechip8/OpcodeParser.kt:16-20 | Y is in [0, 15] |
| OpcodeParser.ParseOpcodeN | components/cpu/src/main/kotlin/com/walterscarborough/chocolatechip8/OpcodeParser.kt:22-26 | N is in [0, 15] |
| OpcodeParser.ParseOpcodeNN | components/cpu/src/main/kotlin/com/walterscarborough/chocolatechip8/OpcodeParser.kt:28-32 | NN is in [0, 255] |
| OpcodeParser.ParseOpcodeNNN | components/cpu/src/main/kotlin/com/walterscarborough/chocolatechip8/OpcodeParser.kt:34-38 | NNN is in [0, 4095] |
| OpcodeParser.MatchesMasks | components/cpu/src/main/kotlin/com/walterscarborough/chocolatechip8/OpcodeParser.kt:4-38 | each extractor equals the source's `and`/`shr` expression, for every integer |
| OpcodeParser.AgreesWithReader | components/cpu/src/main/kotlin/com/walterscarborough/chocolatechip8/OpcodeParser.kt:4-38 | each Kotlin extractor agrees with its TypeScript twin on every integer |
| OpcodeParser.FieldConsistency | components/cpu/src/main/kotlin/com/walterscarborough/chocolatechip8/OpcodeParser.kt:16-38 | NN = Y*16 + N and NNN = X*256 + NN |
| OpcodeParser.Recomposition | components/cpu/src/main/kotlin/com/walterscarborough/chocolatechip8/OpcodeParser.kt:4-26 | a 16-bit word equals class + X*256 + Y*16 + N |
| OpcodeParser.ParserExamples | components/interpreter/src/test/kotlin/com/walterscarborough/chocolatechip8/interpreter/OpcodeParserTest.kt:12-64 | the field values the parser's tests expect |
| TsOpcodeDecoder.DecodeOpcode | src/opcodeDecoder.ts:6-187 | a rejection carries the message naming the word in hexadecimal, and happens only in classes 0x0, 0x8, 0xE and 0xF |
| TsOpcodeDecoder.ErrorMessage | src/opcodeDecoder.ts:22-24 | the message starts `opcode "` and ends `" not implemented!`, with a `-` right after the quote exactly when the word is negative |
| TsOpcodeDecoder.MessageNamesOpcode | src/opcodeDecoder.ts:22-24 | the word can be read back out of the error message |
| TsOpcodeDecoder.ClassesCoverEveryWord | src/opcodeDecoder.ts:9-185 | every integer's class is one of the sixteen cases, so the outer default is dead |
| TsOpcodeDecoder.PlainClassesIgnoreLowBits | src/opcodeDecoder.ts:28-54 | outside classes 0x0, 0x8, 0xE and 0xF decoding succeeds and depends on the class alone |
| TsOpcodeDecoder.SystemClass | src/opcodeDecoder.ts:11-26 | in class 0x0: return from subroutine iff NN = 0xEE, clear display iff NN = 0xE0, error otherwise; X is ignored |
| TsOpcodeDecoder.ArithmeticClass | src/opcodeDecoder.ts:56-99 | in class 0x8, success iff N is in {0..7, 0xE} |
| TsOpcodeDecoder.KeyClass | src/opcodeDecoder.ts:121-136 | in class 0xE, success iff NN is 0x9E or 0xA1 |
| TsOpcodeDecoder.MiscClass | src/opcodeDecoder.ts:138-181 | in class 0xF, success iff NN is one of the nine handled values, 0x29 included |
| TsOpcodeDecoder.DecoderExamples | src/__test__/opcodeDecoder.test.ts:92-204 | 0x8015, 0xF00A and 0xFF65 decode as the tests expect |
| TsOpcodeDecoder.SystemClassExamples | src/opcodeDecoder.ts:11-26 | 0x0FEE returns from a subroutine, its X nibble ignored; 0x00EF throws with its message |
| KtOpcodeDecoder.Decode | components/cpu/src/main/kotlin/com/walterscarborough/chocolatechip8/OpcodeDecoder.kt:7-64 | a success carries the decoded word; a failure carries the message naming it in decimal |
| KtOpcodeDecoder.ErrorMessage | components/cpu/src/main/kotlin/com/walterscarborough/chocolatechip8/OpcodeDecoder.kt:66-68 | the message starts `opcode ` and ends ` not implemented`, with a `-` right after the prefix exactly when the word is negative |
| KtOpcodeDecoder.MessageNamesOpcode | components/cpu/src/main/kotlin/com/walterscarborough/chocolatechip8/OpcodeDecoder.kt:66-68 | the word can be read back out of the exception message |
| KtOpcodeDecoder.SystemClass | components/cpu/src/main/kotlin/com/walterscarborough/chocolatechip8/OpcodeDecoder.kt:14-17 | in class 0x0, success iff NN = 0xEE |
| KtOpcodeDecoder.ArithmeticClass | components/cpu/src/main/kotlin/com/walterscarborough/chocolatechip8/OpcodeDecoder.kt:27-37 | in class 0x8, success iff N <= 7 |
| KtOpcodeDecoder.NoSkipIfVxNotEqualVy | components/cpu/src/main/kotlin/com/walterscarborough/chocolatechip8/OpcodeDecoder.kt:62 | every word of class 0x9 throws |
| KtOpcodeDecoder.KeyClass | components/cpu/src/main/kotlin/com/walterscarborough/chocolatechip8/OpcodeDecoder.kt:44-48 | in class 0xE, success iff NN is 0x9E or 0xA1 |
| KtOpcodeDecoder.MiscClass | components/cpu/src/main/kotlin/com/walterscarborough/chocolatechip8/OpcodeDecoder.kt:50-60 | in class 0xF, success iff NN is one of eight values (not 0x29) |
| KtOpcodeDecoder.PlainClassesIgnoreLowBits | components/cpu/src/main/kotlin/com/walterscarborough/chocolatechip8/OpcodeDecoder.kt:19-42 | classes 0x1-0x7 and 0xA-0xD always decode, to a variant fixed by the class |
| KtOpcodeDecoder.DecoderExamples | components/cpu/src/test/kotlin/com/walterscarborough/chocolatechip8/OpcodeDecoderTest.kt:27-228 | 0x00EE, 0x8234, 0x8006 and 0xF00A decode to the variants the tests build |
| KtOpcodeDecoder.RejectedSystemExamples | components/cpu/src/test/kotlin/com/walterscarborough/chocolatechip8/OpcodeDecoderTest.kt:288-314 | 0x00EF, 0x0008, 0x00A2 and 0x0066 throw |
| KtOpcodeDecoder.ClearDisplayRejected | components/cpu/src/main/kotlin/com/walterscarborough/chocolatechip8/OpcodeDecoder.kt:14-17 | 0x00E0 (clear the display) throws with its decimal message, since class 0 accepts only NN = EE |
| KtOpcodeDecoder.RejectedOtherExamples | components/cpu/src/test/kotlin/com/walterscarborough/chocolatechip8/OpcodeDecoderTest.kt:316-320 | 0x9000 throws with its message |
| KtOpcodeDecoder.TsOnlyExamples | components/cpu/src/main/kotlin/com/walterscarborough/chocolatechip8/OpcodeDecoder.kt:27-60 | 0x801E and 0xF029, which the TypeScript decoder accepts, throw |
| Numerals.Decimal | components/cpu/src/main/kotlin/com/walterscarborough/chocolatechip8/OpcodeDecoder.kt:67 | the rendering of `"$opcode"` is non-empty and starts with `-` exactly for a negative word |
| Numerals.Hex | src/opcodeDecoder.ts:23 | the rendering of `opcode.toString(16)` is non-empty and starts with `-` exactly for a negative word |
| Numerals.RenderingsReadBack | components/cpu/src/main/kotlin/com/walterscarborough/chocolatechip8/OpcodeDecoder.kt:67 | reading back the decimal or hexadecimal rendering of any integer gives that integer |
| DecoderCorrespondence.KotlinAcceptedImpliesTs | components/cpu/src/main/kotlin/com/walterscarborough/chocolatechip8/OpcodeDecoder.kt:7-64 | every word the Kotlin decoder accepts, the TypeScript one accepts as the same-named variant |
| DecoderCorrespondence.TsAcceptsExactlyMore | src/opcodeDecoder.ts:9-185 | the TypeScript decoder accepts a word the Kotlin one rejects iff it is 0XE0, 8XYE, 9XYN or FX29 |
| KtMachine.Execute | components/cpu/src/main/kotlin/com/walterscarborough/chocolatechip8/Cpu.kt:54-189 | no handler touches memory, I or the timers or resizes an array; only 2NNN writes the stack |
| KtMachine.Initial | components/cpu/src/main/kotlin/com/walterscarborough/chocolatechip8/Cpu.kt:5-23 | the defaults: 4096 zero cells, 16 zero registers, 16 zero slots, pc 0x200, everything else 0 |
| KtMachine.FetchOpcode | components/cpu/src/main/kotlin/com/walterscarborough/chocolatechip8/Cpu.kt:42-52 | the cell at pc shifted left by eight and or-ed with the cell after it; KtMachine.FetchIsBigEndian gives its value |
| KtMachine.FetchIsBigEndian | components/cpu/src/main/kotlin/com/walterscarborough/chocolatechip8/Cpu.kt:42-52 | when the second cell is a byte, the fetch (`high shl 8 or low`) is the big-endian word the two cells spell |
| KtMachine.FetchExample | components/cpu/src/test/kotlin/com/walterscarborough/chocolatechip8/CpuTest.kt:99-110 | [0xA0, 0xA1, 0xA2, 0xF0] at pc 2 fetches 0xA2F0 |
| KtMachine.CallThenReturn | components/cpu/src/main/kotlin/com/walterscarborough/chocolatechip8/Cpu.kt:54-68 | a call at pointer s then a return restores the pointer but jumps to slot s+1, not to the saved pc |
| KtMachine.ReturnTarget | components/cpu/src/main/kotlin/com/walterscarborough/chocolatechip8/Cpu.kt:54-57 | from any state with the pointer on a slot, 00EE sets pc to that slot and lowers the pointer by one; registers, stack, memory, I and timers are unchanged |
| KtMachine.ReturnExample | src/__test__/cpu.test.ts:149-161 | slots [1, 2, 3, 4] and pointer 2 return to pc 3 with pointer 1 |
| KtMachine.JumpTargets | components/cpu/src/main/kotlin/com/walterscarborough/chocolatechip8/Cpu.kt:59-68 | as whole-state equalities: 1NNN sets pc to NNN and changes nothing else; 2NNN also saves pc in the slot at the pointer and moves the pointer up; neither touches a register; pc lands in [0, 0xFFF] |
| KtMachine.SkipsAreComplementary | components/cpu/src/main/kotlin/com/walterscarborough/chocolatechip8/Cpu.kt:70-91 | for the same X and NN exactly one of 3XNN and 4XNN skips; each changes only pc |
| KtMachine.SkipIfRegistersEqual | components/cpu/src/main/kotlin/com/walterscarborough/chocolatechip8/Cpu.kt:93-102 | 5XY0 skips iff VX = VY, agrees with 5YX0, always skips for X = Y, changes only pc |
| KtMachine.RegisterOnlyOps | components/cpu/src/main/kotlin/com/walterscarborough/chocolatechip8/Cpu.kt:104-150 | 6XNN, 7XNN and 8XY0-8XY3 change VX and pc (+2) and nothing else |
| KtMachine.LoadAndAddImmediate | components/cpu/src/main/kotlin/com/walterscarborough/chocolatechip8/Cpu.kt:104-118 | 6XNN sets VX to NN, the word's low byte; 7XNN adds NN to VX without wrapping, so VX can exceed 0xFF |
| KtMachine.CopyRegister | components/cpu/src/main/kotlin/com/walterscarborough/chocolatechip8/Cpu.kt:120-126 | 8XY0 sets VX to VY, leaving the two equal, and keeps every other register |
| KtMachine.BitwiseStaysInByte | components/cpu/src/main/kotlin/com/walterscarborough/chocolatechip8/Cpu.kt:128-150 | or, and, xor of two bytes is a byte |
| KtMachine.BitwiseWithItself | components/cpu/src/main/kotlin/com/walterscarborough/chocolatechip8/Cpu.kt:128-150 | with X = Y, or and and leave the registers alone and xor clears VX |
| KtMachine.AddWithCarryFlag | components/cpu/src/main/kotlin/com/walterscarborough/chocolatechip8/Cpu.kt:152-165 | for X, Y other than F, as a whole-state equality: VX becomes the unwrapped sum, VF is 1 iff it exceeds 0xFF, pc advances by two, nothing else changes |
| KtMachine.AddWithCarryReadsNewFlag | components/cpu/src/main/kotlin/com/walterscarborough/chocolatechip8/Cpu.kt:152-165 | for X or Y equal to F, the sum reads the flag just written; only VX and VF change and pc advances by two |
| KtMachine.AddWithCarryExamples | src/__test__/cpu.test.ts:322-348 | 6 + 6 gives 12 with VF 0; 256 + 6 gives 262 with VF 1 |
| KtMachine.SubtractBorrowFlag | components/cpu/src/main/kotlin/com/walterscarborough/chocolatechip8/Cpu.kt:167-180 | for X, Y other than F: VX becomes VX - VY and VF is 1 iff that is negative; pc advances by two; other registers, the stack and its pointer keep their values |
| KtMachine.SubtractReadsNewFlag | components/cpu/src/main/kotlin/com/walterscarborough/chocolatechip8/Cpu.kt:167-180 | for X or Y equal to F, the difference reads the borrow flag just written; only VX and VF change and pc advances by two |
| KtMachine.SubtractExamples | src/__test__/cpu.test.ts:350-376 | 1 - 6 gives -5 with VF 1; 6 - 1 gives 5 with VF 0 |
| KtMachine.ShiftRightSplitsLowBit | components/cpu/src/main/kotlin/com/walterscarborough/chocolatechip8/Cpu.kt:182-189 | for X other than F, 2*VX' + VF' = VX with VF' a bit; for X = F, VF ends at 0; Y is ignored; pc advances by two and nothing else changes |
| KtCpu.Cpu.constructor | components/cpu/src/main/kotlin/com/walterscarborough/chocolatechip8/Cpu.kt:5-23 | the default-argument CPU is in the initial state, with fresh arrays |
| KtCpu.Cpu.Init | components/cpu/src/main/kotlin/com/walterscarborough/chocolatechip8/Cpu.kt:5-23 | the CPU keeps the caller's arrays and values |
| KtCpu.Cpu.FetchOpcode | components/cpu/src/main/kotlin/com/walterscarborough/chocolatechip8/Cpu.kt:42-52 | returns the fetch of the current state, big-endian when the second cell is a byte, and changes nothing |
| KtCpu.Cpu.ExecuteReturnFromSubroutine | components/cpu/src/main/kotlin/com/walterscarborough/chocolatechip8/Cpu.kt:54-57 | the new state is Execute of the old one; the three arrays are the same objects |
| KtCpu.Cpu.ExecuteJumpToAddress | components/cpu/src/main/kotlin/com/walterscarborough/chocolatechip8/Cpu.kt:59-62 | the new state is Execute of the old one; the three arrays are the same objects |
| KtCpu.Cpu.ExecuteJumpToSubroutine | components/cpu/src/main/kotlin/com/walterscarborough/chocolatechip8/Cpu.kt:64-68 | the new state is Execute of the old one; the stack is written in place: the three arrays are the same objects as before |
| KtCpu.Cpu.ExecuteSkipIfVxEqualsNn | components/cpu/src/main/kotlin/com/walterscarborough/chocolatechip8/Cpu.kt:70-79 | the new state is Execute of the old one; the three arrays are the same objects |
| KtCpu.Cpu.ExecuteSkipIfVxDoesNotEqualNn | components/cpu/src/main/kotlin/com/walterscarborough/chocolatechip8/Cpu.kt:81-91 | the new state is Execute of the old one; the three arrays are the same objects |
| KtCpu.Cpu.ExecuteSkipIfVxEqualsVy | components/cpu/src/main/kotlin/com/walterscarborough/chocolatechip8/Cpu.kt:93-102 | the new state is Execute of the old one; the three arrays are the same objects |
| KtCpu.Cpu.ExecuteSetVxToNn | components/cpu/src/main/kotlin/com/walterscarborough/chocolatechip8/Cpu.kt:104-110 | the new state is Execute of the old one; the registers are written in place: the three arrays are the same objects as before |
| KtCpu.Cpu.ExecuteAddNnToVx | components/cpu/src/main/kotlin/com/walterscarborough/chocolatechip8/Cpu.kt:112-118 | the new state is Execute of the old one; the registers are written in place: the three arrays are the same objects as before |
| KtCpu.Cpu.ExecuteSetVxToVy | components/cpu/src/main/kotlin/com/walterscarborough/chocolatechip8/Cpu.kt:120-126 | the new state is Execute of the old one; the registers are written in place: the three arrays are the same objects as before |
| KtCpu.Cpu.ExecuteSetVxToBitwiseOrVy | components/cpu/src/main/kotlin/com/walterscarborough/chocolatechip8/Cpu.kt:128-134 | the new state is Execute of the old one; the registers are written in place: the three arrays are the same objects as before |
| KtCpu.Cpu.ExecuteSetVxToBitwiseAndVy | components/cpu/src/main/kotlin/com/walterscarborough/chocolatechip8/Cpu.kt:136-142 | the new state is Execute of the old one; the registers are written in place: the three arrays are the same objects as before |
| KtCpu.Cpu.ExecuteSetVxToBitwiseXOrVy | components/cpu/src/main/kotlin/com/walterscarborough/chocolatechip8/Cpu.kt:144-150 | the new state is Execute of the old one; the registers are written in place: the three arrays are the same objects as before |
| KtCpu.Cpu.ExecuteAddWithCarry | components/cpu/src/main/kotlin/com/walterscarborough/chocolatechip8/Cpu.kt:152-165 | the new state is Execute of the old one, the flag written before the sum, in the same three arrays |
| KtCpu.Cpu.ExecuteSubtractVyFromVxWithCarry | components/cpu/src/main/kotlin/com/walterscarborough/chocolatechip8/Cpu.kt:167-180 | the new state is Execute of the old one, the flag written before the difference, in the same three arrays |
| KtCpu.Cpu.ExecuteShiftVxRight | components/cpu/src/main/kotlin/com/walterscarborough/chocolatechip8/Cpu.kt:182-189 | the new state is Execute of the old one, the flag written before the shift, in the same three arrays |
| TsCpu.FetchOpcode | src/cpu.ts:26-37 | the cell at pc shifted left by eight and or-ed with the cell after it, a missing cell reading as 0 through `Cell`; TsCpu.FetchIsBigEndian gives its value |
| TsCpu.FetchIsBigEndian | src/cpu.ts:26-37 | when the second cell is a byte, the fetch (`a << 8` or-ed with `b`) is the big-endian word of the two cells, missing cells reading as 0 |
| TsCpu.FetchAtEnd | src/cpu.ts:26-37 | at the last cell the low byte reads as 0; one past the end the word is 0 |
| TsCpu.FetchExample | test/cpuTest.ts:60-72 | [0xA0, 0xA1, 0xA2, 0xF0] at pc 2 fetches 0xA2F0 |
| TsCpu.FetchAgreesWithKotlin | src/cpu.ts:26-37 | wherever the Kotlin fetch can read both cells, the two fetches agree |
| TsCpu.GetUpdatedDelayTimer | src/cpu.ts:67-73 | a tick lowers the timer by at most one, keeps it iff it is not positive, and never takes a non-negative timer below 0 |
| TsCpu.GetUpdatedSoundTimer | src/cpu.ts:75-86 | the sound timer ticks exactly like the delay timer |
| TsCpu.TicksSaturate | src/cpu.ts:67-73 | n ticks of a timer t >= 0 give max(t - n, 0) |
| TsCpu.ZeroIsFixpoint | src/cpu.ts:67-86 | 0 stays 0 under one tick of either timer and under any number of ticks |
| TsCpu.TimerExamples | test/cpuTest.ts:92-107 | 10 ticks to 9 on both timers |
| TsCpu.Decoded | src/cpu.ts:39-65 | decoding never touches memory, registers, the timers or the current opcode |
| TsCpu.LoadIndexRegister | src/cpu.ts:45-50 | ANNN sets I to NNN and pc to pc + 2 and changes nothing else |
| TsCpu.CallSubroutine | src/cpu.ts:52-57 | 2NNN saves pc at the pointer, adds that index to the stack, keeps other slots, moves the pointer up and jumps to NNN |
| TsCpu.OtherClassesIgnored | src/cpu.ts:59-63 | every other class leaves every field unchanged, pc included |
| TsCpu.CallAgreesWithKotlin | src/cpu.ts:52-57 | the TypeScript 2NNN and the Kotlin one end with the same pc, pointer and stack contents |
| TsCpu.Cpu.constructor | src/cpu.ts:3-11 | empty arrays and every number 0 |
| TsCpu.Cpu.DecodeOpcode | src/cpu.ts:39-65 | the new fields are Decoded of the old ones |
| TsCpu.DecodeExample | test/cpuTest.ts:74-88 | from a new CPU, 0xA2F0 sets I to 0x2F0 and pc to 2 |

## Left out

- Integer width. Kotlin `Int` is 32 bits and JavaScript's bitwise operators work on 32 bits; the model uses unbounded integers. It agrees with the source wherever no value leaves the 32-bit range; wrap-around beyond that is not modelled.
- Registers are not wrapped to 8 bits. 7XNN and 8XY4 add without a modulo and 8XY5 can go negative, as in the source.
- KtCpu.Cpu.Init: requires the three arrays to be distinct objects. Kotlin lets a caller pass one array twice, and a handler's write to one would then show in the other; that aliasing is not modelled.
- KtCpu.Cpu handlers: each requires the array indices it uses to be in bounds (`KtMachine.Executable`). Out of bounds, the JVM throws an index exception; that exception is not modelled.
- The Kotlin `executeOpcode` overloads are chosen by the argument's static type. Here each is a method named after its variant, and it requires an argument of that variant.
- The Kotlin decoder builds argument-less variants in the cpu component's `Opcode.kt`, while `Cpu.kt` reads `opcode.value` and the decoder tests build variants around the word. The model follows the value-carrying form of the interpreter component's `Opcode.kt`, so `KtOpcodeDecoder.Decode` puts the word in `value`.
- The TypeScript `Opcodes` enumeration file (`src/opcodes.ts`) is not part of this model. `TsOpcodeDecoder.Opcodes` lists the constants the decoder returns.
- JavaScript numbers may be fractional. Every number in the TypeScript model is an integer.
- The `console.log` calls of `decodeOpcode` (unknown class) and of `getUpdatedSoundTimer` (the beep at 1) are output only and are left out.
- The reader and parser functions are written as floor division and remainder. `MatchesMasks` proves each equal to the mask-and-shift expression of the source.
- The handlers that only `src/__test__/cpu.test.ts` exercises (00E0, BNNN, CXNN, DXYN, EX9E, EXA1, 8XY7, 8XYE, FX0A, FX29, FX33, FX55, FX65) belong to a TypeScript CPU that is not part of this model.
- Display, keyboard, random numbers, `src/play.ts` and the commented-out `emulateCycle` of `src/cpu.ts` are I/O or not code, and are left out.
- The Kotlin test's `fetchOpcode(memory, pc)` signature does not match `Cpu.kt`. `KtCpu.Cpu.FetchOpcode` models `Cpu.kt`, which reads the CPU's own memory and pc.
- KtCpu.Cpu.FetchOpcode: requires pc and pc + 1 to lie inside memory, as do KtMachine.FetchOpcode and KtMachine.FetchIsBigEndian. Out of bounds the JVM throws; that exception is not modelled.

/** The state of the Kotlin CPU as a value, and what each of its `executeOpcode` handlers
    does to that state. The `Cpu` class in KtCpu performs these transitions in place on its
    arrays; this module states them as a function and proves what they amount to. */
module KtMachine {
  import opened Bits
  import opened KtOpcode
  import opened OpcodeParser

  /** Sizes and defaults of the constructor's arguments. */
  const MemorySize := 4096
  const RegisterCount := 16
  const StackSize := 16
  const ProgramStart := 0x200
  /** VF, the register the arithmetic handlers write their flag to. */
  const Flag := 0xF

  /** Every field of the CPU. Arrays become sequences; integers are unbounded. */
  datatype Machine = Machine(
    memory: seq<int>,
    registers: seq<int>,
    indexRegister: int,
    programCounter: int,
    delayTimer: int,
    soundTimer: int,
    stack: seq<int>,
    stackPointer: int)

  /** The handler for `op` exists and every array index it uses is in bounds (out of
      bounds, the JVM would throw). */
  predicate Executable(m: Machine, op: Opcode)
  {
    var x, y := ParseOpcodeVX(op.value), ParseOpcodeVY(op.value);
    match op
    case ReturnFromSubroutine(_) => 0 <= m.stackPointer < |m.stack|
    case JumpToAddress(_) => true
    case JumpToSubroutine(_) => 0 <= m.stackPointer < |m.stack|
    case SkipIfVxEqualsNn(_) => x < |m.registers|
    case SkipIfVxDoesNotEqualNn(_) => x < |m.registers|
    case SkipIfVxEqualsVy(_) => x < |m.registers| && y < |m.registers|
    case SetVxToNn(_) => x < |m.registers|
    case AddNnToVx(_) => x < |m.registers|
    case SetVxToVy(_) => x < |m.registers| && y < |m.registers|
    case SetVxToBitwiseOrVy(_) => x < |m.registers| && y < |m.registers|
    case SetVxToBitwiseAndVy(_) => x < |m.registers| && y < |m.registers|
    case SetVxToBitwiseXOrVy(_) => x < |m.registers| && y < |m.registers|
    case AddWithCarry(_) => Flag < |m.registers|
    case SubtractVyFromVxWithCarry(_) => Flag < |m.registers|
    case ShiftVxRight(_) => Flag < |m.registers|
    case _ => false
  }

  /** The state after the handler for `op` has run. Handlers that write VF write it before
      they read VX and VY, so with X or Y equal to 0xF they read the new flag. */
  function Execute(m: Machine, op: Opcode): (next: Machine)
    requires Executable(m, op)
    ensures next.memory == m.memory && next.indexRegister == m.indexRegister
    ensures next.delayTimer == m.delayTimer && next.soundTimer == m.soundTimer
    ensures |next.registers| == |m.registers| && |next.stack| == |m.stack|
    ensures !op.JumpToSubroutine? ==> next.stack == m.stack
  {
    var w, pc, regs := op.value, m.programCounter, m.registers;
    var x, y := ParseOpcodeVX(w), ParseOpcodeVY(w);
    match op
    case ReturnFromSubroutine(_) =>
      m.(programCounter := m.stack[m.stackPointer], stackPointer := m.stackPointer - 1)
    case JumpToAddress(_) =>
      m.(programCounter := ParseOpcodeNNN(w))
    case JumpToSubroutine(_) =>
      m.(stack := m.stack[m.stackPointer := pc], stackPointer := m.stackPointer + 1,
         programCounter := ParseOpcodeNNN(w))
    case SkipIfVxEqualsNn(_) =>
      m.(programCounter := if ParseOpcodeNN(w) == regs[x] then pc + 4 else pc + 2)
    case SkipIfVxDoesNotEqualNn(_) =>
      m.(programCounter := if ParseOpcodeNN(w) != regs[x] then pc + 4 else pc + 2)
    case SkipIfVxEqualsVy(_) =>
      m.(programCounter := if regs[x] == regs[y] then pc + 4 else pc + 2)
    case SetVxToNn(_) =>
      m.(registers := regs[x := ParseOpcodeNN(w)], programCounter := pc + 2)
    case AddNnToVx(_) =>
      m.(registers := regs[x := regs[x] + ParseOpcodeNN(w)], programCounter := pc + 2)
    case SetVxToVy(_) =>
      m.(registers := regs[x := regs[y]], programCounter := pc + 2)
    case SetVxToBitwiseOrVy(_) =>
      m.(registers := regs[x := Or(regs[x], regs[y])], programCounter := pc + 2)
    case SetVxToBitwiseAndVy(_) =>
      m.(registers := regs[x := And(regs[x], regs[y])], programCounter := pc + 2)
    case SetVxToBitwiseXOrVy(_) =>
      m.(registers := regs[x := Xor(regs[x], regs[y])], programCounter := pc + 2)
    case AddWithCarry(_) =>
      var flagged := regs[Flag := if regs[y] > 0xFF - regs[x] then 1 else 0];
      m.(registers := flagged[x := flagged[x] + flagged[y]], programCounter := pc + 2)
    case SubtractVyFromVxWithCarry(_) =>
      var flagged := regs[Flag := if regs[x] < regs[y] then 1 else 0];
      m.(registers := flagged[x := flagged[x] - flagged[y]], programCounter := pc + 2)
    case ShiftVxRight(_) =>
      var flagged := regs[Flag := And(regs[x], 1)];
      m.(registers := flagged[x := ShiftRight(flagged[x], 1)], programCounter := pc + 2)
    case _ => assert false; m
  }

  /** The state the constructor builds when given no arguments. */
  function Initial(): (m: Machine)
    ensures |m.memory| == MemorySize && |m.registers| == RegisterCount && |m.stack| == StackSize
    ensures forall i :: 0 <= i < MemorySize ==> m.memory[i] == 0
    ensures forall i :: 0 <= i < RegisterCount ==> m.registers[i] == 0
    ensures forall i :: 0 <= i < StackSize ==> m.stack[i] == 0
    ensures m.indexRegister == 0 && m.programCounter == ProgramStart && m.stackPointer == 0
    ensures m.delayTimer == 0 && m.soundTimer == 0
  {
    Machine(seq(MemorySize, _ => 0), seq(RegisterCount, _ => 0), 0, ProgramStart, 0, 0,
            seq(StackSize, _ => 0), 0)
  }

  /** `fetchOpcode`: the byte at pc shifted up by eight, or-ed with the byte after it. */
  function FetchOpcode(m: Machine): int
    requires 0 <= m.programCounter && m.programCounter + 1 < |m.memory|
  {
    Or(ShiftLeft(m.memory[m.programCounter], 8), m.memory[m.programCounter + 1])
  }

  /** When the second cell holds a byte, the fetch is the big-endian word the two cells
      spell. */
  lemma FetchIsBigEndian(m: Machine)
    requires 0 <= m.programCounter && m.programCounter + 1 < |m.memory|
    requires 0 <= m.memory[m.programCounter + 1] < 0x100
    ensures FetchOpcode(m) == m.memory[m.programCounter] * 0x100 + m.memory[m.programCounter + 1]
  {
    var high, low := m.memory[m.programCounter], m.memory[m.programCounter + 1];
    EightBits();
    OrIntoLowBits(high, low, 8);
  }

  lemma EightBits()
    ensures Pow2(1) == 2 && Pow2(8) == 0x100
  {
  }

  /** The word the fetch tests expect: 0xA2F0 out of [0xA0, 0xA1, 0xA2, 0xF0] at pc 2. */
  lemma FetchExample(m: Machine)
    requires m.memory == [0xA0, 0xA1, 0xA2, 0xF0] && m.programCounter == 2
    ensures FetchOpcode(m) == 0xA2F0
  {
    FetchIsBigEndian(m);
  }

  /** A call at stack pointer s followed by a return leaves the pointer at s and the pushed
      return address in slot s, but jumps to slot s + 1: a return reads the slot the pointer
      designates before moving it down, where the call wrote before moving it up. */
  lemma CallThenReturn(m: Machine, call: Opcode, ret: Opcode)
    requires call.JumpToSubroutine? && ret.ReturnFromSubroutine?
    requires 0 <= m.stackPointer && m.stackPointer + 1 < |m.stack|
    ensures Executable(m, call) && Executable(Execute(m, call), ret)
    ensures Execute(Execute(m, call), ret).stackPointer == m.stackPointer
    ensures Execute(Execute(m, call), ret).stack == m.stack[m.stackPointer := m.programCounter]
    ensures Execute(Execute(m, call), ret).programCounter == m.stack[m.stackPointer + 1]
  {
  }

  /** 00EE from any state: pc becomes the slot the pointer designates and the pointer moves
      down by one; no register, slot or other field changes. */
  lemma ReturnTarget(m: Machine, ret: Opcode)
    requires ret.ReturnFromSubroutine? && 0 <= m.stackPointer < |m.stack|
    ensures Executable(m, ret)
    ensures Execute(m, ret) == m.(programCounter := m.stack[m.stackPointer],
                                  stackPointer := m.stackPointer - 1)
  {
  }

  /** The return the tests exercise: slots [1, 2, 3, 4] and pointer 2 give pc 3, pointer 1. */
  lemma ReturnExample(m: Machine, ret: Opcode)
    requires ret.ReturnFromSubroutine? && m.stack == [1, 2, 3, 4] && m.stackPointer == 2
    ensures Executable(m, ret)
    ensures Execute(m, ret).programCounter == 3 && Execute(m, ret).stackPointer == 1
  {
  }

  /** A jump or call lands inside the 12-bit address space, at the word's NNN. A jump changes
      nothing else; a call also saves pc in the slot the pointer designates and moves the
      pointer up by one. Neither touches a register. */
  lemma JumpTargets(m: Machine, op: Opcode)
    requires (op.JumpToAddress? || op.JumpToSubroutine?) && Executable(m, op)
    ensures 0 <= Execute(m, op).programCounter <= 0xFFF
    ensures op.JumpToAddress? ==> Execute(m, op) == m.(programCounter := op.value % 0x1000)
    ensures op.JumpToSubroutine? ==>
              Execute(m, op) == m.(stack := m.stack[m.stackPointer := m.programCounter],
                                   stackPointer := m.stackPointer + 1,
                                   programCounter := op.value % 0x1000)
  {
  }

  /** For the same X and NN, exactly one of 3XNN and 4XNN skips the next instruction. Neither
      changes anything but pc. */
  lemma SkipsAreComplementary(m: Machine, eq: Opcode, ne: Opcode)
    requires eq.SkipIfVxEqualsNn? && ne.SkipIfVxDoesNotEqualNn?
    requires ParseOpcodeNNN(eq.value) == ParseOpcodeNNN(ne.value)
    requires Executable(m, eq)
    ensures Executable(m, ne)
    ensures Execute(m, eq).programCounter in {m.programCounter + 2, m.programCounter + 4}
    ensures Execute(m, ne).programCounter in {m.programCounter + 2, m.programCounter + 4}
    ensures Execute(m, eq).programCounter != Execute(m, ne).programCounter
    ensures Execute(m, eq).programCounter == m.programCounter + 4
        <==> m.registers[ParseOpcodeVX(eq.value)] == ParseOpcodeNN(eq.value)
    ensures Execute(m, eq).(programCounter := m.programCounter) == m
    ensures Execute(m, ne).(programCounter := m.programCounter) == m
  {
    FieldConsistency(eq.value);
    FieldConsistency(ne.value);
  }

  /** 5XY0 skips exactly when VX equals VY, so 5XY0 and 5YX0 agree and 5XX0 always skips. */
  lemma SkipIfRegistersEqual(m: Machine, op: Opcode, swapped: Opcode)
    requires op.SkipIfVxEqualsVy? && swapped.SkipIfVxEqualsVy? && Executable(m, op)
    requires ParseOpcodeVX(swapped.value) == ParseOpcodeVY(op.value)
    requires ParseOpcodeVY(swapped.value) == ParseOpcodeVX(op.value)
    ensures Executable(m, swapped)
    ensures Execute(m, op) == Execute(m, swapped)
    ensures Execute(m, op).programCounter == m.programCounter + 4
        <==> m.registers[ParseOpcodeVX(op.value)] == m.registers[ParseOpcodeVY(op.value)]
    ensures ParseOpcodeVX(op.value) == ParseOpcodeVY(op.value)
        ==> Execute(m, op).programCounter == m.programCounter + 4
    ensures Execute(m, op).(programCounter := m.programCounter) == m
  {
  }

  /** 6XNN, 7XNN and 8XY0-8XY3 change VX and advance pc by two, and nothing else. */
  lemma RegisterOnlyOps(m: Machine, op: Opcode)
    requires op.SetVxToNn? || op.AddNnToVx? || op.SetVxToVy?
             || op.SetVxToBitwiseOrVy? || op.SetVxToBitwiseAndVy? || op.SetVxToBitwiseXOrVy?
    requires Executable(m, op)
    ensures var x := ParseOpcodeVX(op.value);
            Execute(m, op) == m.(registers := m.registers[x := Execute(m, op).registers[x]],
                                 programCounter := m.programCounter + 2)
  {
  }

  /** 6XNN loads the byte NN, the word's low eight bits, into VX; 7XNN adds NN to VX without
      wrapping at 0xFF, so a register can leave the byte range. */
  lemma LoadAndAddImmediate(m: Machine, op: Opcode)
    requires (op.SetVxToNn? || op.AddNnToVx?) && Executable(m, op)
    ensures var x, nn := ParseOpcodeVX(op.value), ParseOpcodeNN(op.value);
            && (op.SetVxToNn? ==> Execute(m, op).registers[x] == op.value % 0x100)
            && (op.SetVxToNn? ==> 0 <= Execute(m, op).registers[x] <= 0xFF)
            && (op.AddNnToVx? ==> Execute(m, op).registers[x] - m.registers[x] == nn)
            && (op.AddNnToVx? && m.registers[x] + nn > 0xFF ==> Execute(m, op).registers[x] > 0xFF)
  {
  }

  /** 8XY0 copies VY into VX, after which the two are equal; VY and every other register keep
      their value. */
  lemma CopyRegister(m: Machine, op: Opcode)
    requires op.SetVxToVy? && Executable(m, op)
    ensures var x, y := ParseOpcodeVX(op.value), ParseOpcodeVY(op.value);
            && Execute(m, op).registers[x] == Execute(m, op).registers[y] == m.registers[y]
            && (forall i :: 0 <= i < |m.registers| && i != x ==>
                  Execute(m, op).registers[i] == m.registers[i])
  {
  }

  /** 8XY1-8XY3 keep VX within a byte when VX and VY are bytes. */
  lemma BitwiseStaysInByte(m: Machine, op: Opcode)
    requires op.SetVxToBitwiseOrVy? || op.SetVxToBitwiseAndVy? || op.SetVxToBitwiseXOrVy?
    requires Executable(m, op)
    requires 0 <= m.registers[ParseOpcodeVX(op.value)] < 0x100
    requires 0 <= m.registers[ParseOpcodeVY(op.value)] < 0x100
    ensures 0 <= Execute(m, op).registers[ParseOpcodeVX(op.value)] < 0x100
  {
    EightBits();
    BoundedOperands(m.registers[ParseOpcodeVX(op.value)], m.registers[ParseOpcodeVY(op.value)], 8);
  }

  /** With X = Y, 8XY1 and 8XY2 leave VX as it was and 8XY3 clears it. */
  lemma BitwiseWithItself(m: Machine, op: Opcode)
    requires op.SetVxToBitwiseOrVy? || op.SetVxToBitwiseAndVy? || op.SetVxToBitwiseXOrVy?
    requires Executable(m, op) && ParseOpcodeVX(op.value) == ParseOpcodeVY(op.value)
    ensures op.SetVxToBitwiseXOrVy? ==> Execute(m, op).registers[ParseOpcodeVX(op.value)] == 0
    ensures !op.SetVxToBitwiseXOrVy? ==> Execute(m, op).registers == m.registers
  {
    var v := m.registers[ParseOpcodeVX(op.value)];
    AndSelf(v);
    OrPlusAnd(v, v);
    XorIsSumWithoutCarries(v, v);
  }

  /** 8XY4 with X and Y other than F: VX becomes the unwrapped sum and VF is 1 exactly when
      the sum exceeds a byte; no other register changes. */
  lemma AddWithCarryFlag(m: Machine, op: Opcode)
    requires op.AddWithCarry? && Executable(m, op)
    requires ParseOpcodeVX(op.value) != Flag && ParseOpcodeVY(op.value) != Flag
    ensures var x, y := ParseOpcodeVX(op.value), ParseOpcodeVY(op.value);
            var sum := m.registers[x] + m.registers[y];
            Execute(m, op) == m.(registers := m.registers[Flag := if sum > 0xFF then 1 else 0][x := sum],
                                 programCounter := m.programCounter + 2)
  {
  }

  /** 8XY4 with X or Y equal to F: the flag is written first and the sum reads it. Only VX
      and VF change, and pc advances by two. */
  lemma AddWithCarryReadsNewFlag(m: Machine, op: Opcode)
    requires op.AddWithCarry? && Executable(m, op)
    ensures var x, y := ParseOpcodeVX(op.value), ParseOpcodeVY(op.value);
            var carry := if m.registers[y] > 0xFF - m.registers[x] then 1 else 0;
            && (x == Flag ==> Execute(m, op).registers[Flag] == carry + (if y == Flag then carry else m.registers[y]))
            && (x != Flag && y == Flag ==> Execute(m, op).registers[x] == m.registers[x] + carry)
  ensures var x, next := ParseOpcodeVX(op.value), Execute(m, op).registers;
          && (forall i :: 0 <= i < |next| && i != x && i != Flag ==> next[i] == m.registers[i])
          && Execute(m, op) == m.(registers := next, programCounter := m.programCounter + 2)
  {
  }

  /** The sums the tests check: 6 + 6 is 12 with VF 0; 256 + 6 is 262 with VF 1. */
  lemma AddWithCarryExamples(m: Machine, op: Opcode)
    requires op == AddWithCarry(0x8234) && |m.registers| == RegisterCount
    ensures Executable(m, op)
    ensures m.registers[2] == 6 && m.registers[3] == 6
            ==> Execute(m, op).registers[2] == 12 && Execute(m, op).registers[Flag] == 0
    ensures m.registers[2] == 256 && m.registers[3] == 6
            ==> Execute(m, op).registers[2] == 262 && Execute(m, op).registers[Flag] == 1
  {
    assert ParseOpcodeVX(0x8234) == 2 && ParseOpcodeVY(0x8234) == 3;
  }

  /** 8XY5 with X and Y other than F: VX becomes VX - VY, negative when VY is larger, and VF
      is 1 exactly when it is negative. */
  lemma SubtractBorrowFlag(m: Machine, op: Opcode)
    requires op.SubtractVyFromVxWithCarry? && Executable(m, op)
    requires ParseOpcodeVX(op.value) != Flag && ParseOpcodeVY(op.value) != Flag
    ensures var x, y := ParseOpcodeVX(op.value), ParseOpcodeVY(op.value);
            var next := Execute(m, op).registers;
            && next[x] + m.registers[y] == m.registers[x]
            && (next[Flag] == 1 <==> next[x] < 0)
            && (next[Flag] == 0 <==> next[x] >= 0)
            && (forall i :: 0 <= i < |next| && i != x && i != Flag ==> next[i] == m.registers[i])
            && Execute(m, op) == m.(registers := next, programCounter := m.programCounter + 2)
  {
  }

  /** 8XY5 with X or Y equal to F: the borrow is written first and the difference reads it.
      Only VX and VF change, and pc advances by two. */
  lemma SubtractReadsNewFlag(m: Machine, op: Opcode)
    requires op.SubtractVyFromVxWithCarry? && Executable(m, op)
    ensures var x, y := ParseOpcodeVX(op.value), ParseOpcodeVY(op.value);
            var borrow := if m.registers[x] < m.registers[y] then 1 else 0;
            && (x == Flag ==> Execute(m, op).registers[Flag] == borrow - (if y == Flag then borrow else m.registers[y]))
            && (x != Flag && y == Flag ==> Execute(m, op).registers[x] == m.registers[x] - borrow)
  ensures var x, next := ParseOpcodeVX(op.value), Execute(m, op).registers;
          && (forall i :: 0 <= i < |next| && i != x && i != Flag ==> next[i] == m.registers[i])
          && Execute(m, op) == m.(registers := next, programCounter := m.programCounter + 2)
  {
  }

  /** The differences the tests check: 1 - 6 is -5 with VF 1; 6 - 1 is 5 with VF 0. */
  lemma SubtractExamples(m: Machine, op: Opcode)
    requires op == SubtractVyFromVxWithCarry(0x8015) && |m.registers| == RegisterCount
    ensures Executable(m, op)
    ensures m.registers[0] == 1 && m.registers[1] == 6
            ==> Execute(m, op).registers[0] == -5 && Execute(m, op).registers[Flag] == 1
    ensures m.registers[0] == 6 && m.registers[1] == 1
            ==> Execute(m, op).registers[0] == 5 && Execute(m, op).registers[Flag] == 0
  {
    assert ParseOpcodeVX(0x8015) == 0 && ParseOpcodeVY(0x8015) == 1;
  }

  /** 8XY6 splits VX into its lowest bit, left in VF, and the rest, left in VX; Y is ignored.
      With X = F the flag is shifted out again and VF ends at 0. */
  lemma ShiftRightSplitsLowBit(m: Machine, op: Opcode, other: Opcode)
    requires op.ShiftVxRight? && other.ShiftVxRight? && Executable(m, op)
    requires ParseOpcodeVX(other.value) == ParseOpcodeVX(op.value)
    ensures Executable(m, other) && Execute(m, other) == Execute(m, op)
    ensures var x, next := ParseOpcodeVX(op.value), Execute(m, op).registers;
            && (x != Flag ==> 2 * next[x] + next[Flag] == m.registers[x] && 0 <= next[Flag] <= 1)
            && (x == Flag ==> next[Flag] == 0)
            && (forall i :: 0 <= i < |next| && i != x && i != Flag ==> next[i] == m.registers[i])
            && Execute(m, op) == m.(registers := next, programCounter := m.programCounter + 2)
  {
    var v := m.registers[ParseOpcodeVX(op.value)];
    EightBits();
    AndLowMask(v, 1);
  }
}

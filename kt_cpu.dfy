/** The Kotlin `Cpu` class: memory, registers and stack are arrays updated in place, the
    other fields are integers. Each `executeOpcode` overload becomes a method named after
    its variant, and is proved to perform KtMachine.Execute on the CPU's state while keeping
    the arrays it was constructed with, so a caller holding them sees the writes. */
module KtCpu {
  import opened Bits
  import opened KtOpcode
  import opened OpcodeParser
  import opened KtMachine

  class Cpu {
    var memory: array<int>
    var registers: array<int>
    var indexRegister: int
    var programCounter: int
    var delayTimer: int
    var soundTimer: int
    var stack: array<int>
    var stackPointer: int

    /** The three arrays are distinct objects, so a write to one leaves the others alone. */
    predicate Valid()
      reads this
    {
      memory != registers && memory != stack && registers != stack
    }

    /** The CPU's fields as a value. */
    function State(): Machine
      reads this, memory, registers, stack
    {
      Machine(memory[..], registers[..], indexRegister, programCounter, delayTimer, soundTimer,
              stack[..], stackPointer)
    }

    /** The constructor with every argument left at its default. */
    constructor ()
      ensures Valid() && State() == Initial()
      ensures fresh(memory) && fresh(registers) && fresh(stack)
    {
      memory := new int[MemorySize](_ => 0);
      registers := new int[RegisterCount](_ => 0);
      indexRegister := 0;
      programCounter := ProgramStart;
      delayTimer := 0;
      soundTimer := 0;
      stack := new int[StackSize](_ => 0);
      stackPointer := 0;
    }

    /** The constructor with every argument given: the CPU keeps the caller's arrays. */
    constructor Init(memory: array<int>, registers: array<int>, indexRegister: int,
                     programCounter: int, delayTimer: int, soundTimer: int,
                     stack: array<int>, stackPointer: int)
      requires memory != registers && memory != stack && registers != stack
      ensures Valid()
      ensures this.memory == memory && this.registers == registers && this.stack == stack
      ensures State() == Machine(memory[..], registers[..], indexRegister, programCounter,
                                 delayTimer, soundTimer, stack[..], stackPointer)
    {
      this.memory := memory;
      this.registers := registers;
      this.indexRegister := indexRegister;
      this.programCounter := programCounter;
      this.delayTimer := delayTimer;
      this.soundTimer := soundTimer;
      this.stack := stack;
      this.stackPointer := stackPointer;
    }

    /** `fetchOpcode()`: reads the two cells at pc and changes nothing. */
    method FetchOpcode() returns (completeOpcode: int)
      requires 0 <= programCounter && programCounter + 1 < memory.Length
      ensures completeOpcode == KtMachine.FetchOpcode(State())
      ensures 0 <= memory[programCounter + 1] < 0x100
              ==> completeOpcode == memory[programCounter] * 0x100 + memory[programCounter + 1]
    {
      var opcodeFragmentA := memory[programCounter];
      var opcodeFragmentB := memory[programCounter + 1];
      var leftShiftedOpcodeFragmentA := ShiftLeft(opcodeFragmentA, 8);
      completeOpcode := Or(leftShiftedOpcodeFragmentA, opcodeFragmentB);
      if 0 <= opcodeFragmentB < 0x100 {
        FetchIsBigEndian(State());
      }
    }

    /** 00EE. */
    method ExecuteReturnFromSubroutine(opcode: Opcode)
      requires Valid() && opcode.ReturnFromSubroutine? && Executable(State(), opcode)
      modifies this
      ensures Valid() && State() == Execute(old(State()), opcode)
      ensures memory == old(memory) && registers == old(registers) && stack == old(stack)
    {
      programCounter := stack[stackPointer];
      stackPointer := stackPointer - 1;
    }

    /** 1NNN. */
    method ExecuteJumpToAddress(opcode: Opcode)
      requires Valid() && opcode.JumpToAddress? && Executable(State(), opcode)
      modifies this
      ensures Valid() && State() == Execute(old(State()), opcode)
      ensures memory == old(memory) && registers == old(registers) && stack == old(stack)
    {
      var nnnAddress := ParseOpcodeNNN(opcode.value);
      programCounter := nnnAddress;
    }

    /** 2NNN. */
    method ExecuteJumpToSubroutine(opcode: Opcode)
      requires Valid() && opcode.JumpToSubroutine? && Executable(State(), opcode)
      modifies this, stack
      ensures Valid() && State() == Execute(old(State()), opcode)
      ensures memory == old(memory) && registers == old(registers) && stack == old(stack)
    {
      stack[stackPointer] := programCounter;
      stackPointer := stackPointer + 1;
      programCounter := ParseOpcodeNNN(opcode.value);
    }

    /** 3XNN. */
    method ExecuteSkipIfVxEqualsNn(opcode: Opcode)
      requires Valid() && opcode.SkipIfVxEqualsNn? && Executable(State(), opcode)
      modifies this
      ensures Valid() && State() == Execute(old(State()), opcode)
      ensures memory == old(memory) && registers == old(registers) && stack == old(stack)
    {
      var vX := ParseOpcodeVX(opcode.value);
      var nnAddress := ParseOpcodeNN(opcode.value);
      if nnAddress == registers[vX] {
        programCounter := programCounter + 4;
      } else {
        programCounter := programCounter + 2;
      }
    }

    /** 4XNN. */
    method ExecuteSkipIfVxDoesNotEqualNn(opcode: Opcode)
      requires Valid() && opcode.SkipIfVxDoesNotEqualNn? && Executable(State(), opcode)
      modifies this
      ensures Valid() && State() == Execute(old(State()), opcode)
      ensures memory == old(memory) && registers == old(registers) && stack == old(stack)
    {
      var vX := ParseOpcodeVX(opcode.value);
      var nnAddress := ParseOpcodeNN(opcode.value);
      if nnAddress != registers[vX] {
        programCounter := programCounter + 4;
      } else {
        programCounter := programCounter + 2;
      }
    }

    /** 5XY0. */
    method ExecuteSkipIfVxEqualsVy(opcode: Opcode)
      requires Valid() && opcode.SkipIfVxEqualsVy? && Executable(State(), opcode)
      modifies this
      ensures Valid() && State() == Execute(old(State()), opcode)
      ensures memory == old(memory) && registers == old(registers) && stack == old(stack)
    {
      var vX := ParseOpcodeVX(opcode.value);
      var vY := ParseOpcodeVY(opcode.value);
      if registers[vX] == registers[vY] {
        programCounter := programCounter + 4;
      } else {
        programCounter := programCounter + 2;
      }
    }

    /** 6XNN. */
    method ExecuteSetVxToNn(opcode: Opcode)
      requires Valid() && opcode.SetVxToNn? && Executable(State(), opcode)
      modifies this, registers
      ensures Valid() && State() == Execute(old(State()), opcode)
      ensures memory == old(memory) && registers == old(registers) && stack == old(stack)
    {
      var vX := ParseOpcodeVX(opcode.value);
      var nnAddress := ParseOpcodeNN(opcode.value);
      registers[vX] := nnAddress;
      programCounter := programCounter + 2;
    }

    /** 7XNN. */
    method ExecuteAddNnToVx(opcode: Opcode)
      requires Valid() && opcode.AddNnToVx? && Executable(State(), opcode)
      modifies this, registers
      ensures Valid() && State() == Execute(old(State()), opcode)
      ensures memory == old(memory) && registers == old(registers) && stack == old(stack)
    {
      var vX := ParseOpcodeVX(opcode.value);
      var nn := ParseOpcodeNN(opcode.value);
      registers[vX] := registers[vX] + nn;
      programCounter := programCounter + 2;
    }

    /** 8XY0. */
    method ExecuteSetVxToVy(opcode: Opcode)
      requires Valid() && opcode.SetVxToVy? && Executable(State(), opcode)
      modifies this, registers
      ensures Valid() && State() == Execute(old(State()), opcode)
      ensures memory == old(memory) && registers == old(registers) && stack == old(stack)
    {
      var vX := ParseOpcodeVX(opcode.value);
      var vY := ParseOpcodeVY(opcode.value);
      registers[vX] := registers[vY];
      programCounter := programCounter + 2;
    }

    /** 8XY1. */
    method ExecuteSetVxToBitwiseOrVy(opcode: Opcode)
      requires Valid() && opcode.SetVxToBitwiseOrVy? && Executable(State(), opcode)
      modifies this, registers
      ensures Valid() && State() == Execute(old(State()), opcode)
      ensures memory == old(memory) && registers == old(registers) && stack == old(stack)
    {
      var vX := ParseOpcodeVX(opcode.value);
      var vY := ParseOpcodeVY(opcode.value);
      registers[vX] := Or(registers[vX], registers[vY]);
      programCounter := programCounter + 2;
    }

    /** 8XY2. */
    method ExecuteSetVxToBitwiseAndVy(opcode: Opcode)
      requires Valid() && opcode.SetVxToBitwiseAndVy? && Executable(State(), opcode)
      modifies this, registers
      ensures Valid() && State() == Execute(old(State()), opcode)
      ensures memory == old(memory) && registers == old(registers) && stack == old(stack)
    {
      var vX := ParseOpcodeVX(opcode.value);
      var vY := ParseOpcodeVY(opcode.value);
      registers[vX] := And(registers[vX], registers[vY]);
      programCounter := programCounter + 2;
    }

    /** 8XY3. */
    method ExecuteSetVxToBitwiseXOrVy(opcode: Opcode)
      requires Valid() && opcode.SetVxToBitwiseXOrVy? && Executable(State(), opcode)
      modifies this, registers
      ensures Valid() && State() == Execute(old(State()), opcode)
      ensures memory == old(memory) && registers == old(registers) && stack == old(stack)
    {
      var vX := ParseOpcodeVX(opcode.value);
      var vY := ParseOpcodeVY(opcode.value);
      registers[vX] := Xor(registers[vX], registers[vY]);
      programCounter := programCounter + 2;
    }

    /** 8XY4: the flag is written before the sum is computed. */
    method ExecuteAddWithCarry(opcode: Opcode)
      requires Valid() && opcode.AddWithCarry? && Executable(State(), opcode)
      modifies this, registers
      ensures Valid() && State() == Execute(old(State()), opcode)
      ensures memory == old(memory) && registers == old(registers) && stack == old(stack)
    {
      var vX := ParseOpcodeVX(opcode.value);
      var vY := ParseOpcodeVY(opcode.value);
      if registers[vY] > 0xFF - registers[vX] {
        registers[Flag] := 1;
      } else {
        registers[Flag] := 0;
      }
      registers[vX] := registers[vX] + registers[vY];
      programCounter := programCounter + 2;
    }

    /** 8XY5: the flag is written before the difference is computed. */
    method ExecuteSubtractVyFromVxWithCarry(opcode: Opcode)
      requires Valid() && opcode.SubtractVyFromVxWithCarry? && Executable(State(), opcode)
      modifies this, registers
      ensures Valid() && State() == Execute(old(State()), opcode)
      ensures memory == old(memory) && registers == old(registers) && stack == old(stack)
    {
      var vX := ParseOpcodeVX(opcode.value);
      var vY := ParseOpcodeVY(opcode.value);
      if registers[vX] < registers[vY] {
        registers[Flag] := 1;
      } else {
        registers[Flag] := 0;
      }
      registers[vX] := registers[vX] - registers[vY];
      programCounter := programCounter + 2;
    }

    /** 8XY6: the flag is written before VX is shifted; VY is not read. */
    method ExecuteShiftVxRight(opcode: Opcode)
      requires Valid() && opcode.ShiftVxRight? && Executable(State(), opcode)
      modifies this, registers
      ensures Valid() && State() == Execute(old(State()), opcode)
      ensures memory == old(memory) && registers == old(registers) && stack == old(stack)
    {
      var vX := ParseOpcodeVX(opcode.value);
      registers[Flag] := And(registers[vX], 1);
      registers[vX] := ShiftRight(registers[vX], 1);
      programCounter := programCounter + 2;
    }
  }
}

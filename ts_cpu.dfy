/** The earlier TypeScript CPU (src/cpu.ts): a class whose fields start empty or zero, a
    `decodeOpcode` that carries out ANNN and 2NNN and ignores every other word, and three
    methods that are pure functions of their arguments: the fetch and the two timer updates.

    JavaScript arrays grow on demand and read `undefined` past their end. `memory` and
    `registers` are never written here and are sequences; `stack` is written at arbitrary
    indices and is a map from index to value. */
module TsCpu {
  import opened Bits
  import opened OpcodeReader
  import KtOpcode
  import OpcodeParser
  import KtMachine

  /** A cell of a JavaScript array of numbers as the bitwise operators see it: a missing
      element reads as `undefined`, which they convert to 0. */
  function Cell(cells: seq<int>, index: int): int
  {
    if 0 <= index < |cells| then cells[index] else 0
  }

  /** `fetchOpcode(memory, programCounter)`: the cell at pc shifted up by eight, or-ed with the
      cell after it. It reads no field of the CPU. */
  function FetchOpcode(memory: seq<int>, programCounter: int): int
  {
    Or(ShiftLeft(Cell(memory, programCounter), 8), Cell(memory, programCounter + 1))
  }

  /** When the second cell holds a byte (or is missing), the fetch is the big-endian word of
      the two cells. */
  lemma FetchIsBigEndian(memory: seq<int>, programCounter: int)
    requires 0 <= Cell(memory, programCounter + 1) < 0x100
    ensures FetchOpcode(memory, programCounter)
            == Cell(memory, programCounter) * 0x100 + Cell(memory, programCounter + 1)
  {
    var high, low := Cell(memory, programCounter), Cell(memory, programCounter + 1);
    KtMachine.EightBits();
    OrIntoLowBits(high, low, 8);
  }

  /** Past the end of memory the fetch sees zeros: the last cell alone is its high byte. */
  lemma FetchAtEnd(memory: seq<int>)
    requires |memory| > 0
    ensures FetchOpcode(memory, |memory| - 1) == memory[|memory| - 1] * 0x100
    ensures FetchOpcode(memory, |memory|) == 0
  {
    FetchIsBigEndian(memory, |memory| - 1);
    FetchIsBigEndian(memory, |memory|);
  }

  /** The fetch the tests check: [0xA0, 0xA1, 0xA2, 0xF0] at pc 2 gives 0xA2F0. */
  lemma FetchExample()
    ensures FetchOpcode([0xA0, 0xA1, 0xA2, 0xF0], 2) == 0xA2F0
  {
    FetchIsBigEndian([0xA0, 0xA1, 0xA2, 0xF0], 2);
  }

  /** The fetch agrees with the Kotlin CPU's wherever the Kotlin one can read both cells. */
  lemma FetchAgreesWithKotlin(m: KtMachine.Machine)
    requires 0 <= m.programCounter && m.programCounter + 1 < |m.memory|
    ensures FetchOpcode(m.memory, m.programCounter) == KtMachine.FetchOpcode(m)
  {
  }

  /** `getUpdatedDelayTimer`: one tick of a timer, stopping at zero. */
  function GetUpdatedDelayTimer(delayTimer: int): (updated: int)
    ensures delayTimer - 1 <= updated <= delayTimer
    ensures updated == delayTimer <==> delayTimer <= 0
    ensures delayTimer >= 0 ==> updated >= 0
  {
    if delayTimer > 0 then delayTimer - 1 else delayTimer
  }

  /** `getUpdatedSoundTimer`: the same tick; the beep it logs at 1 is a side effect only. */
  function GetUpdatedSoundTimer(soundTimer: int): (updated: int)
    ensures updated == GetUpdatedDelayTimer(soundTimer)
  {
    if soundTimer > 0 then soundTimer - 1 else soundTimer
  }

  /** A timer after n ticks. */
  function Ticks(timer: int, n: nat): int
  {
    if n == 0 then timer else Ticks(GetUpdatedDelayTimer(timer), n - 1)
  }

  /** n ticks take a non-negative timer down by n, but not below zero. */
  lemma {:induction false} TicksSaturate(timer: int, n: nat)
    requires timer >= 0
    ensures Ticks(timer, n) == if timer >= n then timer - n else 0
  {
    if n > 0 {
      TicksSaturate(GetUpdatedDelayTimer(timer), n - 1);
    }
  }

  /** Zero is where the timers stop: a tick leaves it, and any number of ticks do too. */
  lemma ZeroIsFixpoint(n: nat)
    ensures GetUpdatedDelayTimer(0) == 0 && GetUpdatedSoundTimer(0) == 0
    ensures Ticks(0, n) == 0
  {
    TicksSaturate(0, n);
  }

  /** The ticks the tests check: 10 becomes 9 on both timers. */
  lemma TimerExamples()
    ensures GetUpdatedDelayTimer(10) == 9 && GetUpdatedSoundTimer(10) == 9
  {
  }

  /** Every field of the CPU. */
  datatype Fields = Fields(
    currentOpcode: int,
    memory: seq<int>,
    registers: seq<int>,
    indexRegister: int,
    programCounter: int,
    delayTimer: int,
    soundTimer: int,
    stack: map<int, int>,
    stackPointer: int)

  /** The fields after `decodeOpcode(opcode)`. The class is `opcode & 0xF000`, and NNN is
      `opcode & 0x0FFF` (OpcodeReader.MatchesMasks). */
  function Decoded(s: Fields, opcode: int): (next: Fields)
    ensures next.memory == s.memory && next.registers == s.registers
    ensures next.delayTimer == s.delayTimer && next.soundTimer == s.soundTimer
    ensures next.currentOpcode == s.currentOpcode
  {
    match ParseOpcodeFirstMask(opcode)
    case 0xA000 =>
      s.(indexRegister := ParseOpcodeNNN(opcode), programCounter := s.programCounter + 2)
    case 0x2000 =>
      s.(stack := s.stack[s.stackPointer := s.programCounter],
         stackPointer := s.stackPointer + 1,
         programCounter := ParseOpcodeNNN(opcode))
    case _ => s
  }

  /** ANNN loads NNN into the index register and advances pc by two; nothing else changes. */
  lemma LoadIndexRegister(s: Fields, opcode: int)
    requires ParseOpcodeFirstMask(opcode) == 0xA000
    ensures Decoded(s, opcode)
            == s.(indexRegister := opcode % 0x1000, programCounter := s.programCounter + 2)
    ensures 0 <= Decoded(s, opcode).indexRegister <= 0xFFF
  {
  }

  /** 2NNN saves pc in the slot the pointer designates, moves the pointer up and jumps to NNN;
      no other slot changes. */
  lemma CallSubroutine(s: Fields, opcode: int)
    requires ParseOpcodeFirstMask(opcode) == 0x2000
    ensures var next := Decoded(s, opcode);
            && next.stack[s.stackPointer] == s.programCounter
            && next.stack.Keys == s.stack.Keys + {s.stackPointer}
            && (forall i :: i in s.stack && i != s.stackPointer ==> next.stack[i] == s.stack[i])
            && next.stackPointer == s.stackPointer + 1
            && next.programCounter == opcode % 0x1000
            && next.indexRegister == s.indexRegister
  {
  }

  /** Every other class is ignored: nothing changes, pc included, and nothing is thrown. */
  lemma OtherClassesIgnored(s: Fields, opcode: int)
    requires ParseOpcodeFirstMask(opcode) != 0xA000 && ParseOpcodeFirstMask(opcode) != 0x2000
    ensures Decoded(s, opcode) == s
  {
  }

  /** The TypeScript call and the Kotlin 2NNN handler agree: started from the same pc,
      pointer and stack contents, they end with the same pc, pointer and stack contents. */
  lemma CallAgreesWithKotlin(s: Fields, m: KtMachine.Machine, opcode: int)
    requires ParseOpcodeFirstMask(opcode) == 0x2000
    requires 0 <= m.stackPointer < |m.stack|
    requires s.programCounter == m.programCounter && s.stackPointer == m.stackPointer
    requires forall i :: 0 <= i < |m.stack| ==> i in s.stack && s.stack[i] == m.stack[i]
    ensures var op := KtOpcode.JumpToSubroutine(opcode);
            var next, after := Decoded(s, opcode), KtMachine.Execute(m, op);
            && next.programCounter == after.programCounter
            && next.stackPointer == after.stackPointer
            && (forall i :: 0 <= i < |after.stack| ==> i in next.stack && next.stack[i] == after.stack[i])
  {
    OpcodeParser.AgreesWithReader(opcode);
  }

  class Cpu {
    var currentOpcode: int
    var memory: seq<int>
    var registers: seq<int>
    var indexRegister: int
    var programCounter: int
    var delayTimer: int
    var soundTimer: int
    var stack: map<int, int>
    var stackPointer: int

    function State(): Fields
      reads this
    {
      Fields(currentOpcode, memory, registers, indexRegister, programCounter, delayTimer,
             soundTimer, stack, stackPointer)
    }

    /** The field initialisers: empty arrays, every number 0 (pc included). */
    constructor ()
      ensures State() == Fields(0, [], [], 0, 0, 0, 0, map[], 0)
    {
      currentOpcode := 0;
      memory := [];
      registers := [];
      indexRegister := 0;
      programCounter := 0;
      delayTimer := 0;
      soundTimer := 0;
      stack := map[];
      stackPointer := 0;
    }

    /** `decodeOpcode(opcode)`: executes ANNN and 2NNN in place; logs and ignores the rest. */
    method DecodeOpcode(opcode: int)
      modifies this
      ensures State() == Decoded(old(State()), opcode)
    {
      var firstMask := ParseOpcodeFirstMask(opcode);
      if firstMask == 0xA000 {
        var nnnAddress := ParseOpcodeNNN(opcode);
        indexRegister := nnnAddress;
        programCounter := programCounter + 2;
      } else if firstMask == 0x2000 {
        stack := stack[stackPointer := programCounter];
        stackPointer := stackPointer + 1;
        programCounter := ParseOpcodeNNN(opcode);
      }
    }
  }

  /** The decode the tests check: from a new CPU, 0xA2F0 sets I to 0x2F0 and pc to 2. */
  lemma DecodeExample()
    ensures var s := Decoded(Fields(0, [], [], 0, 0, 0, 0, map[], 0), 0xA2F0);
            s.indexRegister == 0x2F0 && s.programCounter == 2
  {
    assert ParseOpcodeFirstMask(0xA2F0) == 0xA000;
  }
}

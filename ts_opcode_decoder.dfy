/** The TypeScript instruction decoder (src/opcodeDecoder.ts): a two-level switch from
    a word to a constant of the `Opcodes` enumeration, or a thrown error. The first
    level is the instruction class; classes 0x0, 0xE and 0xF switch again on NN and
    class 0x8 on N. */
module TsOpcodeDecoder {
  import opened Outcome
  import opened OpcodeReader
  import Numerals

  /** The enumeration constants the decoder can return. */
  datatype Opcodes =
    | ReturnFromSubroutine
    | ClearDisplay
    | JumpToAddress
    | JumpToSubroutine
    | SkipIfVxEqualsNn
    | SkipIfVxDoesNotEqualNn
    | SkipIfVxEqualsVy
    | SetVxToNn
    | AddNnToVx
    | SetVxToVy
    | SetVxToBitwiseOrVy
    | SetVxToBitwiseAndVy
    | SetVxToBitwiseXOrVy
    | AddWithCarry
    | SubtractVyFromVxWithCarry
    | ShiftRightVxVy
    | SubtractVxFromVyWithCarry
    | ShiftLeftVxVy
    | SkipIfVxNotEqualVy
    | LoadIndexRegister
    | JumpWithV0Offset
    | StoreRandomNumberToVx
    | DrawVxVy
    | SkipIfPressed
    | SkipIfNotPressed
    | StoreDelayTimerToVx
    | StartWaitForStoreKeypressToVx
    | StoreVxToDelayTimer
    | StoreVxToSoundTimer
    | AddVxToI
    | StoreDecimalValueToVx
    | StoreFromV0VxToMemory
    | StoreFromMemoryToV0Vx
    | SetIToVxSpriteLocation

  /** The thrown error's message: the word in lower-case hexadecimal, in quotes. */
  function ErrorMessage(opcode: int): (message: string)
    ensures |message| > 26 && message[..8] == "opcode \""
    ensures message[|message| - 18..] == "\" not implemented!"
    ensures message[8] == '-' <==> opcode < 0
  {
    "opcode \"" + Numerals.Hex(opcode) + "\" not implemented!"
  }

  /** The classes whose decoding looks at a second discriminant. */
  predicate Overloaded(firstMask: int)
  {
    firstMask == 0x0000 || firstMask == 0x8000 || firstMask == 0xE000 || firstMask == 0xF000
  }

  function DecodeOpcode(opcode: int): (r: Result<Opcodes>)
    ensures r.Err? ==> r.message == ErrorMessage(opcode)
    ensures r.Err? ==> Overloaded(ParseOpcodeFirstMask(opcode))
  {
    match ParseOpcodeFirstMask(opcode)
    case 0x0000 =>
      (match ParseOpcodeNN(opcode)
       case 0xEE => Ok(ReturnFromSubroutine)
       case 0xE0 => Ok(ClearDisplay)
       case _ => Err(ErrorMessage(opcode)))
    case 0x1000 => Ok(JumpToAddress)
    case 0x2000 => Ok(JumpToSubroutine)
    case 0x3000 => Ok(SkipIfVxEqualsNn)
    case 0x4000 => Ok(SkipIfVxDoesNotEqualNn)
    case 0x5000 => Ok(SkipIfVxEqualsVy)
    case 0x6000 => Ok(SetVxToNn)
    case 0x7000 => Ok(AddNnToVx)
    case 0x8000 =>
      (match ParseOpcodeN(opcode)
       case 0x0 => Ok(SetVxToVy)
       case 0x1 => Ok(SetVxToBitwiseOrVy)
       case 0x2 => Ok(SetVxToBitwiseAndVy)
       case 0x3 => Ok(SetVxToBitwiseXOrVy)
       case 0x4 => Ok(AddWithCarry)
       case 0x5 => Ok(SubtractVyFromVxWithCarry)
       case 0x6 => Ok(ShiftRightVxVy)
       case 0x7 => Ok(SubtractVxFromVyWithCarry)
       case 0xE => Ok(ShiftLeftVxVy)
       case _ => Err(ErrorMessage(opcode)))
    case 0x9000 => Ok(SkipIfVxNotEqualVy)
    case 0xA000 => Ok(LoadIndexRegister)
    case 0xB000 => Ok(JumpWithV0Offset)
    case 0xC000 => Ok(StoreRandomNumberToVx)
    case 0xD000 => Ok(DrawVxVy)
    case 0xE000 =>
      (match ParseOpcodeNN(opcode)
       case 0x9E => Ok(SkipIfPressed)
       case 0xA1 => Ok(SkipIfNotPressed)
       case _ => Err(ErrorMessage(opcode)))
    case 0xF000 =>
      (match ParseOpcodeNN(opcode)
       case 0x07 => Ok(StoreDelayTimerToVx)
       case 0x0A => Ok(StartWaitForStoreKeypressToVx)
       case 0x15 => Ok(StoreVxToDelayTimer)
       case 0x18 => Ok(StoreVxToSoundTimer)
       case 0x1E => Ok(AddVxToI)
       case 0x33 => Ok(StoreDecimalValueToVx)
       case 0x55 => Ok(StoreFromV0VxToMemory)
       case 0x65 => Ok(StoreFromMemoryToV0Vx)
       case 0x29 => Ok(SetIToVxSpriteLocation)
       case _ => Err(ErrorMessage(opcode)))
    case _ => Err(ErrorMessage(opcode))
  }


  /** The offending word can be read back out of the message. */
  lemma MessageNamesOpcode(opcode: int)
    ensures Numerals.ParseEmbedded(ErrorMessage(opcode), "opcode \"", "\" not implemented!", 16)
         == Some(opcode)
  {
    Numerals.EmbeddedRoundTrip("opcode \"", opcode, "\" not implemented!", 16);
  }

  /** The outer default is dead: every integer falls into one of the sixteen classes. */
  lemma ClassesCoverEveryWord(opcode: int)
    ensures ParseOpcodeFirstMask(opcode)
            in {0x0000, 0x1000, 0x2000, 0x3000, 0x4000, 0x5000, 0x6000, 0x7000,
                0x8000, 0x9000, 0xA000, 0xB000, 0xC000, 0xD000, 0xE000, 0xF000}
  {
  }

  /** Classes other than 0x0, 0x8, 0xE and 0xF always decode, and only their class matters. */
  lemma PlainClassesIgnoreLowBits(a: int, b: int)
    requires ParseOpcodeFirstMask(a) == ParseOpcodeFirstMask(b)
    requires !Overloaded(ParseOpcodeFirstMask(a))
    ensures DecodeOpcode(a).Ok?
    ensures DecodeOpcode(a) == DecodeOpcode(b)
  {
  }

  /** Class 0x0 looks at NN alone: 0xEE returns from a subroutine, 0xE0 clears the display. */
  lemma SystemClass(opcode: int)
    requires ParseOpcodeFirstMask(opcode) == 0x0000
    ensures DecodeOpcode(opcode) == Ok(ReturnFromSubroutine) <==> ParseOpcodeNN(opcode) == 0xEE
    ensures DecodeOpcode(opcode) == Ok(ClearDisplay) <==> ParseOpcodeNN(opcode) == 0xE0
    ensures DecodeOpcode(opcode).Ok? <==> ParseOpcodeNN(opcode) in {0xEE, 0xE0}
  {
  }

  /** Class 0x8 looks at N alone. */
  lemma ArithmeticClass(opcode: int)
    requires ParseOpcodeFirstMask(opcode) == 0x8000
    ensures DecodeOpcode(opcode).Ok? <==> ParseOpcodeN(opcode) in {0, 1, 2, 3, 4, 5, 6, 7, 0xE}
  {
  }

  /** Class 0xE looks at NN alone. */
  lemma KeyClass(opcode: int)
    requires ParseOpcodeFirstMask(opcode) == 0xE000
    ensures DecodeOpcode(opcode).Ok? <==> ParseOpcodeNN(opcode) in {0x9E, 0xA1}
  {
  }

  /** Class 0xF looks at NN alone. */
  lemma MiscClass(opcode: int)
    requires ParseOpcodeFirstMask(opcode) == 0xF000
    ensures DecodeOpcode(opcode).Ok?
        <==> ParseOpcodeNN(opcode) in {0x07, 0x0A, 0x15, 0x18, 0x1E, 0x33, 0x55, 0x65, 0x29}
  {
  }

  /** Words the decoder's tests decode. */
  lemma DecoderExamples()
    ensures DecodeOpcode(0x8015) == Ok(SubtractVyFromVxWithCarry)
    ensures DecodeOpcode(0xF00A) == Ok(StartWaitForStoreKeypressToVx)
    ensures DecodeOpcode(0xFF65) == Ok(StoreFromMemoryToV0Vx)
  {
    assert ParseOpcodeFirstMask(0x8015) == 0x8000 && ParseOpcodeN(0x8015) == 0x5;
    assert ParseOpcodeFirstMask(0xF00A) == 0xF000 && ParseOpcodeNN(0xF00A) == 0x0A;
    assert ParseOpcodeFirstMask(0xFF65) == 0xF000 && ParseOpcodeNN(0xFF65) == 0x65;
  }

  /** Class 0x0 on two words: the X nibble of 0FEE is ignored, and 00EF is rejected. */
  lemma SystemClassExamples()
    ensures DecodeOpcode(0x0FEE) == Ok(ReturnFromSubroutine)
    ensures DecodeOpcode(0x00EF) == Err(ErrorMessage(0x00EF))
  {
    assert ParseOpcodeFirstMask(0x0FEE) == 0x0000 && ParseOpcodeNN(0x0FEE) == 0xEE;
    assert ParseOpcodeFirstMask(0x00EF) == 0x0000 && ParseOpcodeNN(0x00EF) == 0xEF;
  }
}

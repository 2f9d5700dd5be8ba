/** The Kotlin instruction decoder (`OpcodeDecoder.decode`): a nested `when` on the
    instruction class and, for classes 0x0, 0x8, 0xE and 0xF, on NN or N. It builds
    the variant around the word, or throws an exception naming the word in decimal. */
module KtOpcodeDecoder {
  import opened Outcome
  import opened KtOpcode
  import opened OpcodeParser
  import Numerals

  /** `getErrorMessage`: "opcode ", the word in decimal, then " not implemented". */
  function ErrorMessage(opcode: int): (message: string)
    ensures |message| > 23 && message[..7] == "opcode "
    ensures message[|message| - 16..] == " not implemented"
    ensures message[7] == '-' <==> opcode < 0
  {
    "opcode " + Numerals.Decimal(opcode) + " not implemented"
  }

  function Decode(opcode: int): (r: Result<Opcode>)
    ensures r.Ok? ==> r.value.value == opcode
    ensures r.Err? ==> r.message == ErrorMessage(opcode)
  {
    var opcodeFirstMask := ParseOpcodeFirstMask(opcode);
    var opcodeN := ParseOpcodeN(opcode);
    var opcodeNN := ParseOpcodeNN(opcode);
    match opcodeFirstMask
    case 0x0000 =>
      (match opcodeNN
       case 0xEE => Ok(ReturnFromSubroutine(opcode))
       case _ => Err(ErrorMessage(opcode)))
    case 0x1000 => Ok(JumpToAddress(opcode))
    case 0x2000 => Ok(JumpToSubroutine(opcode))
    case 0x3000 => Ok(SkipIfVxEqualsNn(opcode))
    case 0x4000 => Ok(SkipIfVxDoesNotEqualNn(opcode))
    case 0x5000 => Ok(SkipIfVxEqualsVy(opcode))
    case 0x6000 => Ok(SetVxToNn(opcode))
    case 0x7000 => Ok(AddNnToVx(opcode))
    case 0x8000 =>
      (match opcodeN
       case 0x0 => Ok(SetVxToVy(opcode))
       case 0x1 => Ok(SetVxToBitwiseOrVy(opcode))
       case 0x2 => Ok(SetVxToBitwiseAndVy(opcode))
       case 0x3 => Ok(SetVxToBitwiseXOrVy(opcode))
       case 0x4 => Ok(AddWithCarry(opcode))
       case 0x5 => Ok(SubtractVyFromVxWithCarry(opcode))
       case 0x6 => Ok(ShiftVxRight(opcode))
       case 0x7 => Ok(SubtractVxFromVyWithCarry(opcode))
       case _ => Err(ErrorMessage(opcode)))
    case 0xA000 => Ok(LoadIndexRegister(opcode))
    case 0xB000 => Ok(JumpWithV0Offset(opcode))
    case 0xC000 => Ok(StoreRandomNumberToVx(opcode))
    case 0xD000 => Ok(DrawVxVy(opcode))
    case 0xE000 =>
      (match opcodeNN
       case 0x9E => Ok(SkipIfPressed(opcode))
       case 0xA1 => Ok(SkipIfNotPressed(opcode))
       case _ => Err(ErrorMessage(opcode)))
    case 0xF000 =>
      (match opcodeNN
       case 0x07 => Ok(StoreDelayTimerToVx(opcode))
       case 0x0A => Ok(StartWaitForStoreKeypressToVx(opcode))
       case 0x15 => Ok(StoreVxToDelayTimer(opcode))
       case 0x18 => Ok(StoreVxToSoundTimer(opcode))
       case 0x1E => Ok(AddVxToI(opcode))
       case 0x33 => Ok(StoreDecimalValueToVx(opcode))
       case 0x55 => Ok(StoreFromV0VxToMemory(opcode))
       case 0x65 => Ok(StoreFromMemoryToV0Vx(opcode))
       case _ => Err(ErrorMessage(opcode)))
    case _ => Err(ErrorMessage(opcode))
  }


  /** The offending word can be read back out of the message. */
  lemma MessageNamesOpcode(opcode: int)
    ensures Numerals.ParseEmbedded(ErrorMessage(opcode), "opcode ", " not implemented", 10)
         == Some(opcode)
  {
    Numerals.EmbeddedRoundTrip("opcode ", opcode, " not implemented", 10);
  }

  /** Class 0x0 accepts NN = 0xEE only. */
  lemma SystemClass(opcode: int)
    requires ParseOpcodeFirstMask(opcode) == 0x0000
    ensures Decode(opcode).Ok? <==> ParseOpcodeNN(opcode) == 0xEE
  {
  }

  /** Class 0x8 accepts N in 0..7 only. */
  lemma ArithmeticClass(opcode: int)
    requires ParseOpcodeFirstMask(opcode) == 0x8000
    ensures Decode(opcode).Ok? <==> ParseOpcodeN(opcode) <= 7
  {
  }

  /** Class 0x9 has no branch: every word of it is rejected. */
  lemma NoSkipIfVxNotEqualVy(opcode: int)
    requires ParseOpcodeFirstMask(opcode) == 0x9000
    ensures Decode(opcode) == Err(ErrorMessage(opcode))
  {
  }

  /** Class 0xE accepts NN in {0x9E, 0xA1} only. */
  lemma KeyClass(opcode: int)
    requires ParseOpcodeFirstMask(opcode) == 0xE000
    ensures Decode(opcode).Ok? <==> ParseOpcodeNN(opcode) in {0x9E, 0xA1}
  {
  }

  /** Class 0xF accepts eight values of NN; FX29 is not among them. */
  lemma MiscClass(opcode: int)
    requires ParseOpcodeFirstMask(opcode) == 0xF000
    ensures Decode(opcode).Ok?
        <==> ParseOpcodeNN(opcode) in {0x07, 0x0A, 0x15, 0x18, 0x1E, 0x33, 0x55, 0x65}
  {
  }

  /** Classes 0x1-0x7 and 0xA-0xD decode unconditionally, to a variant fixed by the class. */
  lemma PlainClassesIgnoreLowBits(a: int, b: int)
    requires ParseOpcodeFirstMask(a) == ParseOpcodeFirstMask(b)
    requires ParseOpcodeFirstMask(a) / 0x1000 in {1, 2, 3, 4, 5, 6, 7, 0xA, 0xB, 0xC, 0xD}
    ensures Decode(a).Ok? && Decode(b).Ok?
    ensures Decode(a).value.(value := b) == Decode(b).value
  {
  }

  /** Words the decoder's tests decode. */
  lemma DecoderExamples()
    ensures Decode(0x00EE) == Ok(ReturnFromSubroutine(0x00EE))
    ensures Decode(0x8234) == Ok(AddWithCarry(0x8234))
    ensures Decode(0x8006) == Ok(ShiftVxRight(0x8006))
    ensures Decode(0xF00A) == Ok(StartWaitForStoreKeypressToVx(0xF00A))
  {
    assert ParseOpcodeFirstMask(0x00EE) == 0x0000 && ParseOpcodeNN(0x00EE) == 0xEE;
    assert ParseOpcodeFirstMask(0x8234) == 0x8000 && ParseOpcodeN(0x8234) == 0x4;
    assert ParseOpcodeFirstMask(0x8006) == 0x8000 && ParseOpcodeN(0x8006) == 0x6;
    assert ParseOpcodeFirstMask(0xF00A) == 0xF000 && ParseOpcodeNN(0xF00A) == 0x0A;
  }

  /** Class-0x0 words rejected: 00EF, 0008, 00A2 and 0066, which the decoder's tests expect to
      throw, and 00E0 (clear display), whose test is disabled. */
  lemma RejectedSystemExamples()
    ensures Decode(0x00EF).Err? && Decode(0x0008).Err? && Decode(0x00A2).Err? && Decode(0x0066).Err?
  {
    assert ParseOpcodeFirstMask(0x00EF) == 0x0000 && ParseOpcodeNN(0x00EF) == 0xEF;
    assert ParseOpcodeFirstMask(0x0008) == 0x0000 && ParseOpcodeNN(0x0008) == 0x08;
    assert ParseOpcodeFirstMask(0x00A2) == 0x0000 && ParseOpcodeNN(0x00A2) == 0xA2;
    assert ParseOpcodeFirstMask(0x0066) == 0x0000 && ParseOpcodeNN(0x0066) == 0x66;
  }

  /** 00E0 (clear the display) has no handler: class 0 accepts only EE in NN, so it throws. */
  lemma ClearDisplayRejected()
    ensures Decode(0x00E0) == Err(ErrorMessage(0x00E0))
  {
    assert ParseOpcodeFirstMask(0x00E0) == 0x0000 && ParseOpcodeNN(0x00E0) == 0xE0;
  }

  /** 9000, which the decoder's tests expect it to reject. */
  lemma RejectedOtherExamples()
    ensures Decode(0x9000) == Err(ErrorMessage(0x9000))
  {
    assert ParseOpcodeFirstMask(0x9000) == 0x9000;
  }

  /** 801E and F029, which only the TypeScript decoder accepts. */
  lemma TsOnlyExamples()
    ensures Decode(0x801E).Err? && Decode(0xF029).Err?
  {
    assert ParseOpcodeFirstMask(0x801E) == 0x8000 && ParseOpcodeN(0x801E) == 0xE;
    assert ParseOpcodeFirstMask(0xF029) == 0xF000 && ParseOpcodeNN(0xF029) == 0x29;
  }
}

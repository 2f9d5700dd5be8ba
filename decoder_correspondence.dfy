/** How the Kotlin and the TypeScript decoders relate: the Kotlin one accepts a subset of
    the words the TypeScript one accepts, and names the same instruction when it does. */
module DecoderCorrespondence {
  import opened Outcome
  import K = KtOpcode
  import KtOpcodeDecoder
  import TsOpcodeDecoder
  import OpcodeParser
  import OpcodeReader

  /** The TypeScript enumeration constant with the same meaning as a Kotlin variant. */
  function TsName(op: K.Opcode): TsOpcodeDecoder.Opcodes
  {
    match op
    case ReturnFromSubroutine(_) => TsOpcodeDecoder.ReturnFromSubroutine
    case JumpToAddress(_) => TsOpcodeDecoder.JumpToAddress
    case JumpToSubroutine(_) => TsOpcodeDecoder.JumpToSubroutine
    case SkipIfVxEqualsNn(_) => TsOpcodeDecoder.SkipIfVxEqualsNn
    case SkipIfVxDoesNotEqualNn(_) => TsOpcodeDecoder.SkipIfVxDoesNotEqualNn
    case SkipIfVxEqualsVy(_) => TsOpcodeDecoder.SkipIfVxEqualsVy
    case SetVxToNn(_) => TsOpcodeDecoder.SetVxToNn
    case AddNnToVx(_) => TsOpcodeDecoder.AddNnToVx
    case SetVxToVy(_) => TsOpcodeDecoder.SetVxToVy
    case SetVxToBitwiseOrVy(_) => TsOpcodeDecoder.SetVxToBitwiseOrVy
    case SetVxToBitwiseAndVy(_) => TsOpcodeDecoder.SetVxToBitwiseAndVy
    case SetVxToBitwiseXOrVy(_) => TsOpcodeDecoder.SetVxToBitwiseXOrVy
    case AddWithCarry(_) => TsOpcodeDecoder.AddWithCarry
    case SubtractVyFromVxWithCarry(_) => TsOpcodeDecoder.SubtractVyFromVxWithCarry
    case ShiftVxRight(_) => TsOpcodeDecoder.ShiftRightVxVy
    case SubtractVxFromVyWithCarry(_) => TsOpcodeDecoder.SubtractVxFromVyWithCarry
    case LoadIndexRegister(_) => TsOpcodeDecoder.LoadIndexRegister
    case JumpWithV0Offset(_) => TsOpcodeDecoder.JumpWithV0Offset
    case StoreRandomNumberToVx(_) => TsOpcodeDecoder.StoreRandomNumberToVx
    case DrawVxVy(_) => TsOpcodeDecoder.DrawVxVy
    case SkipIfPressed(_) => TsOpcodeDecoder.SkipIfPressed
    case SkipIfNotPressed(_) => TsOpcodeDecoder.SkipIfNotPressed
    case StoreDelayTimerToVx(_) => TsOpcodeDecoder.StoreDelayTimerToVx
    case StartWaitForStoreKeypressToVx(_) => TsOpcodeDecoder.StartWaitForStoreKeypressToVx
    case StoreVxToDelayTimer(_) => TsOpcodeDecoder.StoreVxToDelayTimer
    case StoreVxToSoundTimer(_) => TsOpcodeDecoder.StoreVxToSoundTimer
    case AddVxToI(_) => TsOpcodeDecoder.AddVxToI
    case StoreDecimalValueToVx(_) => TsOpcodeDecoder.StoreDecimalValueToVx
    case StoreFromV0VxToMemory(_) => TsOpcodeDecoder.StoreFromV0VxToMemory
    case StoreFromMemoryToV0Vx(_) => TsOpcodeDecoder.StoreFromMemoryToV0Vx
  }

  /** Every word the Kotlin decoder accepts, the TypeScript decoder accepts too, with the
      same-named instruction. */
  lemma KotlinAcceptedImpliesTs(opcode: int)
    requires KtOpcodeDecoder.Decode(opcode).Ok?
    ensures TsOpcodeDecoder.DecodeOpcode(opcode) == Ok(TsName(KtOpcodeDecoder.Decode(opcode).value))
  {
    OpcodeParser.AgreesWithReader(opcode);
  }

  /** The words only the TypeScript decoder accepts: 00E0 (with any X), 8XYE, every word of
      class 0x9 and FX29. */
  predicate TsOnly(opcode: int)
  {
    var firstMask := OpcodeReader.ParseOpcodeFirstMask(opcode);
    (firstMask == 0x0000 && OpcodeReader.ParseOpcodeNN(opcode) == 0xE0)
    || (firstMask == 0x8000 && OpcodeReader.ParseOpcodeN(opcode) == 0xE)
    || firstMask == 0x9000
    || (firstMask == 0xF000 && OpcodeReader.ParseOpcodeNN(opcode) == 0x29)
  }

  /** The TypeScript decoder accepts a word the Kotlin decoder rejects exactly for TsOnly. */
  lemma TsAcceptsExactlyMore(opcode: int)
    ensures TsOpcodeDecoder.DecodeOpcode(opcode).Ok? && KtOpcodeDecoder.Decode(opcode).Err?
        <==> TsOnly(opcode)
  {
    OpcodeParser.AgreesWithReader(opcode);
  }
}

/** The instruction variants of the Kotlin CPU. Each variant carries the word it was
    decoded from in `value`, which the CPU's handlers read their operands from. */
module KtOpcode {

  datatype Opcode =
    | ReturnFromSubroutine(value: int)
    | JumpToAddress(value: int)
    | JumpToSubroutine(value: int)
    | SkipIfVxEqualsNn(value: int)
    | SkipIfVxDoesNotEqualNn(value: int)
    | SkipIfVxEqualsVy(value: int)
    | SetVxToNn(value: int)
    | AddNnToVx(value: int)
    | SetVxToVy(value: int)
    | SetVxToBitwiseOrVy(value: int)
    | SetVxToBitwiseAndVy(value: int)
    | SetVxToBitwiseXOrVy(value: int)
    | AddWithCarry(value: int)
    | SubtractVyFromVxWithCarry(value: int)
    | ShiftVxRight(value: int)
    | SubtractVxFromVyWithCarry(value: int)
    | LoadIndexRegister(value: int)
    | JumpWithV0Offset(value: int)
    | StoreRandomNumberToVx(value: int)
    | DrawVxVy(value: int)
    | SkipIfPressed(value: int)
    | SkipIfNotPressed(value: int)
    | StoreDelayTimerToVx(value: int)
    | StartWaitForStoreKeypressToVx(value: int)
    | StoreVxToDelayTimer(value: int)
    | StoreVxToSoundTimer(value: int)
    | AddVxToI(value: int)
    | StoreDecimalValueToVx(value: int)
    | StoreFromV0VxToMemory(value: int)
    | StoreFromMemoryToV0Vx(value: int)
}

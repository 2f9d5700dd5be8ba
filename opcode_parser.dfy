/** The Kotlin instruction parser (the `OpcodeParser` object of the cpu component): the
    same six field extractors as the TypeScript reader, with `and`/`shr` on `Int`.
    Fields are written as arithmetic, as in OpcodeReader; MatchesMasks ties them to the
    bitwise expressions. */
module OpcodeParser {
  import opened Bits
  import OpcodeReader

  /** `opcode and 0xF000`. */
  function ParseOpcodeFirstMask(opcode: int): (firstMask: int)
    ensures 0 <= firstMask <= 0xF000 && firstMask % 0x1000 == 0
  {
    (opcode / 0x1000) % 0x10 * 0x1000
  }

  /** `(opcode and 0x0F00) shr 8`. */
  function ParseOpcodeVX(opcode: int): (vX: int)
    ensures 0 <= vX <= 0xF
  {
    (opcode / 0x100) % 0x10
  }

  /** `(opcode and 0x00F0) shr 4`. */
  function ParseOpcodeVY(opcode: int): (vY: int)
    ensures 0 <= vY <= 0xF
  {
    (opcode / 0x10) % 0x10
  }

  /** `opcode and 0x000F`. */
  function ParseOpcodeN(opcode: int): (n: int)
    ensures 0 <= n <= 0xF
  {
    opcode % 0x10
  }

  /** `opcode and 0x00FF`. */
  function ParseOpcodeNN(opcode: int): (nn: int)
    ensures 0 <= nn <= 0xFF
  {
    opcode % 0x100
  }

  /** `opcode and 0x0FFF`. */
  function ParseOpcodeNNN(opcode: int): (nnn: int)
    ensures 0 <= nnn <= 0xFFF
  {
    opcode % 0x1000
  }

  /** Each extractor is the source's `and`/`shr` expression on the word's bits. */
  lemma MatchesMasks(opcode: int)
    ensures ParseOpcodeFirstMask(opcode) == And(opcode, 0xF000)
    ensures ParseOpcodeVX(opcode) == ShiftRight(And(opcode, 0x0F00), 8)
    ensures ParseOpcodeVY(opcode) == ShiftRight(And(opcode, 0x00F0), 4)
    ensures ParseOpcodeN(opcode) == And(opcode, 0x000F)
    ensures ParseOpcodeNN(opcode) == And(opcode, 0x00FF)
    ensures ParseOpcodeNNN(opcode) == And(opcode, 0x0FFF)
  {
    OpcodeReader.MatchesMasks(opcode);
  }

  /** The Kotlin parser and the TypeScript reader agree field by field on every word. */
  lemma AgreesWithReader(opcode: int)
    ensures ParseOpcodeFirstMask(opcode) == OpcodeReader.ParseOpcodeFirstMask(opcode)
    ensures ParseOpcodeVX(opcode) == OpcodeReader.ParseOpcodeVX(opcode)
    ensures ParseOpcodeVY(opcode) == OpcodeReader.ParseOpcodeVY(opcode)
    ensures ParseOpcodeN(opcode) == OpcodeReader.ParseOpcodeN(opcode)
    ensures ParseOpcodeNN(opcode) == OpcodeReader.ParseOpcodeNN(opcode)
    ensures ParseOpcodeNNN(opcode) == OpcodeReader.ParseOpcodeNNN(opcode)
  {
  }

  /** The narrower fields are the low parts of the wider ones, for every integer. */
  lemma FieldConsistency(opcode: int)
    ensures ParseOpcodeNN(opcode) == ParseOpcodeVY(opcode) * 16 + ParseOpcodeN(opcode)
    ensures ParseOpcodeNNN(opcode) == ParseOpcodeVX(opcode) * 256 + ParseOpcodeNN(opcode)
  {
    AgreesWithReader(opcode);
    OpcodeReader.FieldConsistency(opcode);
  }

  /** A 16-bit word is its class plus its three lower nibbles in place. */
  lemma Recomposition(opcode: int)
    requires 0 <= opcode <= 0xFFFF
    ensures opcode == ParseOpcodeFirstMask(opcode) + ParseOpcodeVX(opcode) * 256
                      + ParseOpcodeVY(opcode) * 16 + ParseOpcodeN(opcode)
  {
    AgreesWithReader(opcode);
    OpcodeReader.Recomposition(opcode);
  }

  /** The field values the parser's tests expect. */
  lemma ParserExamples()
    ensures ParseOpcodeFirstMask(0xE000) == 0xE000
    ensures ParseOpcodeVX(0x0F00) == 0xF
    ensures ParseOpcodeVY(0x00F0) == 0xF
    ensures ParseOpcodeN(0x000F) == 0xF
    ensures ParseOpcodeNN(0x00FF) == 0xFF
    ensures ParseOpcodeNNN(0x0FFF) == 0xFFF
  {
  }
}

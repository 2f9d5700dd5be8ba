/** The TypeScript instruction reader (src/opcodeReader.ts): six total bit-field
    extractors over an instruction word.

    Each field is written as the arithmetic it amounts to (a floor division that
    brings the field's lowest bit down, then a remainder that keeps its width), which
    the verifier evaluates cheaply; MatchesMasks proves that each one equals the
    source's mask-and-shift expression on the two's-complement bits, for every integer. */
module OpcodeReader {
  import opened Bits

  /** `opcode & 0xF000`: the instruction class, the top nibble left in place. */
  function ParseOpcodeFirstMask(opcode: int): (firstMask: int)
    ensures 0 <= firstMask <= 0xF000 && firstMask % 0x1000 == 0
  {
    (opcode / 0x1000) % 0x10 * 0x1000
  }

  /** `(opcode & 0x0F00) >> 8`: the first register selector. */
  function ParseOpcodeVX(opcode: int): (vX: int)
    ensures 0 <= vX <= 0xF
  {
    (opcode / 0x100) % 0x10
  }

  /** `(opcode & 0x00F0) >> 4`: the second register selector. */
  function ParseOpcodeVY(opcode: int): (vY: int)
    ensures 0 <= vY <= 0xF
  {
    (opcode / 0x10) % 0x10
  }

  /** `opcode & 0x000F`: the 4-bit immediate. */
  function ParseOpcodeN(opcode: int): (n: int)
    ensures 0 <= n <= 0xF
  {
    opcode % 0x10
  }

  /** `opcode & 0x00FF`: the 8-bit immediate. */
  function ParseOpcodeNN(opcode: int): (nn: int)
    ensures 0 <= nn <= 0xFF
  {
    opcode % 0x100
  }

  /** `opcode & 0x0FFF`: the 12-bit address. */
  function ParseOpcodeNNN(opcode: int): (nnn: int)
    ensures 0 <= nnn <= 0xFFF
  {
    opcode % 0x1000
  }

  lemma Powers()
    ensures Pow2(4) == 0x10 && Pow2(8) == 0x100 && Pow2(12) == 0x1000
  {
  }

  /** Each extractor is the source's mask-and-shift on the word's bits, for every integer. */
  lemma MatchesMasks(opcode: int)
    ensures ParseOpcodeFirstMask(opcode) == And(opcode, 0xF000)
    ensures ParseOpcodeVX(opcode) == ShiftRight(And(opcode, 0x0F00), 8)
    ensures ParseOpcodeVY(opcode) == ShiftRight(And(opcode, 0x00F0), 4)
    ensures ParseOpcodeN(opcode) == And(opcode, 0x000F)
    ensures ParseOpcodeNN(opcode) == And(opcode, 0x00FF)
    ensures ParseOpcodeNNN(opcode) == And(opcode, 0x0FFF)
  {
    Powers();
    FieldMask(opcode, 12, 4);
    FieldMask(opcode, 8, 4);
    FieldMask(opcode, 4, 4);
    AndLowMask(opcode, 4);
    AndLowMask(opcode, 8);
    AndLowMask(opcode, 12);
  }

  /** The narrower fields are the low parts of the wider ones, for every integer. */
  lemma FieldConsistency(opcode: int)
    ensures ParseOpcodeNN(opcode) == ParseOpcodeVY(opcode) * 16 + ParseOpcodeN(opcode)
    ensures ParseOpcodeNNN(opcode) == ParseOpcodeVX(opcode) * 256 + ParseOpcodeNN(opcode)
  {
    ModSplit(opcode, 16, 16);
    ModSplit(opcode, 256, 16);
  }

  /** A 16-bit word is its class plus its three lower nibbles in place. */
  lemma Recomposition(opcode: int)
    requires 0 <= opcode <= 0xFFFF
    ensures opcode == ParseOpcodeFirstMask(opcode) + ParseOpcodeVX(opcode) * 256
                      + ParseOpcodeVY(opcode) * 16 + ParseOpcodeN(opcode)
  {
    FieldConsistency(opcode);
    ModSplit(opcode, 4096, 16);
  }

  /** The field values the reader's tests expect. */
  lemma ReaderExamples()
    ensures ParseOpcodeFirstMask(0xE000) == 0xE000
    ensures ParseOpcodeVX(0x0F00) == 0xF
    ensures ParseOpcodeVY(0x00F0) == 0xF
    ensures ParseOpcodeN(0x000F) == 0xF
    ensures ParseOpcodeNN(0x00FF) == 0xFF
    ensures ParseOpcodeNNN(0x0FFF) == 0xFFF
  {
  }
}

/// The addressing-mode type of nes/src/cpu/addr.rs and its byte counts.
module CpuAddr {
  import Opcode

  /// `AddressingMode::bytes`: the instruction length, opcode byte included.
  function Bytes(mode: Opcode.AddressingMode): (n: nat)
    ensures n == 1 <==> mode == Opcode.Implicit || mode == Opcode.Accumulator
    ensures n == 3 <==>
      (mode == Opcode.Absolute || mode == Opcode.Absolute_X || mode == Opcode.Absolute_Y ||
       mode == Opcode.Indirect)
    ensures n == 2 <==>
      (mode == Opcode.Immediate || mode == Opcode.ZeroPage || mode == Opcode.ZeroPage_X ||
       mode == Opcode.ZeroPage_Y || mode == Opcode.Relative || mode == Opcode.Indirect_X ||
       mode == Opcode.Indirect_Y)
  {
    match mode
    case Implicit => 1
    case Accumulator => 1
    case Immediate => 2
    case ZeroPage => 2
    case ZeroPage_X => 2
    case ZeroPage_Y => 2
    case Relative => 2
    case Absolute => 3
    case Absolute_X => 3
    case Absolute_Y => 3
    case Indirect => 3
    case Indirect_X => 2
    case Indirect_Y => 2
  }

  /// The byte count agrees with the length `OpCode::new` derives.
  lemma BytesAgreesWithLen(mode: Opcode.AddressingMode)
    ensures Bytes(mode) == Opcode.Len(mode)
  {
  }
}

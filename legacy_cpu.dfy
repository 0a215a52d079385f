/// The first-generation CPU (src/cpu/cpu.rs): registers over the legacy
/// bus, the operand address of each addressing mode, and the program
/// counter's advance over one instruction.  The file names `OpCode` and
/// modes such as `ZeroPage_X`, which the legacy decoder spells without the
/// underscore and returns as a pair; its `len` is one more than the mode's
/// `extra_bytes`.
module LegacyCpu {
  import opened Tools
  import opened LegacyInstruction
  import opened LegacyBus
  import CpuBus
  import Opcode

  const STACK: u16 := 0x0100
  const STACK_RESET: u8 := 0xFD

  /// `Flags::from_bits_truncate(0b0010_0100)`: UNUSED and
  /// INTERRUPT_DISABLE.
  const POWER_UP_STATUS: byte := 0x24

  /// The word at `lo_addr` and `hi_addr`, when both can be read.
  function WordAt(ram: seq<byte>, loAddr: u16, hiAddr: u16): (r: Option<u16>)
    requires |ram| == 2048
    ensures r.Some? <==> RamRead(ram, loAddr).Some? && RamRead(ram, hiAddr).Some?
  {
    var lo := RamRead(ram, loAddr);
    var hi := RamRead(ram, hiAddr);
    if lo.Some? && hi.Some? then Some(BytesToU16([lo.value, hi.value])) else None
  }

  /// `mem_read_u16` at the program counter; its `pos + 1` overflows at
  /// 0xFFFF.
  function WordAtPc(ram: seq<byte>, pc: u16): Option<u16>
    requires |ram| == 2048
  {
    if pc == 0xFFFF then None else WordAt(ram, pc, pc + 1)
  }

  /// ZeroPage_X and ZeroPage_Y: the operand byte plus the index, wrapping
  /// in page zero.
  function ZeroPageIndexed(ram: seq<byte>, pc: u16, index: byte): Option<u16>
    requires |ram| == 2048
  {
    var b := RamRead(ram, pc);
    if b.Some? then Some((b.value as int + index as int) % 256) else None
  }

  /// Absolute_X and Absolute_Y: the word at the program counter plus the
  /// index, wrapping at 0xFFFF.
  function AbsoluteIndexed(ram: seq<byte>, pc: u16, index: byte): Option<u16>
    requires |ram| == 2048
  {
    var base := WordAtPc(ram, pc);
    if base.Some? then Some(WrapAdd16(base.value, index as int)) else None
  }

  /// Indirect_X: the word at the zero-page pointer operand + X, its two
  /// bytes read with zero-page wrap.
  function PreIndexed(ram: seq<byte>, pc: u16, x: byte): Option<u16>
    requires |ram| == 2048
  {
    var b := RamRead(ram, pc);
    if b.None? then None
    else
      var ptr := (b.value as int + x as int) % 256;
      WordAt(ram, ptr, (ptr + 1) % 256)
  }

  /// Indirect_Y: the word at the zero-page pointer operand, plus Y with
  /// 16-bit wrap.
  function PostIndexed(ram: seq<byte>, pc: u16, y: byte): Option<u16>
    requires |ram| == 2048
  {
    var b := RamRead(ram, pc);
    if b.None? then None
    else
      var derefBase := WordAt(ram, b.value as int, (b.value as int + 1) % 256);
      if derefBase.Some? then Some(WrapAdd16(derefBase.value, y as int)) else None
  }

  /// `get_operand_address` over a RAM image; None where the source
  /// panics: on the modes it does not support, on a read in the PPU
  /// window, and where `pos + 1` overflows in `mem_read_u16`.
  function OperandAddressIn(ram: seq<byte>, mode: AddressingMode, pc: u16, x: byte, y: byte): (r: Option<u16>)
    requires |ram| == 2048
  {
    match mode
    case Immediate => Some(pc)
    case ZeroPage =>
      var b := RamRead(ram, pc);
      if b.Some? then Some(b.value as int) else None
    case Absolute => WordAtPc(ram, pc)
    case ZeroPageX => ZeroPageIndexed(ram, pc, x)
    case ZeroPageY => ZeroPageIndexed(ram, pc, y)
    case AbsoluteX => AbsoluteIndexed(ram, pc, x)
    case AbsoluteY => AbsoluteIndexed(ram, pc, y)
    case IndirectX => PreIndexed(ram, pc, x)
    case IndirectY => PostIndexed(ram, pc, y)
    case _ => None
  }

  /// The 64 KiB view of a legacy RAM image: RAM in its four mirrors and
  /// zero elsewhere.
  function RamImage(ram: seq<byte>): (m: CpuBus.Memory)
    requires |ram| == 2048
    ensures forall a: u16 | a <= RAM_MIRRORS_END :: m[a] == ram[a % 0x800]
  {
    seq(0x1_0000, i requires 0 <= i < 0x1_0000 => if i <= RAM_MIRRORS_END then ram[i % 0x800] else 0)
  }

  /// The modes it supports are the current CPU's, and wherever the legacy
  /// CPU answers (the reads stay out of the PPU window) it answers the
  /// address the current CPU's `get_operand_address` computes over the same
  /// memory, the pointer reads of the indirect modes wrapping in page zero.
  lemma AgreesWithCurrentCpu(ram: seq<byte>, mode: AddressingMode, pc: u16, x: byte, y: byte)
    requires |ram| == 2048
    requires mode != Implicit && mode != Accumulator && mode != Relative && mode != Indirect
    requires OperandAddressIn(ram, mode, pc, x, y).Some?
    ensures OperandAddressIn(ram, mode, pc, x, y).value ==
      Opcode.OperandAddress(CurrentMode(mode), pc, x, y, RamImage(ram)).0
  {
    if mode == Absolute || mode == AbsoluteX || mode == AbsoluteY {
      AbsoluteAgrees(ram, mode, pc, x, y);
    } else if mode == ZeroPage || mode == ZeroPageX || mode == ZeroPageY {
      ZeroPageAgrees(ram, mode, pc, x, y);
    } else if mode == IndirectX {
      IndirectXAgrees(ram, pc, x, y);
    } else if mode == IndirectY {
      IndirectYAgrees(ram, pc, x, y);
    }
  }

  /// Where the legacy bus answers a read, the image holds the same byte.
  lemma ImageReads(ram: seq<byte>, a: u16)
    requires |ram| == 2048
    ensures RamRead(ram, a).Some? ==> RamImage(ram)[a] == RamRead(ram, a).value
  {
  }

  lemma AbsoluteAgrees(ram: seq<byte>, mode: AddressingMode, pc: u16, x: byte, y: byte)
    requires |ram| == 2048
    requires mode == Absolute || mode == AbsoluteX || mode == AbsoluteY
    requires OperandAddressIn(ram, mode, pc, x, y).Some?
    ensures OperandAddressIn(ram, mode, pc, x, y).value ==
      Opcode.OperandAddress(CurrentMode(mode), pc, x, y, RamImage(ram)).0
  {
    ImageReads(ram, pc);
    ImageReads(ram, pc + 1);
    assert WrapAdd16(pc, 1) == pc + 1;
    assert CpuBus.ReadU16(RamImage(ram), pc) == WordAt(ram, pc, pc + 1).value;
  }

  lemma ZeroPageAgrees(ram: seq<byte>, mode: AddressingMode, pc: u16, x: byte, y: byte)
    requires |ram| == 2048
    requires mode == ZeroPage || mode == ZeroPageX || mode == ZeroPageY
    requires OperandAddressIn(ram, mode, pc, x, y).Some?
    ensures OperandAddressIn(ram, mode, pc, x, y).value ==
      Opcode.OperandAddress(CurrentMode(mode), pc, x, y, RamImage(ram)).0
  {
    ImageReads(ram, pc);
  }

  lemma IndirectXAgrees(ram: seq<byte>, pc: u16, x: byte, y: byte)
    requires |ram| == 2048
    requires OperandAddressIn(ram, IndirectX, pc, x, y).Some?
    ensures OperandAddressIn(ram, IndirectX, pc, x, y).value ==
      Opcode.OperandAddress(Opcode.Indirect_X, pc, x, y, RamImage(ram)).0
  {
    var m := RamImage(ram);
    ImageReads(ram, pc);
    forall a: nat | a < 0x100
      ensures m[a] == ram[a]
    {
      ImageLow(ram, a);
    }
    IndirectXOver(ram, m, pc, x, y);
  }

  /// Indirect_X over any memory whose page zero is the RAM's and whose byte
  /// at the program counter is the one the legacy bus reads there.
  lemma IndirectXOver(ram: seq<byte>, m: CpuBus.Memory, pc: u16, x: byte, y: byte)
    requires |ram| == 2048 && RamRead(ram, pc) == Some(m[pc])
    requires forall a: nat | a < 0x100 :: m[a] == ram[a]
    ensures PreIndexed(ram, pc, x) == Some(Opcode.OperandAddress(Opcode.Indirect_X, pc, x, y, m).0)
  {
    var ptr := (m[pc] as int + x as int) % 256;
    LegacyWord(ram, pc, x, ptr, m[ptr], m[(ptr + 1) % 256]);
    CurrentIndirectX(m, pc, x, y);
  }

  /// The legacy Indirect_X address is the page-zero word at the pointer.
  lemma LegacyWord(ram: seq<byte>, pc: u16, x: byte, ptr: nat, lo: byte, hi: byte)
    requires |ram| == 2048 && RamRead(ram, pc).Some?
    requires ptr == (RamRead(ram, pc).value as int + x as int) % 256
    requires ram[ptr] == lo && ram[(ptr + 1) % 256] == hi
    ensures PreIndexed(ram, pc, x) == Some(BytesToU16([lo, hi]))
  {
    LegacyIndirectX(ram, pc, x);
    ZeroPageWord(ram, ptr);
  }

  /// The first mirror of the image is RAM itself.
  lemma ImageLow(ram: seq<byte>, a: nat)
    requires |ram| == 2048 && a < 0x800
    ensures RamImage(ram)[a] == ram[a]
  {
    assert a % 0x800 == a;
  }

  lemma CurrentIndirectX(m: CpuBus.Memory, pc: u16, x: byte, y: byte)
    ensures var ptr := (m[pc] as int + x as int) % 256;
      Opcode.OperandAddress(Opcode.Indirect_X, pc, x, y, m).0 == BytesToU16([m[ptr], m[(ptr + 1) % 256]])
  {
  }

  lemma LegacyIndirectX(ram: seq<byte>, pc: u16, x: byte)
    requires |ram| == 2048 && RamRead(ram, pc).Some?
    ensures var ptr := (RamRead(ram, pc).value as int + x as int) % 256;
      PreIndexed(ram, pc, x) == WordAt(ram, ptr, (ptr + 1) % 256)
  {
  }

  /// A word in page zero: both bytes come from RAM, the second wrapping
  /// to 0x00 after 0xFF.
  lemma ZeroPageWord(ram: seq<byte>, ptr: nat)
    requires |ram| == 2048 && ptr < 0x100
    ensures WordAt(ram, ptr, (ptr + 1) % 256) == Some(BytesToU16([ram[ptr], ram[(ptr + 1) % 256]]))
  {
    ZeroPageCell(ram, ptr);
    ZeroPageCell(ram, (ptr + 1) % 256);
  }

  /// A zero-page address reads its own RAM cell.
  lemma ZeroPageCell(ram: seq<byte>, a: nat)
    requires |ram| == 2048 && a < 0x100
    ensures RamRead(ram, a) == Some(ram[a])
  {
    assert MirrorDown(a) == a;
  }

  lemma IndirectYAgrees(ram: seq<byte>, pc: u16, x: byte, y: byte)
    requires |ram| == 2048
    requires OperandAddressIn(ram, IndirectY, pc, x, y).Some?
    ensures OperandAddressIn(ram, IndirectY, pc, x, y).value ==
      Opcode.OperandAddress(Opcode.Indirect_Y, pc, x, y, RamImage(ram)).0
  {
    var m := RamImage(ram);
    ImageReads(ram, pc);
    var b := m[pc] as int;
    var word := BytesToU16([m[b], m[(b + 1) % 256]]);
    assert Opcode.OperandAddress(Opcode.Indirect_Y, pc, x, y, m).0 == WrapAdd16(word, y as int);
    assert OperandAddressIn(ram, IndirectY, pc, x, y).value == WrapAdd16(WordAt(ram, b, (b + 1) % 256).value, y as int);
  }

  /// Every mode the source leaves to its panic arm has no operand address.
  lemma UnsupportedModes(ram: seq<byte>, pc: u16, x: byte, y: byte)
    requires |ram| == 2048
    ensures OperandAddressIn(ram, Implicit, pc, x, y).None? && OperandAddressIn(ram, Accumulator, pc, x, y).None?
    ensures OperandAddressIn(ram, Relative, pc, x, y).None? && OperandAddressIn(ram, Indirect, pc, x, y).None?
  {
  }

  /// Zero-page indexing stays in page zero; from a program counter in RAM
  /// every supported mode except the absolute ones answers.
  lemma ZeroPageModes(ram: seq<byte>, mode: AddressingMode, pc: u16, x: byte, y: byte)
    requires |ram| == 2048 && pc <= RAM_MIRRORS_END
    requires mode == ZeroPage || mode == ZeroPageX || mode == ZeroPageY || mode == IndirectX || mode == IndirectY
    ensures OperandAddressIn(ram, mode, pc, x, y).Some?
    ensures mode != IndirectX && mode != IndirectY ==> OperandAddressIn(ram, mode, pc, x, y).value < 0x100
  {
  }

  /// The program counter after `step`: past the opcode, then past the
  /// operand bytes (`len - 1`), since nothing in between moves it.  None
  /// where the source panics: a byte in the PPU window or without a
  /// decoder arm, or a program counter that overflows.
  function StepPc(ram: seq<byte>, pc: u16): (r: Option<u16>)
    requires |ram| == 2048
  {
    var code := RamRead(ram, pc);
    if code.None? || pc == 0xFFFF then None
    else
      var decoded := Decode(code.value as int);
      if decoded.None? then None
      else
        var next := pc + 1 + ExtraBytes(decoded.value.1);
        if next > 0xFFFF then None else Some(next)
  }

  /// An instruction of `len` bytes moves the program counter by `len`,
  /// which is the current CPU's length for the same mode.
  lemma StepAdvancesByLength(ram: seq<byte>, pc: u16)
    requires |ram| == 2048 && StepPc(ram, pc).Some?
    ensures var (_, mode) := Decode(RamRead(ram, pc).value as int).value;
      StepPc(ram, pc).value == pc + Opcode.Len(CurrentMode(mode))
  {
    var (_, mode) := Decode(RamRead(ram, pc).value as int).value;
    ExtraBytesAgreesWithLen(mode);
  }

  /// `CPU`.
  class Cpu {
    var accumulator: byte
    var indexX: byte
    var indexY: byte
    var stackPointer: u8
    var programCounter: u16
    var status: byte
    const bus: Bus

    /// `new`.
    constructor ()
      ensures bus.Valid() && fresh(bus) && fresh(bus.cpuVram)
      ensures forall i | 0 <= i < 2048 :: bus.cpuVram[i] == 0
      ensures accumulator == 0 && indexX == 0 && indexY == 0
      ensures stackPointer == STACK_RESET && programCounter == 0 && status == POWER_UP_STATUS
    {
      accumulator := 0;
      indexX := 0;
      indexY := 0;
      stackPointer := STACK_RESET;
      programCounter := 0;
      status := POWER_UP_STATUS;
      bus := new Bus();
    }

    /// `get_operand_address`.
    function OperandAddress(mode: AddressingMode): Option<u16>
      reads this, bus, bus.cpuVram
      requires bus.Valid()
    {
      OperandAddressIn(bus.cpuVram[..], mode, programCounter, indexX, indexY)
    }

    /// `step`: only the program counter moves.
    method Step()
      requires bus.Valid() && StepPc(bus.cpuVram[..], programCounter).Some?
      modifies this
      ensures programCounter == StepPc(old(bus.cpuVram[..]), old(programCounter)).value
      ensures accumulator == old(accumulator) && indexX == old(indexX) && indexY == old(indexY)
      ensures stackPointer == old(stackPointer) && status == old(status)
    {
      var code := bus.MemRead(programCounter).value;
      programCounter := programCounter + 1;
      var programCounterState := programCounter;
      var (_, mode) := Decode(code as int).value;
      if programCounterState == programCounter {
        programCounter := programCounter + ExtraBytes(mode);
      }
    }
  }
}

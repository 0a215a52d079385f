/// The first-generation CPU bus (src/bus/mod.rs): 2 KiB of RAM mirrored
/// four times over 0x0000-0x1FFF, a PPU register window that is not
/// implemented yet, and nothing else.
module LegacyBus {
  import opened Tools

  const RAM: u16 := 0x0000
  const RAM_MIRRORS_END: u16 := 0x1FFF
  const PPU_REGISTERS: u16 := 0x2000
  const PPU_REGISTERS_MIRRORS_END: u16 := 0x3FFF

  /// `addr & 0b0000_0111_1111_1111`: the RAM cell behind a mirrored address.
  function MirrorDown(addr: u16): (i: nat)
    ensures i < 0x800 && i == addr % 0x800
  {
    addr % 0x800
  }

  predicate InPpuWindow(addr: u16) {
    PPU_REGISTERS <= addr <= PPU_REGISTERS_MIRRORS_END
  }

  class Bus {
    var cpuVram: array<byte>

    ghost predicate Valid()
      reads this
    {
      cpuVram.Length == 2048
    }

    /// `new`: all RAM zero.
    constructor ()
      ensures Valid() && fresh(cpuVram)
      ensures forall i | 0 <= i < 2048 :: cpuVram[i] == 0
    {
      cpuVram := new byte[2048](_ => 0);
    }

    /// `mem_read`: RAM through the mirror, None where the PPU window's
    /// `todo!()` panics, and 0 elsewhere.
    function MemRead(addr: u16): (r: Option<byte>)
      requires Valid()
      reads this, cpuVram
      ensures r.None? <==> InPpuWindow(addr)
      ensures addr <= RAM_MIRRORS_END ==> r == Some(cpuVram[addr % 0x800])
      ensures addr > PPU_REGISTERS_MIRRORS_END ==> r == Some(0)
    {
      RamRead(cpuVram[..], addr)
    }

    /// `mem_write`: RAM through the mirror; other addresses are ignored.
    /// The PPU window panics, so callers stay out of it.
    method MemWrite(addr: u16, data: byte)
      requires Valid() && !InPpuWindow(addr)
      modifies cpuVram
      ensures Valid()
      ensures cpuVram[..] == RamWrite(old(cpuVram[..]), addr, data)
    {
      if addr <= RAM_MIRRORS_END {
        cpuVram[MirrorDown(addr)] := data;
      }
    }

    /// `mem_read_u16`: little-endian, the high byte at `pos + 1`, which
    /// overflows (a panic) at 0xFFFF.
    function MemReadU16(pos: u16): (r: Option<u16>)
      requires Valid() && pos < 0xFFFF
      reads this, cpuVram
      ensures r.Some? <==> MemRead(pos).Some? && MemRead(pos + 1).Some?
      ensures r.Some? ==>
        r.value % 256 == MemRead(pos).value as int && r.value / 256 == MemRead(pos + 1).value as int
    {
      var lo := MemRead(pos);
      var hi := MemRead(pos + 1);
      if lo.Some? && hi.Some? then Some(BytesToU16([lo.value, hi.value])) else None
    }

    /// `mem_write_u16`: the low byte at `pos`, then the high byte at
    /// `pos + 1`.
    method MemWriteU16(pos: u16, data: u16)
      requires Valid() && pos < 0xFFFF
      requires !InPpuWindow(pos) && !InPpuWindow(pos + 1)
      modifies cpuVram
      ensures Valid()
      ensures cpuVram[..] == RamWrite(RamWrite(old(cpuVram[..]), pos, ToByte(data % 256)), pos + 1, ToByte(data / 256))
    {
      var hi := ToByte(data / 256);
      var lo := ToByte(data % 256);
      MemWrite(pos, lo);
      MemWrite(pos + 1, hi);
    }
  }

  /// The RAM image `mem_write` leaves, as a function of the old image.
  function RamWrite(ram: seq<byte>, addr: u16, data: byte): (r: seq<byte>)
    requires |ram| == 2048
    ensures |r| == 2048
  {
    if addr <= RAM_MIRRORS_END then ram[MirrorDown(addr) := data] else ram
  }

  /// The byte `mem_read` returns from a RAM image.
  function RamRead(ram: seq<byte>, addr: u16): Option<byte>
    requires |ram| == 2048
  {
    if addr <= RAM_MIRRORS_END then Some(ram[MirrorDown(addr)])
    else if addr <= PPU_REGISTERS_MIRRORS_END then None
    else Some(0)
  }

  /// A RAM write is visible at all four mirrors of its cell, and at no
  /// other RAM address.
  lemma WriteVisibleAtMirrors(ram: seq<byte>, addr: u16, data: byte, other: u16)
    requires |ram| == 2048 && addr <= RAM_MIRRORS_END && other <= RAM_MIRRORS_END
    ensures other % 0x800 == addr % 0x800 ==> RamRead(RamWrite(ram, addr, data), other) == Some(data)
    ensures other % 0x800 != addr % 0x800 ==> RamRead(RamWrite(ram, addr, data), other) == RamRead(ram, other)
  {
  }

  /// A word written into RAM reads back unchanged.
  lemma WordRoundTrip(ram: seq<byte>, pos: u16, data: u16)
    requires |ram| == 2048 && pos + 1 <= RAM_MIRRORS_END
    ensures var lo, hi := ToByte(data % 256), ToByte(data / 256);
      var after := RamWrite(RamWrite(ram, pos, lo), pos + 1, hi);
      RamRead(after, pos) == Some(lo) && RamRead(after, pos + 1) == Some(hi) &&
      BytesToU16([lo, hi]) == data
  {
    var lo, hi := ToByte(data % 256), ToByte(data / 256);
    assert (pos + 1) % 0x800 != pos % 0x800;
  }
}

/// The bus as the CPU sees it: a flat 64 KiB address space and the count of
/// CPU cycles ticked so far.  The cycle-accurate devices behind the real bus
/// are modelled separately (module NesBus); the CPU model reads and writes
/// this flat image.
module CpuBus {
  import opened Tools

  /// The 64 KiB CPU address space.
  type Memory = m: seq<byte> | |m| == 0x1_0000 witness seq(0x1_0000, _ => 0 as bv8)

  /// `read_u16`: little-endian word at `pos`, the high byte taken from
  /// `pos + 1` with 16-bit wrap-around.
  function ReadU16(mem: Memory, pos: u16): (w: u16)
    ensures w % 256 == mem[pos] as int
    ensures w / 256 == mem[(pos + 1) % 0x1_0000] as int
  {
    BytesToU16([mem[pos], mem[WrapAdd16(pos, 1)]])
  }

  /// The shared bus object: memory contents and the cycle counter.
  class Bus {
    var mem: Memory
    var cycles: nat

    constructor (image: Memory)
      ensures mem == image && cycles == 0
    {
      mem := image;
      cycles := 0;
    }

    /// `write`: store one byte.
    method Write(addr: u16, data: byte)
      modifies this
      ensures mem == old(mem)[addr := data] && cycles == old(cycles)
    {
      mem := mem[addr := data];
    }

    /// `tick`: advance the cycle counter.
    method Tick(n: nat)
      modifies this
      ensures cycles == old(cycles) + n && mem == old(mem)
    {
      cycles := cycles + n;
    }
  }
}

/// The CPU address map of the current emulator, as both the NROM mapper
/// (nes/src/mapper/mapper000.rs) and the bus (nes/src/bus/mod.rs) dispatch
/// it: 2 KiB of RAM mirrored four times, eight PPU ports mirrored through
/// 0x3FFF, the APU and I/O registers, and the cartridge's PRG-ROM from
/// 0x8000, a single 16 KiB bank appearing twice.
module CpuMemoryMap {
  import opened Tools

  const RAM_END: u16 := 0x1FFF
  const PPU_REGISTERS: u16 := 0x2000
  const PPU_REGISTERS_MIRROR: u16 := 0x2008
  const PPU_REGISTERS_END: u16 := 0x3FFF
  const APU_REGISTERS: u16 := 0x4000
  const MMIO_OAMDMA: u16 := 0x4014
  const APU_REGISTERS_END: u16 := 0x4015
  const MMIO_JOY1: u16 := 0x4016
  const MMIO_JOY2: u16 := 0x4017
  const PRG_ROM: u16 := 0x8000

  /// The PPU ports, numbered by their offset from 0x2000.
  const PPUCTRL: nat := 0
  const PPUMASK: nat := 1
  const PPUSTATUS: nat := 2
  const OAMADDR: nat := 3
  const OAMDATA: nat := 4
  const PPUSCROLL: nat := 5
  const PPUADDR: nat := 6
  const PPUDATA: nat := 7

  /// Where an access lands.  `PpuMirror` is the window 0x2008-0x3FFF, which
  /// the mapper and the bus serve by dispatching again on the port it
  /// mirrors.
  datatype Target =
    | Ram(index: nat)
    | PpuPort(port: nat)
    | PpuMirror(port: nat)
    | Apu
    | OamDma
    | Joy1
    | Joy2
    | PrgRom(offset: nat)
    | Unmapped

  /// `addr & 0b0000_0111_1111_1111`: the RAM cell behind a mirrored address.
  function RamIndex(addr: u16): nat {
    addr % 0x800
  }

  /// `addr & 0b0010_0000_0000_0111` for an address of the PPU window, whose
  /// bit 13 is set and bits 14-15 clear: the port at 0x2000-0x2007 that the
  /// address mirrors.
  function MirrorDownPpu(addr: u16): (r: u16)
    requires PPU_REGISTERS <= addr <= PPU_REGISTERS_END
    ensures PPU_REGISTERS <= r < PPU_REGISTERS_MIRROR
  {
    0x2000 + addr % 8
  }

  /// The index into PRG-ROM: the offset from 0x8000, folded into the first
  /// 16 KiB when the ROM has exactly one 16 KiB bank.
  function PrgIndex(prgLen: nat, addr: u16): nat
    requires addr >= PRG_ROM
  {
    var offset := addr - 0x8000;
    if prgLen == 0x4000 && offset >= 0x4000 then offset % 0x4000 else offset
  }

  /// The dispatch of `read` and `write`.
  function Route(prgLen: nat, addr: u16): (t: Target)
    ensures t.Ram? <==> addr <= RAM_END
    ensures t.Ram? ==> t.index < 0x800
    ensures t.PpuPort? || t.PpuMirror? <==> PPU_REGISTERS <= addr <= PPU_REGISTERS_END
    ensures t.PpuPort? || t.PpuMirror? ==> t.port < 8
    ensures t.PrgRom? <==> addr >= PRG_ROM
  {
    if addr <= RAM_END then Ram(RamIndex(addr))
    else if addr < PPU_REGISTERS_MIRROR then PpuPort(addr - PPU_REGISTERS)
    else if addr <= PPU_REGISTERS_END then PpuMirror(MirrorDownPpu(addr) - PPU_REGISTERS)
    else if addr == MMIO_OAMDMA then OamDma
    else if APU_REGISTERS <= addr <= APU_REGISTERS_END then Apu
    else if addr == MMIO_JOY1 then Joy1
    else if addr == MMIO_JOY2 then Joy2
    else if addr >= PRG_ROM then PrgRom(PrgIndex(prgLen, addr))
    else Unmapped
  }

  /// The four RAM mirrors name the same cell: two addresses below 0x2000
  /// reach the same cell exactly when they agree modulo 2 KiB.
  lemma RamMirrors(prgLen: nat, a: u16, b: u16)
    requires a <= RAM_END && b <= RAM_END
    ensures Route(prgLen, a) == Route(prgLen, b) <==> a % 0x800 == b % 0x800
  {
  }

  /// Every address of 0x2008-0x3FFF mirrors the port at 0x2000 plus its
  /// value modulo 8, and a second dispatch of the mirrored address lands on
  /// that port directly.
  lemma PpuWindowMirrors(prgLen: nat, addr: u16)
    requires PPU_REGISTERS_MIRROR <= addr <= PPU_REGISTERS_END
    ensures Route(prgLen, addr) == PpuMirror(addr % 8)
    ensures Route(prgLen, MirrorDownPpu(addr)) == PpuPort(addr % 8)
  {
  }

  /// A 16 KiB PRG-ROM appears in both halves of 0x8000-0xFFFF; a 32 KiB one
  /// fills the space once.  Either way the index is inside the ROM.
  lemma PrgMirroring(addr: u16)
    requires addr >= PRG_ROM
    ensures PrgIndex(0x4000, addr) == (addr - 0x8000) % 0x4000 < 0x4000
    ensures addr < 0xC000 ==> PrgIndex(0x4000, addr + 0x4000) == PrgIndex(0x4000, addr)
    ensures PrgIndex(0x8000, addr) == addr - 0x8000 < 0x8000
  {
  }

  /// The register and I/O page: which of 0x4000-0x4017 goes where.
  lemma IoPage()
    ensures Route(0, 0x4000) == Apu && Route(0, 0x4013) == Apu && Route(0, 0x4015) == Apu
    ensures Route(0, 0x4014) == OamDma && Route(0, 0x4016) == Joy1 && Route(0, 0x4017) == Joy2
    ensures Route(0, 0x4018) == Unmapped && Route(0, 0x7FFF) == Unmapped
  {
  }

  /// The ports the CPU may only write: PPUCTRL, PPUMASK, OAMADDR,
  /// PPUSCROLL and PPUADDR.
  predicate WriteOnlyPort(port: nat) {
    port == PPUCTRL || port == PPUMASK || port == OAMADDR || port == PPUSCROLL || port == PPUADDR
  }

  /// The PPU port an access reaches, directly or through a mirror.
  function PortOf(t: Target): Option<nat> {
    if t.PpuPort? || t.PpuMirror? then Some(t.port) else None
  }

  /// The reads that depend on RAM and PRG-ROM alone and change nothing.
  predicate PlainRead(t: Target) {
    t.Ram? || t.PrgRom? || t.Apu? || t.OamDma? || t.Unmapped? ||
    (PortOf(t).Some? && WriteOnlyPort(PortOf(t).value))
  }

  /// A plain read that does not index past the end of PRG-ROM.
  predicate Peekable(prgRom: seq<byte>, addr: u16) {
    var t := Route(|prgRom|, addr);
    PlainRead(t) && (t.PrgRom? ==> t.offset < |prgRom|)
  }

  /// The byte a plain read answers: the RAM cell, the PRG-ROM byte, or 0.
  function PlainValue(ram: seq<byte>, prgRom: seq<byte>, addr: u16): (b: byte)
    requires |ram| == 0x800 && Peekable(prgRom, addr)
  {
    match Route(|prgRom|, addr)
    case Ram(i) => ram[i]
    case PrgRom(offset) => prgRom[offset]
    case _ => 0
  }

  /// Reading RAM through any of its mirrors gives the cell's byte, and a
  /// 16 KiB PRG-ROM answers the same in both halves of 0x8000-0xFFFF.
  lemma PlainValueMirrors(ram: seq<byte>, prgRom: seq<byte>, addr: u16)
    requires |ram| == 0x800
    ensures addr <= RAM_END ==> Peekable(prgRom, addr) && PlainValue(ram, prgRom, addr) == ram[addr % 0x800]
    ensures |prgRom| == 0x4000 && 0x8000 <= addr < 0xC000 ==>
      Peekable(prgRom, addr) && Peekable(prgRom, addr + 0x4000) &&
      PlainValue(ram, prgRom, addr + 0x4000) == PlainValue(ram, prgRom, addr) == prgRom[addr - 0x8000]
  {
  }

  /// The address of byte `i` of `page`, the `i`-th read of an OAM DMA.
  function DmaAddress(page: byte, i: nat): (addr: u16)
    requires i < 256
    ensures addr / 256 == page as int && addr % 256 == i
  {
    page as int * 256 + i
  }

  /// The page an OAM DMA copies when every read of it is plain: 256 plain reads from `page * 0x100` on.
  predicate PeekablePage(prgRom: seq<byte>, page: byte) {
    forall addr: u16 | page as int * 256 <= addr < page as int * 256 + 256 :: Peekable(prgRom, addr)
  }

  function Page(ram: seq<byte>, prgRom: seq<byte>, page: byte): (p: seq<byte>)
    requires |ram| == 0x800 && PeekablePage(prgRom, page)
    ensures |p| == 256
  {
    seq(256, i requires 0 <= i < 256 => PlainValue(ram, prgRom, page as int * 256 + i))
  }

  /// A RAM page copied by DMA is the 256 bytes of RAM at `(page mod 8) *
  /// 0x100`, whichever mirror the page names.
  lemma RamPage(ram: seq<byte>, prgRom: seq<byte>, page: byte)
    requires |ram| == 0x800 && page < 0x20
    ensures PeekablePage(prgRom, page)
    ensures Page(ram, prgRom, page) == ram[(page as int % 8) * 256..(page as int % 8) * 256 + 256]
  {
    var base := page as int * 256;
    var start := (page as int % 8) * 256;
    assert base == (page as int / 8) * 0x800 + start;
    forall addr: u16 | base <= addr < base + 256
      ensures Peekable(prgRom, addr) && PlainValue(ram, prgRom, addr) == ram[start + (addr - base)]
    {
      assert addr % 0x800 == start + (addr - base);
    }
  }

}

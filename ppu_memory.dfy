/// The PPU's view of its address space (nes/src/ppu/mod.rs, `mirror_vram_addr`,
/// `raw_read_data`, `raw_write_to_data`): pattern tables in the cartridge's
/// CHR memory at 0x0000-0x1FFF, four nametables folded onto 2 KiB of VRAM
/// at 0x2000-0x2FFF, and the 32-byte palette table at 0x3F00.
module PpuMemory {
  import opened Tools
  import opened Cartridge

  /// The memories behind the PPU's address space.
  datatype VideoMemory = VideoMemory(chr: seq<byte>, useChrRam: bool, vram: seq<byte>, palette: seq<byte>)

  predicate ValidMemory(m: VideoMemory) {
    |m.vram| == 2048 && |m.palette| == 32
  }

  /// `mirror_vram_addr`: fold 0x3000-0x3EFF onto 0x2000-0x2EFF by clearing
  /// bit 12, then map the nametable to its VRAM bank.  Horizontal mirroring
  /// pairs nametables 0-1 and 2-3; vertical pairs 0-2 and 1-3; four-screen
  /// does not fold.  The subtraction of 0x2000 underflows, a panic, below
  /// the nametables.
  function MirrorVramAddr(mirroring: Mirroring, addr: u16): (index: nat)
    requires Fold(addr) >= 0x2000
  {
    var vramIndex := Fold(addr) - 0x2000;
    var nameTable := vramIndex / 0x400;
    match (mirroring, nameTable)
    case (Vertical, 2) => vramIndex - 0x800
    case (Vertical, 3) => vramIndex - 0x800
    case (Horizontal, 2) => vramIndex - 0x400
    case (Horizontal, 1) => vramIndex - 0x400
    case (Horizontal, 3) => vramIndex - 0x800
    case _ => vramIndex
  }

  /// `addr & 0b0010_1111_1111_1111`: bits 0-11 and bit 13 of the address,
  /// written with arithmetic.
  function Fold(addr: u16): (r: nat)
    ensures r <= addr
  {
    addr % 0x1000 + (if (addr / 0x2000) % 2 == 1 then 0x2000 else 0)
  }

  /// The fold leaves the nametables in place and moves 0x3000-0x3EFF down
  /// by 0x1000.
  lemma FoldNametables(addr: u16)
    requires 0x2000 <= addr <= 0x3EFF
    ensures Fold(addr) == if addr < 0x3000 then addr else addr - 0x1000
  {
  }

  /// Under horizontal and vertical mirroring every nametable address lands
  /// in the 2 KiB of VRAM: vertical keeps the offset modulo 2 KiB;
  /// horizontal keeps the offset inside the nametable and takes the bank
  /// from the nametable's row.  Four-screen keeps the whole 4 KiB offset,
  /// which passes the end of VRAM.
  lemma MirrorLayout(mirroring: Mirroring, addr: u16)
    requires 0x2000 <= addr <= 0x2FFF
    ensures Fold(addr) >= 0x2000
    ensures var i := MirrorVramAddr(mirroring, addr);
      var offset := addr - 0x2000;
      (mirroring == Vertical ==> i == offset % 0x800) &&
      (mirroring == Horizontal ==> i == offset % 0x400 + (if offset >= 0x800 then 0x400 else 0)) &&
      (mirroring == FourScreen ==> i == offset) &&
      (mirroring != FourScreen ==> i < 0x800)
  {
    FoldNametables(addr);
  }

  /// Which nametables share memory: horizontally 0x2000/0x2400 and
  /// 0x2800/0x2C00, vertically 0x2000/0x2800 and 0x2400/0x2C00; the other
  /// pairing stays apart.
  lemma MirrorPairs(offset: nat)
    requires offset < 0x400
    ensures MirrorVramAddr(Horizontal, 0x2000 + offset) == MirrorVramAddr(Horizontal, 0x2400 + offset)
    ensures MirrorVramAddr(Horizontal, 0x2800 + offset) == MirrorVramAddr(Horizontal, 0x2C00 + offset)
    ensures MirrorVramAddr(Horizontal, 0x2000 + offset) != MirrorVramAddr(Horizontal, 0x2800 + offset)
    ensures MirrorVramAddr(Vertical, 0x2000 + offset) == MirrorVramAddr(Vertical, 0x2800 + offset)
    ensures MirrorVramAddr(Vertical, 0x2400 + offset) == MirrorVramAddr(Vertical, 0x2C00 + offset)
    ensures MirrorVramAddr(Vertical, 0x2000 + offset) != MirrorVramAddr(Vertical, 0x2400 + offset)
  {
    FoldNametables(0x2000 + offset);
    FoldNametables(0x2400 + offset);
    FoldNametables(0x2800 + offset);
    FoldNametables(0x2C00 + offset);
  }

  /// 0x3000-0x3EFF maps where 0x2000-0x2EFF does.
  lemma MirrorUpperCopy(mirroring: Mirroring, addr: u16)
    requires 0x2000 <= addr <= 0x2EFF
    ensures Fold(addr) >= 0x2000 && Fold(addr + 0x1000) >= 0x2000
    ensures MirrorVramAddr(mirroring, addr + 0x1000) == MirrorVramAddr(mirroring, addr)
  {
    FoldNametables(addr);
    FoldNametables(addr + 0x1000);
  }

  /// The four sprite backdrop entries that alias the background ones.
  predicate PaletteAlias(addr: u16) {
    addr == 0x3F10 || addr == 0x3F14 || addr == 0x3F18 || addr == 0x3F1C
  }

  /// The palette-table index of an address in 0x3F00-0x3FFF; only the first
  /// 32 lie inside the table.
  function PaletteIndex(addr: u16): (i: nat)
    requires 0x3F00 <= addr <= 0x3FFF
    ensures i == (if PaletteAlias(addr) then addr - 0x3F10 else addr - 0x3F00)
  {
    if PaletteAlias(addr) then addr - 0x10 - 0x3F00 else addr - 0x3F00
  }

  /// `raw_read_data`; None where the source panics: a pattern address past
  /// the CHR memory, a nametable past VRAM (four-screen), 0x3000-0x3EFF
  /// (`unimplemented!`), palette addresses past the 32-byte table, and
  /// anything above 0x3FFF.
  function RawRead(m: VideoMemory, mirroring: Mirroring, addr: u16): Option<byte>
    requires ValidMemory(m)
  {
    if addr <= 0x1FFF then
      if addr < |m.chr| then Some(m.chr[addr]) else None
    else if addr <= 0x2FFF then
      FoldNametables(addr);
      var i := MirrorVramAddr(mirroring, addr);
      if i < |m.vram| then Some(m.vram[i]) else None
    else if addr <= 0x3EFF then None
    else if addr <= 0x3FFF then
      var i := PaletteIndex(addr);
      if i < |m.palette| then Some(m.palette[i]) else None
    else None
  }

  /// `raw_write_to_data`: the memory afterwards, or None where it panics.
  /// A write to CHR-ROM only logs an error and changes nothing.
  function RawWrite(m: VideoMemory, mirroring: Mirroring, addr: u16, value: byte): (r: Option<VideoMemory>)
    requires ValidMemory(m)
    ensures r.Some? ==> ValidMemory(r.value) && r.value.useChrRam == m.useChrRam && |r.value.chr| == |m.chr|
  {
    if addr <= 0x1FFF then
      if !m.useChrRam then Some(m)
      else if addr < |m.chr| then Some(m.(chr := m.chr[addr := value]))
      else None
    else if addr <= 0x2FFF then
      FoldNametables(addr);
      var i := MirrorVramAddr(mirroring, addr);
      if i < |m.vram| then Some(m.(vram := m.vram[i := value])) else None
    else if addr <= 0x3EFF then None
    else if addr <= 0x3FFF then
      var i := PaletteIndex(addr);
      if i < |m.palette| then Some(m.(palette := m.palette[i := value])) else None
    else None
  }

  /// The aliases read and write the same palette entry as the backdrop
  /// entries they mirror.
  lemma PaletteAliases(m: VideoMemory, mirroring: Mirroring, k: nat, value: byte)
    requires ValidMemory(m) && k < 4
    ensures RawRead(m, mirroring, 0x3F10 + 4 * k) == RawRead(m, mirroring, 0x3F00 + 4 * k)
    ensures RawWrite(m, mirroring, 0x3F10 + 4 * k, value) == RawWrite(m, mirroring, 0x3F00 + 4 * k, value)
  {
  }

  /// Exactly the addresses a read accepts: CHR within its length, the
  /// nametables under horizontal or vertical mirroring, and the first 32
  /// palette addresses.
  lemma RawReadDefined(m: VideoMemory, mirroring: Mirroring, addr: u16)
    requires ValidMemory(m) && mirroring != FourScreen
    ensures RawRead(m, mirroring, addr).Some? <==>
      (addr <= 0x1FFF && addr < |m.chr|) || (0x2000 <= addr <= 0x2FFF) || (0x3F00 <= addr <= 0x3F1F)
  {
    if 0x2000 <= addr <= 0x2FFF {
      MirrorLayout(mirroring, addr);
    }
  }

  /// What a write stores, a read at the same address returns; the write of
  /// CHR-ROM is the exception, being ignored.
  lemma WriteThenRead(m: VideoMemory, mirroring: Mirroring, addr: u16, value: byte)
    requires ValidMemory(m) && RawWrite(m, mirroring, addr, value).Some?
    ensures var m' := RawWrite(m, mirroring, addr, value).value;
      RawRead(m', mirroring, addr) == (if addr <= 0x1FFF && !m.useChrRam then RawRead(m, mirroring, addr) else Some(value))
  {
  }

  /// A nametable write leaves every other bank cell alone: reads of an
  /// address that maps elsewhere are unchanged.
  lemma WriteOtherCell(m: VideoMemory, mirroring: Mirroring, addr: u16, other: u16, value: byte)
    requires ValidMemory(m) && 0x2000 <= addr <= 0x2FFF && 0x2000 <= other <= 0x2FFF
    requires RawWrite(m, mirroring, addr, value).Some?
    requires Fold(addr) >= 0x2000 && Fold(other) >= 0x2000
    requires MirrorVramAddr(mirroring, addr) != MirrorVramAddr(mirroring, other)
    ensures RawRead(RawWrite(m, mirroring, addr, value).value, mirroring, other) == RawRead(m, mirroring, other)
  {
  }
}

/// The cartridge and console memories of the current emulator
/// (nes/src/memory/mod.rs): 2 KiB of CPU RAM, the PRG-ROM, zeroed PRG-RAM,
/// and the CHR memory, which is the cartridge's CHR-ROM when it has one and
/// zeroed CHR-RAM otherwise.
module NesMemory {
  import opened Tools
  import opened Cartridge
  import opened PpuMemory

  const CPU_VRAM_SIZE: nat := 2048

  /// The fields of the loaded ROM that `Memory::new` reads.  The declared
  /// PRG-RAM and CHR-RAM sizes are part of this record and not of the
  /// parsed iNES `Rom`.
  datatype RomImage = RomImage(prgRom: seq<byte>, chrRom: seq<byte>, prgRamSize: nat, chrRamSize: nat)

  /// `Memory`.
  datatype Memory = Memory(cpuVram: seq<byte>, prgRom: seq<byte>, prgRam: seq<byte>, chrMem: seq<byte>, useChrRam: bool)

  /// `n` zero bytes (`Vec::resize(n, 0)` on an empty vector).
  function Zeros(n: nat): (z: seq<byte>)
    ensures |z| == n && forall i | 0 <= i < n :: z[i] == 0
    decreases n
  {
    if n == 0 then [] else Zeros(n - 1) + [0]
  }

  /// `Memory::new`.
  function MemoryNew(rom: RomImage): (m: Memory)
    ensures m.cpuVram == Zeros(CPU_VRAM_SIZE) && m.prgRom == rom.prgRom && m.prgRam == Zeros(rom.prgRamSize)
    ensures m.useChrRam <==> |rom.chrRom| == 0
    ensures m.chrMem == if |rom.chrRom| != 0 then rom.chrRom else Zeros(rom.chrRamSize)
  {
    var (chrMem, useChrRam) := if |rom.chrRom| != 0 then (rom.chrRom, false) else (Zeros(rom.chrRamSize), true);
    Memory(Zeros(CPU_VRAM_SIZE), rom.prgRom, Zeros(rom.prgRamSize), chrMem, useChrRam)
  }

  /// The PPU's view of a freshly built memory, with VRAM and palettes as
  /// zeroed by `PPU::new`.
  function FreshVideo(m: Memory): (v: VideoMemory)
    ensures ValidMemory(v)
  {
    VideoMemory(m.chrMem, m.useChrRam, Zeros(2048), Zeros(32))
  }

  /// The pattern tables of a cartridge with CHR-ROM are read-only: a write
  /// there leaves the video memory as it was and reads still give the ROM's
  /// bytes.  Without CHR-ROM they are RAM: the byte written is read back.
  lemma PatternTableWritable(rom: RomImage, mirroring: Mirroring, addr: u16, value: byte)
    requires addr <= 0x1FFF
    requires |rom.chrRom| == 0 ==> addr < rom.chrRamSize
    ensures var v := FreshVideo(MemoryNew(rom));
      RawWrite(v, mirroring, addr, value).Some? &&
      (|rom.chrRom| != 0 ==> RawWrite(v, mirroring, addr, value).value == v) &&
      (|rom.chrRom| == 0 ==> RawRead(RawWrite(v, mirroring, addr, value).value, mirroring, addr) == Some(value))
  {
    var v := FreshVideo(MemoryNew(rom));
    if |rom.chrRom| == 0 {
      WriteThenRead(v, mirroring, addr, value);
    }
  }

  /// A cartridge without CHR-ROM starts with blank pattern tables: every
  /// CHR-RAM address reads 0.
  lemma ChrRamStartsBlank(rom: RomImage, mirroring: Mirroring, addr: u16)
    requires |rom.chrRom| == 0 && addr < rom.chrRamSize && addr <= 0x1FFF
    ensures RawRead(FreshVideo(MemoryNew(rom)), mirroring, addr) == Some(0)
  {
  }
}

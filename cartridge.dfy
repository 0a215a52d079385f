/// The iNES cartridge loader (nes/src/cartridge.rs): a 16-byte header,
/// an optional 512-byte trainer, then PRG-ROM in 16 KiB pages and CHR-ROM
/// in 8 KiB pages.
module Cartridge {
  import opened Tools

  const NES_TAG: seq<byte> := [0x4E, 0x45, 0x53, 0x1A]
  const PRG_ROM_PAGE_SIZE: nat := 16384
  const CHR_ROM_PAGE_SIZE: nat := 8192
  const HEADER_SIZE: nat := 16
  const TRAINER_SIZE: nat := 512

  const NOT_INES: string := "File is not in iNES file format"
  const NES2_UNSUPPORTED: string := "NES2.0 format is not supported"

  datatype Mirroring = Vertical | Horizontal | FourScreen

  datatype Rom = Rom(prgRom: seq<byte>, chrRom: seq<byte>, mapper: byte, screenMirroring: Mirroring)

  /// What `Rom::new` does with an image: it returns a ROM, returns an error
  /// message, or panics on a slice past the end of the input.
  datatype Loaded = Parsed(rom: Rom) | Rejected(message: string) | OutOfBounds

  /// The mapper number: high nibble from byte 7, low nibble from byte 6.
  function Mapper(flags6: byte, flags7: byte): (m: byte)
    ensures m & 0xF0 == flags7 & 0xF0 && m & 0x0F == flags6 >> 4
  {
    (flags7 & 0xF0) | (flags6 >> 4)
  }

  /// Four-screen (byte 6 bit 3) overrides the vertical bit (byte 6 bit 0).
  function MirroringOf(flags6: byte): (m: Mirroring)
    ensures m == FourScreen <==> flags6 & 0x08 != 0
    ensures m == Vertical <==> flags6 & 0x08 == 0 && flags6 & 0x01 != 0
  {
    var fourScreen := flags6 & 0x08 != 0;
    var verticalMirroring := flags6 & 0x01 != 0;
    match (fourScreen, verticalMirroring)
    case (true, _) => FourScreen
    case (false, true) => Vertical
    case (false, false) => Horizontal
  }

  /// Where PRG-ROM starts: after the header, and after the trainer when
  /// byte 6 bit 2 announces one.
  function PrgRomStart(flags6: byte): (start: nat)
    ensures start == HEADER_SIZE || start == HEADER_SIZE + TRAINER_SIZE
    ensures start == HEADER_SIZE + TRAINER_SIZE <==> flags6 & 0x04 != 0
  {
    16 + if flags6 & 0x04 != 0 then 512 else 0
  }

  /// The NES 2.0 identifier, bits 2-3 of byte 7.
  function InesVersion(flags7: byte): byte {
    (flags7 >> 2) & 0x03
  }

  /// `Rom::new`.
  function RomNew(raw: seq<byte>): (r: Loaded) {
    if |raw| < 4 then OutOfBounds
    else if raw[0..4] != NES_TAG then Rejected(NOT_INES)
    else if |raw| < 8 then OutOfBounds
    else
      var mapper := Mapper(raw[6], raw[7]);
      if InesVersion(raw[7]) != 0 then Rejected(NES2_UNSUPPORTED)
      else
        var prgRomSize := (raw[4] as int) * PRG_ROM_PAGE_SIZE;
        var chrRomSize := (raw[5] as int) * CHR_ROM_PAGE_SIZE;
        var prgRomStart := PrgRomStart(raw[6]);
        var chrRomStart := prgRomStart + prgRomSize;
        if prgRomStart + prgRomSize > |raw| || chrRomStart + chrRomSize > |raw| then OutOfBounds
        else Parsed(Rom(raw[prgRomStart..prgRomStart + prgRomSize], raw[chrRomStart..chrRomStart + chrRomSize],
                        mapper, MirroringOf(raw[6])))
  }

  /// The header checks, the image and the outcome: an image without the
  /// tag is refused as not iNES, a NES 2.0 header as unsupported, and an
  /// image too short for what its header declares panics; anything else
  /// parses.
  lemma RomNewOutcome(raw: seq<byte>)
    ensures RomNew(raw) == Rejected(NOT_INES) <==> |raw| >= 4 && raw[..4] != NES_TAG
    ensures RomNew(raw) == Rejected(NES2_UNSUPPORTED) <==>
      |raw| >= 8 && raw[..4] == NES_TAG && (raw[7] >> 2) & 3 != 0
    ensures RomNew(raw).Parsed? <==>
      |raw| >= 8 && raw[..4] == NES_TAG && (raw[7] >> 2) & 3 == 0 &&
      PrgRomStart(raw[6]) + (raw[4] as int) * PRG_ROM_PAGE_SIZE + (raw[5] as int) * CHR_ROM_PAGE_SIZE <= |raw|
  {
    assert NOT_INES != NES2_UNSUPPORTED;
  }

  /// A parsed ROM holds the sizes its header declares, copied from right
  /// after the header (and trainer), with its mapper and mirroring.
  lemma ParsedContents(raw: seq<byte>)
    requires RomNew(raw).Parsed?
    ensures var rom := RomNew(raw).rom;
      var start := PrgRomStart(raw[6]);
      |rom.prgRom| == (raw[4] as int) * PRG_ROM_PAGE_SIZE &&
      |rom.chrRom| == (raw[5] as int) * CHR_ROM_PAGE_SIZE &&
      (forall i | 0 <= i < |rom.prgRom| :: rom.prgRom[i] == raw[start + i]) &&
      (forall i | 0 <= i < |rom.chrRom| :: rom.chrRom[i] == raw[start + |rom.prgRom| + i]) &&
      rom.mapper == Mapper(raw[6], raw[7]) && rom.screenMirroring == MirroringOf(raw[6])
  {
  }

  /// An image laid out as header, trainer (when flagged), PRG and CHR of the
  /// declared sizes loads back exactly that PRG and CHR.
  lemma LoadImage(header: seq<byte>, trainer: seq<byte>, prg: seq<byte>, chr: seq<byte>, rest: seq<byte>)
    requires |header| == HEADER_SIZE && header[..4] == NES_TAG && InesVersion(header[7]) == 0
    requires |trainer| == PrgRomStart(header[6]) - HEADER_SIZE
    requires |prg| == (header[4] as int) * PRG_ROM_PAGE_SIZE && |chr| == (header[5] as int) * CHR_ROM_PAGE_SIZE
    ensures RomNew(header + trainer + prg + chr + rest) ==
      Parsed(Rom(prg, chr, Mapper(header[6], header[7]), MirroringOf(header[6])))
  {
    var raw := header + trainer + prg + chr + rest;
    var start := |header| + |trainer|;
    MiddleSlice(header + trainer, prg, chr + rest);
    assert raw == (header + trainer) + prg + (chr + rest);
    MiddleSlice(header + trainer + prg, chr, rest);
    assert raw[..4] == header[..4];
    assert raw[4] == header[4] && raw[5] == header[5] && raw[6] == header[6] && raw[7] == header[7];
  }

  lemma MiddleSlice(a: seq<byte>, b: seq<byte>, c: seq<byte>)
    ensures (a + b + c)[|a|..|a| + |b|] == b
  {
  }

  /// The header of the loader's first example: two PRG pages, one CHR page,
  /// byte 6 = 0x31 (mapper 3, vertical mirroring), no trainer.
  lemma MapperThreeVertical()
    ensures Mapper(0x31, 0x00) == 3 && MirroringOf(0x31) == Vertical && PrgRomStart(0x31) == 16
    ensures MirroringOf(0x31 | 0x04) == Vertical && PrgRomStart(0x31 | 0x04) == 528
    ensures InesVersion(0x08) != 0
  {
  }
}

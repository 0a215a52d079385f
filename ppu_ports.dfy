/// The PPU as the CPU sees it through its eight ports at 0x2000-0x2007:
/// what a read or a write of each port does to the PPU's registers, its
/// object attribute memory and the video memory behind PPUDATA.  The NROM
/// mapper and the bus both dispatch to these.
module PpuPorts {
  import opened Tools
  import opened Cartridge
  import opened PpuMemory
  import opened Ppu
  import opened CpuMemoryMap

  /// The part of the PPU a port access can reach.
  datatype PpuView = PpuView(regs: Registers, oam: seq<byte>, video: VideoMemory)

  predicate ValidView(v: PpuView) {
    |v.oam| == 256 && ValidMemory(v.video)
  }

  function ViewOf(p: Ppu): (v: PpuView)
    reads p, p.oamData, p.chr, p.vram, p.paletteTable
    requires p.Valid()
    ensures ValidView(v)
  {
    PpuView(p.Regs(), p.oamData[..], p.Video())
  }

  /// A PPUDATA access must reach an address the PPU's memory serves.
  predicate PortReadDefined(port: nat, v: PpuView, mirroring: Mirroring)
    requires ValidView(v)
  {
    port == PPUDATA ==> RawRead(v.video, mirroring, DataAddr(v.regs)).Some?
  }

  predicate PortWriteDefined(port: nat, v: PpuView, mirroring: Mirroring, data: byte)
    requires ValidView(v)
  {
    port == PPUDATA ==> RawWrite(v.video, mirroring, DataAddr(v.regs), data).Some?
  }

  /// A read of a port: the registers afterwards and the byte answered.
  /// PPUSTATUS, OAMDATA and PPUDATA answer; the write-only ports answer 0.
  function PortRead(port: nat, v: PpuView, mirroring: Mirroring): (Registers, byte)
    requires ValidView(v) && PortReadDefined(port, v, mirroring)
  {
    if port == PPUSTATUS then StatusRead(v.regs)
    else if port == OAMDATA then (v.regs, v.oam[v.regs.oamAddr])
    else if port == PPUDATA then ReadDataSpec(v.regs, v.video, mirroring)
    else (v.regs, 0)
  }

  /// A write of a port; a write of PPUSTATUS is ignored.
  function PortWrite(port: nat, v: PpuView, mirroring: Mirroring, data: byte): (v': PpuView)
    requires ValidView(v) && PortWriteDefined(port, v, mirroring, data)
    ensures ValidView(v')
  {
    if port == PPUCTRL then v.(regs := CtrlWritten(v.regs, data))
    else if port == PPUMASK then v.(regs := MaskWritten(v.regs, data))
    else if port == OAMADDR then v.(regs := v.regs.(oamAddr := data as u8))
    else if port == OAMDATA then
      var (oam, next) := OamDataWritten(v.oam, v.regs.oamAddr, data);
      v.(oam := oam, regs := v.regs.(oamAddr := next))
    else if port == PPUSCROLL then v.(regs := ScrollWritten(v.regs, data))
    else if port == PPUADDR then v.(regs := PpuAddrWritten(v.regs, data))
    else if port == PPUDATA then
      var (video, regs) := WriteDataSpec(v.regs, v.video, mirroring, data);
      PpuView(regs, v.oam, video)
    else v
  }

  /// What each port leaves alone: only OAMDATA and PPUDATA change memory,
  /// a write-only port answers 0 to a read and keeps its registers, and a
  /// read never touches OAM or video memory.
  lemma PortFootprints(port: nat, v: PpuView, mirroring: Mirroring, data: byte)
    requires ValidView(v) && port < 8 && PortWriteDefined(port, v, mirroring, data)
    ensures var v' := PortWrite(port, v, mirroring, data);
      (port != OAMDATA ==> v'.oam == v.oam) &&
      (port != PPUDATA ==> v'.video == v.video) &&
      (port == PPUSTATUS ==> v' == v)
    ensures WriteOnlyPort(port) ==> PortRead(port, v, mirroring) == (v.regs, 0)
  {
  }

  /// A byte written through OAMDATA is read back through OAMDATA once
  /// OAMADDR is set back to where it was written.
  lemma OamPortRoundTrip(v: PpuView, mirroring: Mirroring, addr: byte, data: byte)
    requires ValidView(v)
    ensures var v1 := PortWrite(OAMADDR, v, mirroring, addr);
      var v2 := PortWrite(OAMDATA, v1, mirroring, data);
      var v3 := PortWrite(OAMADDR, v2, mirroring, addr);
      PortRead(OAMDATA, v3, mirroring).1 == data
  {
  }

  /// `read` of a port on the PPU object.
  method ReadPort(p: Ppu, port: nat) returns (value: byte)
    requires p.Valid() && port < 8 && PortReadDefined(port, ViewOf(p), p.mirroring)
    modifies p
    ensures p.Valid()
    ensures (p.Regs(), value) == PortRead(port, old(ViewOf(p)), p.mirroring)
  {
    if port == PPUSTATUS {
      value := p.ReadStatus();
    } else if port == OAMDATA {
      value := p.ReadOamData();
    } else if port == PPUDATA {
      value := p.ReadData();
    } else {
      value := 0;
    }
  }

  /// `write` of a port on the PPU object.
  method WritePort(p: Ppu, port: nat, data: byte)
    requires p.Valid() && port < 8 && PortWriteDefined(port, ViewOf(p), p.mirroring, data)
    modifies p, p.oamData, p.chr, p.vram, p.paletteTable
    ensures p.Valid()
    ensures ViewOf(p) == PortWrite(port, old(ViewOf(p)), p.mirroring, data)
  {
    if port == PPUCTRL {
      p.WriteToCtrl(data);
    } else if port == PPUMASK {
      p.WriteToMask(data);
    } else if port == OAMADDR {
      p.WriteToOamAddr(data);
    } else if port == OAMDATA {
      p.WriteToOamData(data);
    } else if port == PPUSCROLL {
      p.WriteToScroll(data);
    } else if port == PPUADDR {
      p.WriteToPpuAddr(data);
    } else if port == PPUDATA {
      p.WriteToData(data);
    }
  }
}

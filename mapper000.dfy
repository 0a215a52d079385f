/// The NROM mapper (nes/src/mapper/mapper000.rs): the CPU's reads and writes
/// dispatched to console RAM, the PPU's ports, the controllers and the
/// cartridge's PRG-ROM.  Reads of write-only ports, the APU and unmapped
/// space answer 0; writes to read-only places are dropped.
module Mapper000 {
  import opened Tools
  import opened Cartridge
  import opened PpuMemory
  import opened Ppu
  import opened CpuMemoryMap
  import opened PpuPorts
  import Pad = Joypad

  // ----- one read, and the DMA loop's 256 reads, as values ---------------

  /// What a read depends on besides the PPU's registers and the
  /// controllers: the console RAM, the PRG-ROM, the nametable mirroring,
  /// whether both ports hold the same controller object (so that a read
  /// or a strobe through either port steps that one controller), and the
  /// PPU's memories, which a read never changes.
  datatype Wiring = Wiring(ram: seq<byte>, prgRom: seq<byte>, mirroring: Mirroring, shared: bool,
                           oam: seq<byte>, video: VideoMemory)

  predicate ValidWiring(w: Wiring) {
    |w.ram| == 0x800 && |w.oam| == 256 && ValidMemory(w.video)
  }

  /// What a read may change: the PPU's registers and the state of the
  /// controller in each port.
  datatype Machine = Machine(regs: Registers, pad1: Option<Pad.PadState>, pad2: Option<Pad.PadState>)

  /// The PPU as its ports see it.
  function ViewIn(w: Wiring, m: Machine): (v: PpuView)
    requires ValidWiring(w)
    ensures ValidView(v)
  {
    PpuView(m.regs, w.oam, w.video)
  }

  /// `read` of a PPU port: the port's read with the registers it leaves.
  function PortReadOnce(w: Wiring, m: Machine, port: nat): Option<(Machine, byte)>
    requires ValidWiring(w)
  {
    if PortReadDefined(port, ViewIn(w, m), w.mirroring) then
      var (regs, b) := PortRead(port, ViewIn(w, m), w.mirroring);
      Some((m.(regs := regs), b))
    else None
  }

  /// `read` of `addr`: the machine afterwards and the byte answered, or
  /// None where the read panics (a PRG-ROM index past the end of the ROM,
  /// a PPUDATA read of an address the PPU does not serve).  Only a read of
  /// the port window changes the PPU's registers, and only $4016 and $4017
  /// step a controller.
  function ReadOnce(w: Wiring, m: Machine, addr: u16): (r: Option<(Machine, byte)>)
    requires ValidWiring(w)
    ensures r.Some? && !(PPU_REGISTERS <= addr <= PPU_REGISTERS_END) ==> r.value.0.regs == m.regs
    ensures r.Some? && addr != MMIO_JOY1 && addr != MMIO_JOY2 ==> r.value.0.pad1 == m.pad1 && r.value.0.pad2 == m.pad2
  {
    match Route(|w.prgRom|, addr)
    case PpuPort(port) => PortReadOnce(w, m, port)
    case PpuMirror(port) => PortReadOnce(w, m, port)
    case Joy1 =>
      if m.pad1.Some? then
        var (p, b) := Pad.ReadStep(m.pad1.value);
        Some((m.(pad1 := Some(p), pad2 := if w.shared then Some(p) else m.pad2), b))
      else Some((m, 0))
    case Joy2 =>
      if m.pad2.Some? then
        var (p, b) := Pad.ReadStep(m.pad2.value);
        Some((m.(pad2 := Some(p), pad1 := if w.shared then Some(p) else m.pad1), b))
      else Some((m, 0))
    case PrgRom(offset) =>
      if offset < |w.prgRom| then Some((m, w.prgRom[offset])) else None
    case _ => Some((m, PlainValue(w.ram, w.prgRom, addr)))
  }

  /// Byte `i` of a page lies in the PPU's port window exactly when the
  /// page does, and only page 0x40 holds the controller ports.
  lemma DmaAddressPlaces(page: byte, i: nat)
    requires i < 256
    ensures PPU_REGISTERS <= DmaAddress(page, i) <= PPU_REGISTERS_END <==> 0x20 <= page < 0x40
    ensures DmaAddress(page, i) == MMIO_JOY1 || DmaAddress(page, i) == MMIO_JOY2 ==> page == 0x40
  {
  }

  /// The DMA loop's first `n` reads of `page`, in order: the machine
  /// after the last one and the bytes read, or None if one panics.
  function PageReads(w: Wiring, m: Machine, page: byte, n: nat): (r: Option<(Machine, seq<byte>)>)
    requires ValidWiring(w) && n <= 256
    ensures r.Some? ==> |r.value.1| == n
  {
    if n == 0 then Some((m, []))
    else
      match PageReads(w, m, page, n - 1)
      case None => None
      case Some((m1, bytes)) =>
        match ReadOnce(w, m1, DmaAddress(page, n - 1))
        case None => None
        case Some((m2, b)) => Some((m2, bytes + [b]))
  }

  /// The $4014 write: the page is read, then copied into OAM from the OAM
  /// address on.  The machine after the reads and the new OAM, or None if
  /// a read of the page panics.
  function Dma(w: Wiring, m: Machine, page: byte): (r: Option<(Machine, seq<byte>)>)
    requires ValidWiring(w)
    ensures r.Some? <==> PageReads(w, m, page, 256).Some?
    ensures r.Some? ==> |r.value.1| == 256
  {
    match PageReads(w, m, page, 256)
    case None => None
    case Some((m1, bytes)) => Some((m1, DmaImage(m1.regs.oamAddr, bytes)))
  }

  /// A read of a place that only answers gives the mapped byte and changes
  /// nothing.
  lemma PlainReadOnce(w: Wiring, m: Machine, addr: u16)
    requires ValidWiring(w) && Peekable(w.prgRom, addr)
    ensures ReadOnce(w, m, addr) == Some((m, PlainValue(w.ram, w.prgRom, addr)))
  {
  }

  /// What each read answers: a place that only answers gives the mapped
  /// byte, a port read is the PPU's port read, and a controller port steps
  /// the controller plugged into it (and with it the other port's, when
  /// both hold the same one) or answers 0 when none is.
  lemma ReadOnceRoutes(w: Wiring, m: Machine, addr: u16)
    requires ValidWiring(w) && ReadOnce(w, m, addr).Some?
    ensures var (m', b) := ReadOnce(w, m, addr).value; var t := Route(|w.prgRom|, addr);
      (PlainRead(t) ==> m' == m && b == PlainValue(w.ram, w.prgRom, addr)) &&
      (PortOf(t).Some? ==> (m'.regs, b) == PortRead(PortOf(t).value, ViewIn(w, m), w.mirroring)) &&
      (t.Joy1? ==> if m.pad1.Some? then (m'.pad1.value, b) == Pad.ReadStep(m.pad1.value) else b == 0) &&
      (t.Joy2? ==> if m.pad2.Some? then (m'.pad2.value, b) == Pad.ReadStep(m.pad2.value) else b == 0)
  {
  }

  /// The first `n` reads followed by read `n` are the first `n + 1`.
  lemma PageReadsStep(w: Wiring, m: Machine, page: byte, n: nat, m1: Machine, bytes: seq<byte>, m2: Machine, b: byte)
    requires ValidWiring(w) && n < 256
    requires PageReads(w, m, page, n) == Some((m1, bytes))
    requires ReadOnce(w, m1, DmaAddress(page, n)) == Some((m2, b))
    ensures PageReads(w, m, page, n + 1) == Some((m2, bytes + [b]))
  {
  }

  /// The PPU's registers are changed only by reading a page of its port
  /// window 0x2000-0x3FFF.
  lemma {:induction false} PageReadsKeepRegs(w: Wiring, m: Machine, page: byte, n: nat)
    requires ValidWiring(w) && n <= 256 && PageReads(w, m, page, n).Some?
    requires !(0x20 <= page < 0x40)
    ensures PageReads(w, m, page, n).value.0.regs == m.regs
  {
    if n > 0 {
      PageReadsKeepRegs(w, m, page, n - 1);
      var (m1, bytes) := PageReads(w, m, page, n - 1).value;
      DmaAddressPlaces(page, n - 1);
      var (m2, b) := ReadOnce(w, m1, DmaAddress(page, n - 1)).value;
      assert PageReads(w, m, page, n).value.0 == m2;
    }
  }

  /// The controllers are stepped only by reading page 0x40.
  lemma {:induction false} PageReadsKeepPads(w: Wiring, m: Machine, page: byte, n: nat)
    requires ValidWiring(w) && n <= 256 && PageReads(w, m, page, n).Some?
    requires page != 0x40
    ensures PageReads(w, m, page, n).value.0.pad1 == m.pad1
    ensures PageReads(w, m, page, n).value.0.pad2 == m.pad2
  {
    if n > 0 {
      PageReadsKeepPads(w, m, page, n - 1);
      var (m1, bytes) := PageReads(w, m, page, n - 1).value;
      DmaAddressPlaces(page, n - 1);
      var (m2, b) := ReadOnce(w, m1, DmaAddress(page, n - 1)).value;
      assert PageReads(w, m, page, n).value.0 == m2;
    }
  }

  /// The machines the first `n` reads pass through: read `k` starts from
  /// machine `k` and leaves machine `k + 1` and byte `k`.
  lemma {:induction false} PageTrace(w: Wiring, m: Machine, page: byte, n: nat) returns (trace: seq<Machine>)
    requires ValidWiring(w) && n <= 256 && PageReads(w, m, page, n).Some?
    ensures |trace| == n + 1 && trace[0] == m && trace[n] == PageReads(w, m, page, n).value.0
    ensures forall k {:trigger ReadOnce(w, trace[k], DmaAddress(page, k))} | 0 <= k < n ::
      ReadOnce(w, trace[k], DmaAddress(page, k)) == Some((trace[k + 1], PageReads(w, m, page, n).value.1[k]))
  {
    if n == 0 {
      trace := [m];
    } else {
      var earlier := PageTrace(w, m, page, n - 1);
      var (m1, bytes) := PageReads(w, m, page, n - 1).value;
      var (m2, b) := ReadOnce(w, m1, DmaAddress(page, n - 1)).value;
      assert PageReads(w, m, page, n) == Some((m2, bytes + [b]));
      trace := earlier + [m2];
      forall k | 0 <= k < n
        ensures ReadOnce(w, trace[k], DmaAddress(page, k)) == Some((trace[k + 1], (bytes + [b])[k]))
      {
        if k < n - 1 {
          assert trace[k] == earlier[k] && trace[k + 1] == earlier[k + 1];
        }
      }
    }
  }

  /// Reads that each answer a byte and change nothing give those bytes in
  /// order and leave the machine as it was.
  lemma {:induction false} SilentPageReads(w: Wiring, m: Machine, page: byte, n: nat, bytes: seq<byte>)
    requires ValidWiring(w) && n <= 256 && |bytes| == 256
    requires forall k | 0 <= k < n :: ReadOnce(w, m, DmaAddress(page, k)) == Some((m, bytes[k]))
    ensures PageReads(w, m, page, n) == Some((m, bytes[..n]))
  {
    if n > 0 {
      SilentPageReads(w, m, page, n - 1, bytes);
      assert ReadOnce(w, m, DmaAddress(page, n - 1)) == Some((m, bytes[n - 1]));
      PageReadsStep(w, m, page, n - 1, m, bytes[..n - 1], m, bytes[n - 1]);
      PrefixGrows(bytes, n);
    } else {
      assert bytes[..0] == [];
    }
  }

  /// A prefix one byte longer is the shorter prefix and that byte.
  lemma PrefixGrows(bytes: seq<byte>, n: nat)
    requires 0 < n <= |bytes|
    ensures bytes[..n - 1] + [bytes[n - 1]] == bytes[..n]
  {
  }

  /// The DMA of a page of places that only answer copies `Page` into OAM
  /// from the OAM address on and changes nothing else.
  lemma PlainPageDma(w: Wiring, m: Machine, page: byte)
    requires ValidWiring(w) && PeekablePage(w.prgRom, page)
    ensures Dma(w, m, page) == Some((m, DmaImage(m.regs.oamAddr, Page(w.ram, w.prgRom, page))))
  {
    var bytes := Page(w.ram, w.prgRom, page);
    forall k | 0 <= k < 256
      ensures ReadOnce(w, m, DmaAddress(page, k)) == Some((m, bytes[k]))
    {
      PlainReadOnce(w, m, DmaAddress(page, k));
    }
    SilentPageReads(w, m, page, 256, bytes);
    assert bytes[..256] == bytes;
  }

  /// `Mapper000`: the console memory it shares (`cpu_vram` and `prg_rom`),
  /// the PPU, and the controllers plugged into the two ports.
  class Mapper {
    const ram: array<byte>
    const prgRom: seq<byte>
    const ppu: Ppu
    var device1: Option<Pad.Joypad>
    var device2: Option<Pad.Joypad>

    predicate Valid() {
      ram.Length == 0x800 && ppu.Valid() &&
      ram != ppu.chr && ram != ppu.vram && ram != ppu.oamData && ram != ppu.paletteTable
    }

    /// The controllers, the objects a read or a write of $4016 changes.
    function Devices(): set<object>
      reads this
    {
      (if device1.Some? then {device1.value} else {}) + (if device2.Some? then {device2.value} else {})
    }

    /// The state of each connected controller.
    function DeviceStates(): (Option<Pad.PadState>, Option<Pad.PadState>)
      reads this, Devices()
    {
      (if device1.Some? then Some(device1.value.State()) else None,
       if device2.Some? then Some(device2.value.State()) else None)
    }

    /// `new`: no controller connected yet.
    constructor (ram: array<byte>, prgRom: seq<byte>, ppu: Ppu)
      ensures this.ram == ram && this.prgRom == prgRom && this.ppu == ppu
      ensures device1 == None && device2 == None
    {
      this.ram := ram;
      this.prgRom := prgRom;
      this.ppu := ppu;
      device1 := None;
      device2 := None;
    }

    /// `connect_input_device`: only slots 1 and 2 exist; the assertion on
    /// the slot number is the caller's obligation.
    method ConnectInputDevice(slot: u8, device: Pad.Joypad)
      requires 1 <= slot <= 2
      modifies this
      ensures slot == 1 ==> device1 == Some(device) && device2 == old(device2)
      ensures slot == 2 ==> device2 == Some(device) && device1 == old(device1)
    {
      if slot == 1 {
        device1 := Some(device);
      } else {
        device2 := Some(device);
      }
    }

    /// Whether both ports hold the same controller object.
    predicate SharedDevice()
      reads this
    {
      device1.Some? && device2.Some? && device1.value == device2.value
    }

    /// What a read depends on besides the PPU's registers and the
    /// controllers.
    function WiringOf(): (w: Wiring)
      reads this, ram, ppu.oamData, ppu.chr, ppu.vram, ppu.paletteTable
      requires Valid()
      ensures ValidWiring(w)
    {
      Wiring(ram[..], prgRom, ppu.mirroring, SharedDevice(), ppu.oamData[..], ppu.Video())
    }

    /// The PPU's registers and the controllers' states.
    function MachineOf(): Machine
      reads this, ppu, Devices()
    {
      Machine(ppu.Regs(), DeviceStates().0, DeviceStates().1)
    }

    /// What `read` needs so as not to panic: a PRG-ROM index inside the
    /// ROM, and a PPUDATA read of an address the PPU serves.
    predicate ReadDefined(addr: u16)
      reads this, ram, ppu, ppu.oamData, ppu.chr, ppu.vram, ppu.paletteTable, Devices()
      requires Valid()
    {
      ReadOnce(WiringOf(), MachineOf(), addr).Some?
    }

    /// `read`.
    method Read(addr: u16) returns (value: byte)
      requires Valid() && ReadDefined(addr)
      modifies ppu, Devices()
      decreases addr
      ensures Valid()
      ensures ReadOnce(old(WiringOf()), old(MachineOf()), addr) == Some((MachineOf(), value))
    {
      var t := Route(|prgRom|, addr);
      match t
      case Ram(i) =>
        value := ram[i];
      case PpuPort(port) =>
        value := ReadPort(ppu, port);
      case PpuMirror(_) =>
        PpuWindowMirrors(|prgRom|, addr);
        value := Read(MirrorDownPpu(addr));
      case Apu =>
        value := 0;
      case OamDma =>
        value := 0;
      case Joy1 =>
        if device1.Some? {
          value := device1.value.Read();
        } else {
          value := 0;
        }
      case Joy2 =>
        if device2.Some? {
          value := device2.value.Read();
        } else {
          value := 0;
        }
      case PrgRom(offset) =>
        value := prgRom[offset];
      case Unmapped =>
        value := 0;
    }

    /// What `write` needs so as not to panic: a PPUDATA write of an address
    /// the PPU serves, and for an OAM DMA no read of the page panicking.
    predicate WriteDefined(addr: u16, data: byte)
      reads this, ram, ppu, ppu.oamData, ppu.chr, ppu.vram, ppu.paletteTable, Devices()
      requires Valid()
    {
      var t := Route(|prgRom|, addr);
      (PortOf(t).Some? ==> PortWriteDefined(PortOf(t).value, ViewOf(ppu), ppu.mirroring, data)) &&
      (t.OamDma? ==> Dma(WiringOf(), MachineOf(), data).Some?)
    }

    /// `write`.
    method Write(addr: u16, data: byte)
      requires Valid() && WriteDefined(addr, data)
      modifies ram, ppu, ppu.oamData, ppu.chr, ppu.vram, ppu.paletteTable, Devices()
      decreases addr
      ensures Valid()
      ensures var t := Route(|prgRom|, addr);
        ram[..] == if t.Ram? then old(ram[..])[t.index := data] else old(ram[..])
      ensures var t := Route(|prgRom|, addr);
        !t.OamDma? ==>
          ViewOf(ppu) ==
            if PortOf(t).Some? then PortWrite(PortOf(t).value, old(ViewOf(ppu)), ppu.mirroring, data)
            else old(ViewOf(ppu))
      ensures Route(|prgRom|, addr).OamDma? ==>
        Dma(old(WiringOf()), old(MachineOf()), data) == Some((MachineOf(), ppu.oamData[..])) &&
        ppu.Video() == old(ppu.Video())
      ensures var t := Route(|prgRom|, addr);
        (t.Joy1? ==>
          (device1.Some? ==> device1.value.State() == Pad.WriteStep(old(device1.value.State()), data)) &&
          (device2.Some? ==> device2.value.State() == Pad.WriteStep(old(device2.value.State()), data))) &&
        (!t.Joy1? && !t.OamDma? ==> DeviceStates() == old(DeviceStates()))
    {
      var t := Route(|prgRom|, addr);
      match t
      case Ram(i) =>
        ram[i] := data;
      case PpuPort(port) =>
        WritePort(ppu, port, data);
      case PpuMirror(_) =>
        PpuWindowMirrors(|prgRom|, addr);
        Write(MirrorDownPpu(addr), data);
      case Apu =>
      case OamDma =>
        DmaTransfer(data);
      case Joy1 =>
        WriteControllers(data);
      case Joy2 =>
      case PrgRom(_) =>
      case Unmapped =>
    }

    /// The $4016 write: the strobe goes to every connected controller.
    method WriteControllers(data: byte)
      modifies Devices()
      ensures device1.Some? ==> device1.value.State() == Pad.WriteStep(old(device1.value.State()), data)
      ensures device2.Some? ==> device2.value.State() == Pad.WriteStep(old(device2.value.State()), data)
    {
      if device1.Some? {
        device1.value.Write(data);
      }
      if device2.Some? {
        device2.value.Write(data);
      }
    }

    /// The $4014 write: read the page through `read` into a buffer, then
    /// hand it to the PPU's OAM DMA.
    method DmaTransfer(page: byte)
      requires Valid() && Dma(WiringOf(), MachineOf(), page).Some?
      modifies ppu, ppu.oamData, Devices()
      ensures Valid()
      ensures Dma(old(WiringOf()), old(MachineOf()), page) == Some((MachineOf(), ppu.oamData[..]))
      ensures ppu.Video() == old(ppu.Video())
    {
      ghost var trace := PageTrace(WiringOf(), MachineOf(), page, 256);
      ghost var bytes := PageReads(WiringOf(), MachineOf(), page, 256).value.1;
      var buffer := ReadPage(page, WiringOf(), trace, bytes);
      ppu.WriteOamDma(buffer);
    }

    /// The 256 reads of the DMA loop, as `trace` and `bytes` describe them:
    /// read `k` leaves machine `k + 1` and answers byte `k`.
    method ReadPage(page: byte, ghost w: Wiring, ghost trace: seq<Machine>, ghost bytes: seq<byte>) returns (buffer: array<byte>)
      requires Valid() && WiringOf() == w && |trace| == 257 && |bytes| == 256 && trace[0] == MachineOf()
      requires forall k | 0 <= k < 256 :: ReadOnce(w, trace[k], DmaAddress(page, k)) == Some((trace[k + 1], bytes[k]))
      modifies ppu, Devices()
      ensures fresh(buffer) && Valid() && WiringOf() == w
      ensures MachineOf() == trace[256] && buffer[..] == bytes
    {
      var read: seq<byte> := [];
      var i := 0;
      while i < 256
        invariant 0 <= i <= 256
        invariant Valid() && WiringOf() == w && MachineOf() == trace[i]
        invariant read == bytes[..i]
      {
        var b := ReadNext(DmaAddress(page, i), w, trace[i], trace[i + 1], bytes[i]);
        read := read + [b];
        i := i + 1;
      }
      buffer := new byte[256](k requires 0 <= k < 256 => read[k]);
      assert buffer[..] == read == bytes;
    }

    /// `read` as the DMA loop uses it: the step `ReadOnce` describes.
    method ReadNext(addr: u16, ghost w: Wiring, ghost m: Machine, ghost m': Machine, ghost b: byte) returns (value: byte)
      requires Valid() && WiringOf() == w && MachineOf() == m && ReadOnce(w, m, addr) == Some((m', b))
      modifies ppu, Devices()
      ensures Valid() && WiringOf() == w && MachineOf() == m' && value == b
    {
      value := Read(addr);
    }
  }
}

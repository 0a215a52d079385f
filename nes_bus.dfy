/// The console bus of the current emulator (nes/src/bus/mod.rs): 2 KiB of
/// RAM, the PPU's ports, the first controller and the PRG-ROM, with the
/// same address map as the NROM mapper but stricter: reading a write-only
/// port, writing PPUSTATUS and writing PRG-ROM panic.  It also keeps the
/// CPU cycle count and clocks the PPU three dots per CPU cycle.
module NesBus {
  import opened Tools
  import opened Cartridge
  import opened PpuMemory
  import opened Ppu
  import opened CpuMemoryMap
  import opened PpuPorts
  import Pad = Joypad

  // ----- the PPU clock driven by `tick` ----------------------------------

  /// `n` PPU steps, and whether any of them ended a frame.
  function StepsFrame(r: Registers, n: nat): (Registers, bool)
    decreases n
  {
    if n == 0 then (r, false)
    else
      var (before, ended) := StepsFrame(r, n - 1);
      var (after, now) := StepSpec(before);
      (after, ended || now)
  }

  lemma {:induction false} StepNLast(r: Registers, n: nat)
    requires n > 0
    ensures StepN(r, n) == StepSpec(StepN(r, n - 1)).0
    decreases n
  {
    if n > 1 {
      StepNLast(StepSpec(r).0, n - 1);
    }
  }

  /// The steps taken are those of `StepN`.
  lemma {:induction false} StepsFrameSteps(r: Registers, n: nat)
    ensures StepsFrame(r, n).0 == StepN(r, n)
    decreases n
  {
    if n > 0 {
      StepsFrameSteps(r, n - 1);
      StepNLast(r, n);
    }
  }

  /// A frame is reported exactly when the steps reach or pass the last dot
  /// of the frame: `tick` asks for a render at most once however many dots
  /// it runs.
  lemma {:induction false} StepsFrameEnds(r: Registers, n: nat)
    requires ValidClock(r)
    ensures StepsFrame(r, n).1 <==> Position(r) + n >= DOTS_PER_FRAME
    decreases n
  {
    if n > 0 {
      StepsFrameEnds(r, n - 1);
      StepsFrameSteps(r, n - 1);
      var before := StepN(r, n - 1);
      StepsAdvance(r, n - 1);
      StepReportsFrame(before);
      FrameEndCount(Position(r), n, Position(before));
    }
  }

  /// A frame ends within `n` places of `p` when it ends within the first
  /// `n - 1` or the last place taken is the frame's last dot.
  lemma FrameEndCount(p: nat, n: nat, q: nat)
    requires p < DOTS_PER_FRAME && n > 0 && q == PlacesOn(p, n - 1)
    ensures (p + n - 1 >= DOTS_PER_FRAME || q == DOTS_PER_FRAME - 1) <==> p + n >= DOTS_PER_FRAME
  {
  }

  /// The PPU's side of `tick`: `n` dots in a row.
  method RunPpu(p: Ppu, n: nat) returns (frame: bool)
    modifies p
    ensures (p.Regs(), frame) == StepsFrame(old(p.Regs()), n)
  {
    frame := false;
    var i := 0;
    while i < n
      invariant 0 <= i <= n
      invariant (p.Regs(), frame) == StepsFrame(old(p.Regs()), i)
    {
      var now := p.Step();
      frame := frame || now;
      i := i + 1;
    }
  }

  // ----- reads the bus can answer without effects -------------------------

  /// The bus reads that change nothing and do not panic: RAM, the APU,
  /// unmapped space and PRG-ROM inside the ROM.
  predicate Quiet(prgRom: seq<byte>, addr: u16) {
    var t := Route(|prgRom|, addr);
    (t.Ram? || t.Apu? || t.Unmapped? || t.PrgRom?) && (t.PrgRom? ==> t.offset < |prgRom|)
  }

  /// A page every read of which is quiet: so also one `Page` describes.
  predicate QuietPage(prgRom: seq<byte>, page: byte) {
    PeekablePage(prgRom, page) &&
    forall addr: u16 | page as int * 256 <= addr < page as int * 256 + 256 :: Quiet(prgRom, addr)
  }

  /// The little-endian word at `pos` and `pos + 1` (wrapping at 0xFFFF).
  function PeekU16(ram: seq<byte>, prgRom: seq<byte>, pos: u16): u16
    requires |ram| == 0x800 && Quiet(prgRom, pos) && Quiet(prgRom, WrapAdd16(pos, 1))
  {
    BytesToU16([PlainValue(ram, prgRom, pos), PlainValue(ram, prgRom, WrapAdd16(pos, 1))])
  }

  /// RAM after `write_u16` at an address whose two bytes land in RAM: the
  /// low byte at `pos`, the high byte at `pos + 1`.
  function RamAfterU16(ram: seq<byte>, pos: u16, data: u16): (r: seq<byte>)
    requires |ram| == 0x800 && pos < RAM_END
    ensures |r| == 0x800
  {
    var bytes := U16ToBytes(data);
    ram[RamIndex(pos) := bytes[0]][RamIndex(pos + 1) := bytes[1]]
  }

  /// `write_u16` then `read_u16` at the same address in RAM gives the word
  /// back, through whichever mirror: the two bytes go to neighbouring cells
  /// (0x7FF and 0x000 when the word straddles the end of a mirror).
  lemma WordRoundTrip(ram: seq<byte>, prgRom: seq<byte>, pos: u16, data: u16)
    requires |ram| == 0x800 && pos < RAM_END
    ensures Quiet(prgRom, pos) && Quiet(prgRom, WrapAdd16(pos, 1))
    ensures PeekU16(RamAfterU16(ram, pos, data), prgRom, pos) == data
  {
    assert WrapAdd16(pos, 1) == pos + 1;
    assert RamIndex(pos) != RamIndex(pos + 1);
  }

  // ----- one access, and the word accesses, as values --------------------

  /// What a bus access can change: RAM, the PPU as its ports see it, and
  /// the controller's state.
  datatype BusState = BusState(ram: seq<byte>, view: PpuView, pad: Pad.PadState)

  predicate ValidState(s: BusState) {
    |s.ram| == 0x800 && ValidView(s.view)
  }

  /// `read` of a PPU port: a write-only port panics, the others answer
  /// as the PPU's port read.
  function PortReadOnce(mirroring: Mirroring, s: BusState, port: nat): Option<(BusState, byte)>
    requires ValidState(s)
  {
    if !WriteOnlyPort(port) && PortReadDefined(port, s.view, mirroring) then
      var (regs, b) := PortRead(port, s.view, mirroring);
      Some((s.(view := s.view.(regs := regs)), b))
    else None
  }

  /// `read` of `addr`: the state afterwards and the byte answered, or None
  /// where the read panics (a write-only port, $4014, a PRG-ROM index past
  /// the ROM, a PPUDATA read of an address the PPU does not serve).  A read
  /// leaves RAM, OAM and video memory alone.
  function ReadOnce(prgRom: seq<byte>, mirroring: Mirroring, s: BusState, addr: u16): (r: Option<(BusState, byte)>)
    requires ValidState(s)
    ensures r.Some? ==> r.value.0.ram == s.ram && r.value.0.view.oam == s.view.oam &&
                        r.value.0.view.video == s.view.video
  {
    match Route(|prgRom|, addr)
    case PpuPort(port) => PortReadOnce(mirroring, s, port)
    case PpuMirror(port) => PortReadOnce(mirroring, s, port)
    case OamDma => None
    case Joy1 =>
      var (pad, b) := Pad.ReadStep(s.pad);
      Some((s.(pad := pad), b))
    case Joy2 => Some((s, 0))
    case PrgRom(offset) =>
      if offset < |prgRom| then Some((s, prgRom[offset])) else None
    case _ => Some((s, PlainValue(s.ram, prgRom, addr)))
  }

  /// `write` of `data` at `addr`: the state afterwards, or None where the
  /// write panics (PPUSTATUS, PRG-ROM, a PPUDATA write of an address the
  /// PPU does not serve, a DMA of a page with a read that panics).
  function WriteOnce(prgRom: seq<byte>, mirroring: Mirroring, s: BusState, addr: u16, data: byte): (r: Option<BusState>)
    requires ValidState(s)
    ensures r.Some? ==> ValidState(r.value)
  {
    match Route(|prgRom|, addr)
    case Ram(i) => Some(s.(ram := s.ram[i := data]))
    case PpuPort(port) => PortWriteOnce(mirroring, s, port, data)
    case PpuMirror(port) => PortWriteOnce(mirroring, s, port, data)
    case OamDma =>
      if QuietPage(prgRom, data) then
        Some(s.(view := s.view.(oam := DmaImage(s.view.regs.oamAddr, Page(s.ram, prgRom, data)))))
      else None
    case Joy1 => Some(s.(pad := Pad.WriteStep(s.pad, data)))
    case PrgRom(_) => None
    case _ => Some(s)
  }

  /// `write` of a PPU port: PPUSTATUS panics, the others act as the PPU's
  /// port write.
  function PortWriteOnce(mirroring: Mirroring, s: BusState, port: nat, data: byte): (r: Option<BusState>)
    requires ValidState(s)
    ensures r.Some? ==> ValidState(r.value)
  {
    if port != PPUSTATUS && PortWriteDefined(port, s.view, mirroring, data) then
      Some(s.(view := PortWrite(port, s.view, mirroring, data)))
    else None
  }

  /// `read_u16`: the low byte at `pos`, then the high byte at `pos + 1`
  /// (wrapping at 0xFFFF), each read acting on the state the one before
  /// left.
  function ReadWord(prgRom: seq<byte>, mirroring: Mirroring, s: BusState, pos: u16): (r: Option<(BusState, u16)>)
    requires ValidState(s)
    ensures r.Some? ==> r.value.0.ram == s.ram && r.value.0.view.oam == s.view.oam &&
                        r.value.0.view.video == s.view.video
  {
    match ReadOnce(prgRom, mirroring, s, pos)
    case None => None
    case Some((s1, lo)) =>
      match ReadOnce(prgRom, mirroring, s1, WrapAdd16(pos, 1))
      case None => None
      case Some((s2, hi)) => Some((s2, BytesToU16([lo, hi])))
  }

  /// `write_u16`: the low byte at `pos`, then the high byte at `pos + 1`.
  function WriteWord(prgRom: seq<byte>, mirroring: Mirroring, s: BusState, pos: u16, data: u16): (r: Option<BusState>)
    requires ValidState(s)
    ensures r.Some? ==> ValidState(r.value)
  {
    var bytes := U16ToBytes(data);
    match WriteOnce(prgRom, mirroring, s, pos, bytes[0])
    case None => None
    case Some(s1) => WriteOnce(prgRom, mirroring, s1, WrapAdd16(pos, 1), bytes[1])
  }

  /// A quiet read answers the mapped byte and changes nothing.
  lemma QuietReadOnce(prgRom: seq<byte>, mirroring: Mirroring, s: BusState, addr: u16)
    requires ValidState(s) && Quiet(prgRom, addr)
    ensures ReadOnce(prgRom, mirroring, s, addr) == Some((s, PlainValue(s.ram, prgRom, addr)))
  {
  }

  /// Two quiet reads give the little-endian word and change nothing.
  lemma QuietReadWord(prgRom: seq<byte>, mirroring: Mirroring, s: BusState, pos: u16)
    requires ValidState(s) && Quiet(prgRom, pos) && Quiet(prgRom, WrapAdd16(pos, 1))
    ensures ReadWord(prgRom, mirroring, s, pos) == Some((s, PeekU16(s.ram, prgRom, pos)))
  {
    QuietReadOnce(prgRom, mirroring, s, pos);
    QuietReadOnce(prgRom, mirroring, s, WrapAdd16(pos, 1));
  }

  /// A word written at a RAM address below the last one lands in RAM as
  /// `RamAfterU16` says, and nothing else changes.
  lemma RamWriteWord(prgRom: seq<byte>, mirroring: Mirroring, s: BusState, pos: u16, data: u16)
    requires ValidState(s) && pos < RAM_END
    ensures WriteWord(prgRom, mirroring, s, pos, data) == Some(s.(ram := RamAfterU16(s.ram, pos, data)))
  {
    assert WrapAdd16(pos, 1) == pos + 1;
  }

  /// The first read of a page that is not quiet: it is not quiet, and the
  /// reads before it are.
  lemma FirstNoisyRead(prgRom: seq<byte>, page: byte) returns (k: nat)
    requires !QuietPage(prgRom, page)
    ensures k < 256 && !Quiet(prgRom, DmaAddress(page, k))
    ensures forall j | 0 <= j < k :: Quiet(prgRom, DmaAddress(page, j))
  {
    var base := page as int * 256;
    var a: u16 :| base <= a < base + 256 && !(Peekable(prgRom, a) && Quiet(prgRom, a));
    k := 0;
    while k < a - base && Quiet(prgRom, DmaAddress(page, k))
      invariant k <= a - base
      invariant forall j | 0 <= j < k :: Quiet(prgRom, DmaAddress(page, j))
    {
      k := k + 1;
    }
  }

  /// Pages of RAM and of unmapped space are quiet throughout.
  lemma QuietPlainPage(prgRom: seq<byte>, page: byte, i: nat)
    requires page < 0x20 || 0x40 < page < 0x80
    requires i < 256
    ensures Quiet(prgRom, DmaAddress(page, i))
  {
  }

  /// The first read of a page of the port window reaches PPUCTRL, which
  /// panics.
  lemma PortPagePanics(prgRom: seq<byte>, mirroring: Mirroring, s: BusState, page: byte)
    requires ValidState(s) && 0x20 <= page < 0x40
    ensures !Quiet(prgRom, DmaAddress(page, 0))
    ensures ReadOnce(prgRom, mirroring, s, DmaAddress(page, 0)).None?
  {
    var x := DmaAddress(page, 0);
    if page > 0x20 {
      PpuWindowMirrors(|prgRom|, x);
    }
  }

  /// Page 0x40 reads the APU's registers quietly up to $4014, which panics.
  lemma DmaPagePanics(prgRom: seq<byte>, mirroring: Mirroring, s: BusState, j: nat)
    requires ValidState(s) && j <= 0x14
    ensures j < 0x14 ==> Quiet(prgRom, DmaAddress(0x40, j))
    ensures j == 0x14 ==> !Quiet(prgRom, DmaAddress(0x40, j)) &&
                          ReadOnce(prgRom, mirroring, s, DmaAddress(0x40, j)).None?
  {
  }

  /// A read of a PRG-ROM page that is not quiet indexes past the ROM.
  lemma PrgPagePanics(prgRom: seq<byte>, mirroring: Mirroring, s: BusState, page: byte, k: nat)
    requires ValidState(s) && 0x80 <= page && k < 256 && !Quiet(prgRom, DmaAddress(page, k))
    ensures ReadOnce(prgRom, mirroring, s, DmaAddress(page, k)).None?
  {
  }

  /// A page that is not quiet holds a read that panics, and every read of
  /// the page before that one is quiet, so the DMA loop reaches it from an
  /// unchanged state: byte 0 (PPUCTRL, write-only) of a page of the port
  /// window, $4014 of page 0x40, the first index past the ROM of a PRG-ROM
  /// page.  So a write of $4014 panics exactly where `WriteOnce` is None.
  lemma NoisyPagePanics(prgRom: seq<byte>, mirroring: Mirroring, s: BusState, page: byte) returns (k: nat)
    requires ValidState(s) && !QuietPage(prgRom, page)
    ensures k < 256 && ReadOnce(prgRom, mirroring, s, DmaAddress(page, k)).None?
    ensures forall j | 0 <= j < k :: Quiet(prgRom, DmaAddress(page, j))
  {
    k := FirstNoisyRead(prgRom, page);
    if page < 0x20 || 0x40 < page < 0x80 {
      QuietPlainPage(prgRom, page, k);
      assert false;
    } else if page < 0x40 {
      PortPagePanics(prgRom, mirroring, s, page);
      assert k == 0;
    } else if page == 0x40 {
      if k < 0x14 {
        DmaPagePanics(prgRom, mirroring, s, k);
        assert false;
      } else if k > 0x14 {
        assert Quiet(prgRom, DmaAddress(page, 0x14));
        DmaPagePanics(prgRom, mirroring, s, 0x14);
        assert false;
      }
      DmaPagePanics(prgRom, mirroring, s, k);
    } else {
      PrgPagePanics(prgRom, mirroring, s, page, k);
    }
  }

  /// A word written into RAM reads back unchanged, and reading it changes
  /// nothing.
  lemma BusWordRoundTrip(prgRom: seq<byte>, mirroring: Mirroring, s: BusState, pos: u16, data: u16)
    requires ValidState(s) && pos < RAM_END
    ensures WriteWord(prgRom, mirroring, s, pos, data).Some?
    ensures var s' := WriteWord(prgRom, mirroring, s, pos, data).value;
      ReadWord(prgRom, mirroring, s', pos) == Some((s', data))
  {
    RamWriteWord(prgRom, mirroring, s, pos, data);
    var s' := s.(ram := RamAfterU16(s.ram, pos, data));
    WordRoundTrip(s.ram, prgRom, pos, data);
    QuietReadWord(prgRom, mirroring, s', pos);
  }

  /// The 64 KiB image of `memory`: RAM in each of its four mirrors, the
  /// 16 KiB PRG-ROM at 0x8000 and again at 0xC000, zero elsewhere.
  function Image(ram: seq<byte>, prgRom: seq<byte>): (m: seq<byte>)
    requires |ram| == 0x800 && |prgRom| == 0x4000
    ensures |m| == 0x10000
  {
    seq(0x10000, i requires 0 <= i < 0x10000 =>
      if i <= RAM_END then ram[i % 0x800]
      else if i >= PRG_ROM then prgRom[(i - 0x8000) % 0x4000]
      else 0)
  }

  /// The image agrees with what `read` answers at every RAM and PRG-ROM
  /// address, and is 0 across the registers and unmapped space.
  lemma ImageMatchesReads(ram: seq<byte>, prgRom: seq<byte>, addr: u16)
    requires |ram| == 0x800 && |prgRom| == 0x4000
    ensures addr <= RAM_END || addr >= PRG_ROM ==>
      Quiet(prgRom, addr) && Image(ram, prgRom)[addr] == PlainValue(ram, prgRom, addr)
    ensures RAM_END < addr < PRG_ROM ==> Image(ram, prgRom)[addr] == 0
  {
    if addr >= PRG_ROM {
      PrgMirroring(addr);
    }
  }

  /// `Bus`: the console RAM, the PRG-ROM copied from the cartridge, the
  /// PPU, the CPU cycle count and the first controller.  The render
  /// callback is foreign code; `framesRendered` counts its calls.
  class Bus {
    const ram: array<byte>
    const prgRom: seq<byte>
    const ppu: Ppu
    const joypad1: Pad.Joypad
    var cycles: nat
    var framesRendered: nat

    predicate Valid() {
      ram.Length == 0x800 && ppu.Valid() &&
      ram != ppu.chr && ram != ppu.vram && ram != ppu.oamData && ram != ppu.paletteTable
    }

    /// `new`: zeroed RAM, no cycles, a fresh controller.
    constructor (prgRom: seq<byte>, ppu: Ppu)
      requires ppu.Valid()
      ensures Valid() && fresh(ram) && fresh(joypad1)
      ensures this.prgRom == prgRom && this.ppu == ppu
      ensures forall i | 0 <= i < 0x800 :: ram[i] == 0
      ensures cycles == 0 && framesRendered == 0 && joypad1.State() == Pad.PadState(false, 0, 0)
    {
      ram := new byte[0x800](_ => 0);
      this.prgRom := prgRom;
      this.ppu := ppu;
      joypad1 := new Pad.Joypad();
      cycles := 0;
      framesRendered := 0;
    }

    /// `tick`: count the CPU cycles, run the PPU three dots per cycle, and
    /// call the render callback when a frame ended.
    method Tick(n: nat)
      modifies this, ppu
      ensures cycles == old(cycles) + n
      ensures (ppu.Regs(), framesRendered) ==
        var (regs, frame) := StepsFrame(old(ppu.Regs()), 3 * n);
        (regs, old(framesRendered) + if frame then 1 else 0)
    {
      cycles := cycles + n;
      var newFrame := RunPpu(ppu, 3 * n);
      if newFrame {
        framesRendered := framesRendered + 1;
      }
    }

    /// `poll_nmi_status`.
    method PollNmiStatus() returns (nmi: Option<byte>)
      modifies ppu
      ensures nmi == old(ppu.nmiInterrupt) && ppu.Regs() == old(ppu.Regs()).(nmiInterrupt := None)
    {
      nmi := ppu.PollNmiInterrupt();
    }

    /// `memory`: the 64 KiB image; copying the PRG-ROM into two 16 KiB
    /// windows needs a 16 KiB ROM.
    method Memory() returns (m: seq<byte>)
      requires Valid() && |prgRom| == 0x4000
      ensures m == Image(ram[..], prgRom)
    {
      m := Image(ram[..], prgRom);
    }

    /// RAM, the PPU as its ports see it, and the controller's state.
    function StateOf(): (s: BusState)
      reads this, ram, ppu, ppu.oamData, ppu.chr, ppu.vram, ppu.paletteTable, joypad1
      requires Valid()
      ensures ValidState(s)
    {
      BusState(ram[..], ViewOf(ppu), joypad1.State())
    }

    /// What `read` needs so as not to panic: no write-only port and no
    /// $4014, a PRG-ROM index inside the ROM, and a PPUDATA read of an
    /// address the PPU serves.
    predicate ReadDefined(addr: u16)
      reads this, ram, ppu, ppu.oamData, ppu.chr, ppu.vram, ppu.paletteTable, joypad1
      requires Valid()
    {
      ReadOnce(prgRom, ppu.mirroring, StateOf(), addr).Some?
    }

    /// `read`.
    method Read(addr: u16) returns (value: byte)
      requires Valid() && ReadDefined(addr)
      modifies ppu, joypad1
      decreases addr
      ensures Valid()
      ensures ReadOnce(prgRom, ppu.mirroring, old(StateOf()), addr) == Some((StateOf(), value))
      ensures var t := Route(|prgRom|, addr);
        (Quiet(prgRom, addr) ==> value == PlainValue(ram[..], prgRom, addr)) &&
        (PortOf(t).Some? ==> (ppu.Regs(), value) == PortRead(PortOf(t).value, old(ViewOf(ppu)), ppu.mirroring)) &&
        (PortOf(t).None? ==> ppu.Regs() == old(ppu.Regs()))
      ensures var t := Route(|prgRom|, addr);
        (t.Joy1? ==> (joypad1.State(), value) == Pad.ReadStep(old(joypad1.State()))) &&
        (t.Joy2? ==> value == 0) &&
        (!t.Joy1? ==> joypad1.State() == old(joypad1.State()))
    {
      var t := Route(|prgRom|, addr);
      match t
      case Ram(i) =>
        value := ram[i];
      case PpuPort(port) =>
        value := ReadPort(ppu, port);
      case PpuMirror(_) =>
        PpuWindowMirrors(|prgRom|, addr);
        value := Read(MirrorDownPpu(addr));
      case Apu =>
        value := 0;
      case Joy1 =>
        value := joypad1.Read();
      case Joy2 =>
        value := 0;
      case PrgRom(offset) =>
        value := prgRom[offset];
      case Unmapped =>
        value := 0;
    }

    /// What `write` needs so as not to panic: not PPUSTATUS, not PRG-ROM,
    /// a PPUDATA write of an address the PPU serves, and for an OAM DMA a
    /// page whose every read is quiet.
    predicate WriteDefined(addr: u16, data: byte)
      reads this, ram, ppu, ppu.oamData, ppu.chr, ppu.vram, ppu.paletteTable, joypad1
      requires Valid()
    {
      WriteOnce(prgRom, ppu.mirroring, StateOf(), addr, data).Some?
    }

    /// `write`.
    method Write(addr: u16, data: byte)
      requires Valid() && WriteDefined(addr, data)
      modifies ram, ppu, ppu.oamData, ppu.chr, ppu.vram, ppu.paletteTable, joypad1
      decreases addr
      ensures Valid()
      ensures WriteOnce(prgRom, ppu.mirroring, old(StateOf()), addr, data) == Some(StateOf())
      ensures var t := Route(|prgRom|, addr);
        ram[..] == if t.Ram? then old(ram[..])[t.index := data] else old(ram[..])
      ensures var t := Route(|prgRom|, addr);
        ViewOf(ppu) ==
          if PortOf(t).Some? then PortWrite(PortOf(t).value, old(ViewOf(ppu)), ppu.mirroring, data)
          else if t.OamDma? then old(ViewOf(ppu)).(oam := DmaImage(old(ppu.oamAddr), Page(old(ram[..]), prgRom, data)))
          else old(ViewOf(ppu))
      ensures var t := Route(|prgRom|, addr);
        joypad1.State() == if t.Joy1? then Pad.WriteStep(old(joypad1.State()), data) else old(joypad1.State())
    {
      var t := Route(|prgRom|, addr);
      match t
      case Ram(i) =>
        ram[i] := data;
      case PpuPort(port) =>
        WritePort(ppu, port, data);
      case PpuMirror(_) =>
        PpuWindowMirrors(|prgRom|, addr);
        Write(MirrorDownPpu(addr), data);
      case Apu =>
      case OamDma =>
        DmaTransfer(data);
      case Joy1 =>
        joypad1.Write(data);
      case Joy2 =>
      case Unmapped =>
    }

    /// The $4014 write: read the page into a buffer, then hand it to the
    /// PPU's OAM DMA.
    method DmaTransfer(page: byte)
      requires Valid() && QuietPage(prgRom, page)
      modifies ppu, ppu.oamData, joypad1
      ensures joypad1.State() == old(joypad1.State())
      ensures ViewOf(ppu) == old(ViewOf(ppu)).(oam := DmaImage(old(ppu.oamAddr), Page(ram[..], prgRom, page)))
    {
      var buffer := ReadPage(page);
      ppu.WriteOamDma(buffer);
    }

    /// The 256 reads of the DMA loop.
    method ReadPage(page: byte) returns (buffer: array<byte>)
      requires Valid() && QuietPage(prgRom, page)
      modifies ppu, joypad1
      ensures fresh(buffer) && buffer[..] == Page(ram[..], prgRom, page)
      ensures ppu.Regs() == old(ppu.Regs())
      ensures joypad1.State() == old(joypad1.State())
    {
      buffer := new byte[256];
      ghost var image := Page(ram[..], prgRom, page);
      var hi := page as int * 256;
      var i := 0;
      while i < 256
        invariant 0 <= i <= 256
        invariant ppu.Regs() == old(ppu.Regs())
        invariant joypad1.State() == old(joypad1.State())
        invariant forall k | 0 <= k < i :: buffer[k] == image[k]
      {
        var b := ReadQuiet(hi + i);
        assert b == image[i];
        buffer[i] := b;
        i := i + 1;
      }
      assert buffer[..] == buffer[..256];
    }

    /// `read` of an address whose read changes nothing.
    method ReadQuiet(addr: u16) returns (value: byte)
      requires Valid() && Quiet(prgRom, addr)
      modifies ppu, joypad1
      ensures value == PlainValue(ram[..], prgRom, addr)
      ensures ppu.Regs() == old(ppu.Regs())
      ensures joypad1.State() == old(joypad1.State())
    {
      value := Read(addr);
    }

    /// `read_u16`: two reads, the low byte at `pos`, then the high byte
    /// at `pos + 1` (wrapping at 0xFFFF).
    method ReadU16(pos: u16) returns (value: u16)
      requires Valid() && ReadWord(prgRom, ppu.mirroring, StateOf(), pos).Some?
      modifies ppu, joypad1
      ensures Valid()
      ensures ReadWord(prgRom, ppu.mirroring, old(StateOf()), pos) == Some((StateOf(), value))
    {
      var lo := Read(pos);
      var hi := Read(WrapAdd16(pos, 1));
      value := BytesToU16([lo, hi]);
    }

    /// `write_u16`: two writes, the low byte at `pos`, then the high byte
    /// at `pos + 1` (wrapping at 0xFFFF).
    method WriteU16(pos: u16, data: u16)
      requires Valid() && WriteWord(prgRom, ppu.mirroring, StateOf(), pos, data).Some?
      modifies ram, ppu, ppu.oamData, ppu.chr, ppu.vram, ppu.paletteTable, joypad1
      ensures Valid()
      ensures WriteWord(prgRom, ppu.mirroring, old(StateOf()), pos, data) == Some(StateOf())
    {
      var bytes := U16ToBytes(data);
      Write(pos, bytes[0]);
      Write(WrapAdd16(pos, 1), bytes[1]);
    }
  }
}

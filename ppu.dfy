/// The picture processing unit's registers and memories
/// (nes/src/ppu/mod.rs): the CPU-visible ports $2000-$2007 and $4014, the
/// dot/scanline clock, the VRAM address latch and the read buffer.
module Ppu {
  import opened Tools
  import opened Cartridge
  import opened PpuRegisters
  import opened PpuMemory
  import PpuAddr

  type word = PpuAddr.word

  // StatusRegister flags.
  const SPRITE_OVERFLOW: byte := 0x20
  const SPRITE_ZERO_HIT: byte := 0x40
  const VBLANK_STARTED: byte := 0x80

  /// Writes to $2000, $2001, $2005 and $2006 are ignored while the PPU warms
  /// up after power-on or reset.
  const WARM_UP_CYCLES: nat := 9886

  const DOTS_PER_SCANLINE: nat := 341
  const SCANLINES_PER_FRAME: nat := 262
  const DOTS_PER_FRAME: nat := 89342

  predicate InVblank(status: byte) {
    status & VBLANK_STARTED != 0
  }

  /// The PPU's scalar state: everything but its memories.
  datatype Registers = Registers(
    oamAddr: u8,
    registerLatch: bool,
    ctrl: byte,
    mask: byte,
    status: byte,
    vramAddr: word,
    tempAddr: word,
    scrollFineX: byte,
    internalDataBuf: byte,
    scanline: nat,
    oddFrame: bool,
    dot: nat,
    cycles: nat,
    nmiInterrupt: Option<byte>)

  /// The registers of `PPU::new`.
  function PowerUp(): Registers {
    Registers(0, false, 0, 0, 0, 0, 0, 0, 0, 0, false, 0, 0, None)
  }

  /// `reset`: control and mask cleared, the clock back at dot 0 of
  /// scanline 0 of an even frame, no NMI pending; the address latch and
  /// VRAM addresses are kept.
  function ResetSpec(r: Registers): Registers {
    r.(ctrl := 0, mask := 0, scanline := 0, oddFrame := false, dot := 0, cycles := 0, nmiInterrupt := None)
  }

  // ----- the clock -------------------------------------------------------

  /// `step`: one dot; the answer says whether a frame has just ended.
  function StepSpec(r: Registers): (Registers, bool) {
    var dot := r.dot + 1;
    var cycles := r.cycles + 1;
    if dot >= DOTS_PER_SCANLINE then
      var scanline := r.scanline + 1;
      if scanline >= SCANLINES_PER_FRAME then
        (r.(dot := dot % DOTS_PER_SCANLINE, cycles := cycles, scanline := 0, oddFrame := !r.oddFrame), true)
      else
        (r.(dot := dot % DOTS_PER_SCANLINE, cycles := cycles, scanline := scanline), false)
    else
      (r.(dot := dot, cycles := cycles), false)
  }

  predicate ValidClock(r: Registers) {
    r.dot < DOTS_PER_SCANLINE && r.scanline < SCANLINES_PER_FRAME
  }

  /// The dot's place in the frame, counted from dot 0 of scanline 0.
  function Position(r: Registers): nat {
    r.scanline * DOTS_PER_SCANLINE + r.dot
  }

  /// A step moves one place through the frame, wrapping after the last dot
  /// of scanline 261, and reports the end of the frame exactly then, when
  /// the frame parity flips.  It counts one cycle and touches nothing else.
  lemma StepAdvances(r: Registers)
    requires ValidClock(r)
    ensures var (next, frame) := StepSpec(r);
      ValidClock(next) &&
      Position(next) == (Position(r) + 1) % DOTS_PER_FRAME &&
      (frame <==> Position(r) == DOTS_PER_FRAME - 1) &&
      (next.oddFrame <==> r.oddFrame != frame) &&
      next.cycles == r.cycles + 1 &&
      next.(dot := r.dot, scanline := r.scanline, oddFrame := r.oddFrame, cycles := r.cycles) == r
  {
    var p := Position(r);
    assert p <= 261 * 341 + 340;
    if r.dot + 1 < DOTS_PER_SCANLINE {
      assert Position(StepSpec(r).0) == p + 1;
    } else if r.scanline + 1 < SCANLINES_PER_FRAME {
      assert Position(StepSpec(r).0) == (r.scanline + 1) * 341;
    } else {
      assert p == DOTS_PER_FRAME - 1;
    }
  }

  /// `n` steps in a row.
  function StepN(r: Registers, n: nat): Registers
    decreases n
  {
    if n == 0 then r else StepN(StepSpec(r).0, n - 1)
  }

  /// After `n` steps the clock is `n` places further on, modulo a frame,
  /// and the cycle count has grown by `n`.
  lemma {:induction false} StepsAdvance(r: Registers, n: nat)
    requires ValidClock(r)
    ensures var last := StepN(r, n);
      ValidClock(last) &&
      Position(last) == PlacesOn(Position(r), n) &&
      last.cycles == r.cycles + n
    decreases n
  {
    if n > 0 {
      var next := StepSpec(r).0;
      StepClock(r);
      StepsAdvance(next, n - 1);
      AdvanceShift(Position(r), Position(next), n);
    }
  }

  /// ... and the frame parity has flipped once per frame boundary crossed.
  lemma {:induction false} StepsParity(r: Registers, n: nat)
    requires ValidClock(r)
    ensures StepN(r, n).oddFrame <==> r.oddFrame != OddFrames(Position(r), n)
    decreases n
  {
    if n > 0 {
      var next := StepSpec(r).0;
      StepClock(r);
      StepsParity(next, n - 1);
      ParityShift(Position(r), Position(next), n);
    }
  }

  /// The clock facts of one step that the counting lemmas use.
  lemma StepClock(r: Registers)
    requires ValidClock(r)
    ensures var next := StepSpec(r).0;
      ValidClock(next) && next.cycles == r.cycles + 1 &&
      Position(next) == (Position(r) + 1) % DOTS_PER_FRAME &&
      (next.oddFrame <==> r.oddFrame != (Position(r) == DOTS_PER_FRAME - 1))
  {
    StepAdvances(r);
  }

  /// A step reports a frame exactly from the frame's last dot.
  lemma StepReportsFrame(r: Registers)
    requires ValidClock(r)
    ensures StepSpec(r).1 <==> Position(r) == DOTS_PER_FRAME - 1
  {
    StepAdvances(r);
  }

  /// One place on, then `n - 1` more, is `n` places on.
  lemma AdvanceShift(p: nat, q: nat, n: nat)
    requires p < DOTS_PER_FRAME && n > 0 && q == (p + 1) % DOTS_PER_FRAME
    ensures PlacesOn(q, n - 1) == PlacesOn(p, n)
  {
    if p + 1 == DOTS_PER_FRAME {
      DivModShift(n - 1);
    }
  }

  /// The frames crossed in `n` places are those crossed in the last `n - 1`
  /// plus one when the first place wraps.
  lemma ParityShift(p: nat, q: nat, n: nat)
    requires p < DOTS_PER_FRAME && n > 0 && q == (p + 1) % DOTS_PER_FRAME
    ensures OddFrames(q, n - 1) <==> (OddFrames(p, n) != (p == DOTS_PER_FRAME - 1))
  {
    if p + 1 == DOTS_PER_FRAME {
      DivModShift(n - 1);
    }
  }

  /// The place `n` places on from `p`, modulo a frame.
  function PlacesOn(p: nat, n: nat): nat {
    (p + n) % DOTS_PER_FRAME
  }

  /// Whether an odd number of frame boundaries lies `n` places on from `p`.
  function OddFrames(p: nat, n: nat): bool {
    ((p + n) / DOTS_PER_FRAME) % 2 == 1
  }

  lemma DivModShift(x: nat)
    ensures (x + DOTS_PER_FRAME) / DOTS_PER_FRAME == x / DOTS_PER_FRAME + 1
    ensures (x + DOTS_PER_FRAME) % DOTS_PER_FRAME == x % DOTS_PER_FRAME
  {
  }

  /// One whole frame of steps from dot 0 of scanline 0 comes back there
  /// with the parity flipped.
  lemma FrameLength(r: Registers)
    requires r.dot == 0 && r.scanline == 0
    ensures var last := StepN(r, DOTS_PER_FRAME);
      last.dot == 0 && last.scanline == 0 && last.oddFrame == !r.oddFrame
  {
    StepsAdvance(r, DOTS_PER_FRAME);
    StepsParity(r, DOTS_PER_FRAME);
    assert PlacesOn(0, DOTS_PER_FRAME) == 0 && OddFrames(0, DOTS_PER_FRAME);
  }

  // ----- CPU-visible registers ------------------------------------------

  /// `write_to_ctrl`: after the warm-up, store the value; raise the NMI
  /// when generation is switched on during vertical blank; copy the
  /// nametable bits into the temporary address.
  function CtrlWritten(r: Registers, value: byte): Registers {
    if r.cycles < WARM_UP_CYCLES then r
    else
      var nmi := if !GenerateVblankNmi(r.ctrl) && GenerateVblankNmi(value) && InVblank(r.status)
                 then Some(1) else r.nmiInterrupt;
      r.(ctrl := value, nmiInterrupt := nmi, tempAddr := PpuAddr.WithNametable(r.tempAddr, GetNametable(value)))
  }

  /// The NMI is raised exactly on a 0-to-1 edge of bit 7 while the status
  /// reports vertical blank; otherwise a pending one stays as it was.  The
  /// temporary address takes the new nametable and keeps its other fields.
  lemma CtrlWriteEffects(r: Registers, value: byte)
    requires r.cycles >= WARM_UP_CYCLES
    ensures var r' := CtrlWritten(r, value);
      r'.ctrl == value &&
      (r'.nmiInterrupt == Some(1) <==> (r.ctrl < 0x80 && value >= 0x80 && r.status >= 0x80) || r.nmiInterrupt == Some(1)) &&
      (!(r.ctrl < 0x80 && value >= 0x80 && r.status >= 0x80) ==> r'.nmiInterrupt == r.nmiInterrupt) &&
      PpuAddr.Nametable(r'.tempAddr) == value & 3 &&
      PpuAddr.CoarseX(r'.tempAddr) == PpuAddr.CoarseX(r.tempAddr) &&
      PpuAddr.CoarseY(r'.tempAddr) == PpuAddr.CoarseY(r.tempAddr) &&
      PpuAddr.FineY(r'.tempAddr) == PpuAddr.FineY(r.tempAddr)
  {
    PpuAddr.SetNametableOnly(r.tempAddr, GetNametable(value));
    GenerateVblankNmiBit(r.ctrl);
    GenerateVblankNmiBit(value);
  }

  /// `write_to_mask`.
  function MaskWritten(r: Registers, value: byte): Registers {
    if r.cycles < WARM_UP_CYCLES then r else r.(mask := value)
  }

  /// `read_status`: the answer is the status; vertical blank is cleared and
  /// the address latch reset.
  function StatusRead(r: Registers): (Registers, byte) {
    (r.(status := r.status & !VBLANK_STARTED, registerLatch := false), r.status)
  }

  /// Reading the status clears only bit 7, so a second read no longer
  /// reports vertical blank, and the next $2005/$2006 write is a first
  /// write.
  lemma StatusReadEffects(r: Registers)
    ensures var (r', data) := StatusRead(r);
      data == r.status && !InVblank(r'.status) && r'.status & 0x7F == r.status & 0x7F &&
      !r'.registerLatch && StatusRead(r').1 < 0x80
  {
  }

  /// `write_to_scroll`: the first write sets fine and coarse X, the second
  /// fine and coarse Y, of the temporary address.
  function ScrollWritten(r: Registers, value: byte): Registers {
    if r.cycles < WARM_UP_CYCLES then r
    else if r.registerLatch then
      r.(tempAddr := PpuAddr.WithCoarseY(PpuAddr.WithFineY(r.tempAddr, value), value >> 3), registerLatch := false)
    else
      r.(scrollFineX := value & 7, tempAddr := PpuAddr.WithCoarseX(r.tempAddr, value >> 3), registerLatch := true)
  }

  /// Two writes to $2005 with the latch reset: X splits into fine X (low
  /// three bits) and coarse X, Y into fine Y and coarse Y; the nametable
  /// stays and the latch is reset again.
  lemma ScrollPair(r: Registers, x: byte, y: byte)
    requires r.cycles >= WARM_UP_CYCLES && !r.registerLatch
    ensures var r' := ScrollWritten(ScrollWritten(r, x), y);
      var t := r'.tempAddr;
      r'.scrollFineX == x & 7 && PpuAddr.CoarseX(t) == x >> 3 &&
      PpuAddr.FineY(t) == y & 7 && PpuAddr.CoarseY(t) == y >> 3 &&
      PpuAddr.Nametable(t) == PpuAddr.Nametable(r.tempAddr) && !r'.registerLatch
  {
    var t1 := PpuAddr.WithCoarseX(r.tempAddr, x >> 3);
    PpuAddr.SetCoarseXOnly(r.tempAddr, x >> 3);
    var t2 := PpuAddr.WithFineY(t1, y);
    PpuAddr.SetFineYOnly(t1, y);
    PpuAddr.SetCoarseYOnly(t2, y >> 3);
    ShiftedFits(x);
    ShiftedFits(y);
  }

  lemma ShiftedFits(v: byte)
    ensures (v >> 3) & 0x1F == v >> 3
  {
  }

  /// `write_to_ppu_addr`: the first write sets the high byte of the
  /// temporary address, the second its low byte and then copies it into the
  /// VRAM address.
  function PpuAddrWritten(r: Registers, value: byte): Registers {
    if r.cycles < WARM_UP_CYCLES then r
    else if r.registerLatch then
      var t := PpuAddr.Join(PpuAddr.HiByte(r.tempAddr), value);
      r.(tempAddr := t, vramAddr := t, registerLatch := false)
    else
      r.(tempAddr := PpuAddr.Join(value, PpuAddr.LoByte(r.tempAddr)), registerLatch := true)
  }

  /// Two writes to $2006 with the latch reset point the VRAM address at
  /// high byte then low byte, of which `get` keeps 14 bits.
  lemma PpuAddrPair(r: Registers, hi: byte, lo: byte)
    requires r.cycles >= WARM_UP_CYCLES && !r.registerLatch
    ensures var r' := PpuAddrWritten(PpuAddrWritten(r, hi), lo);
      r'.vramAddr == PpuAddr.Join(hi, lo) && r'.tempAddr == r'.vramAddr && !r'.registerLatch &&
      PpuAddr.Get(r'.vramAddr) == PpuAddr.Join(hi & 0x3F, lo)
  {
    JoinParts(hi, PpuAddr.LoByte(r.tempAddr));
    JoinValue(hi, lo);
  }

  lemma JoinParts(hi: byte, lo: byte)
    ensures PpuAddr.HiByte(PpuAddr.Join(hi, lo)) == hi && PpuAddr.LoByte(PpuAddr.Join(hi, lo)) == lo
  {
  }

  lemma JoinValue(hi: byte, lo: byte)
    ensures PpuAddr.Get(PpuAddr.Join(hi, lo)) == PpuAddr.Join(hi & 0x3F, lo)
  {
  }

  /// Reading the status in the middle of an address write starts it over:
  /// the next $2006 write is taken as a high byte.
  lemma StatusRestartsAddress(r: Registers, value: byte)
    requires r.cycles >= WARM_UP_CYCLES
    ensures var r' := PpuAddrWritten(StatusRead(r).0, value);
      r'.registerLatch && r'.vramAddr == r.vramAddr && PpuAddr.HiByte(r'.tempAddr) == value
  {
    JoinParts(value, PpuAddr.LoByte(r.tempAddr));
  }

  /// During the warm-up the four guarded writes change nothing; after
  /// `reset` and fewer than 9886 steps that is still the case.
  lemma WarmUpIgnoresWrites(r: Registers, n: nat, value: byte)
    requires ValidClock(r) && n < WARM_UP_CYCLES
    ensures var w := StepN(ResetSpec(r), n);
      CtrlWritten(w, value) == w && MaskWritten(w, value) == w &&
      ScrollWritten(w, value) == w && PpuAddrWritten(w, value) == w
  {
    StepsAdvance(ResetSpec(r), n);
  }

  /// `increment_vram_addr`: one or 32 on, as the control register says.
  function AddrAdvanced(r: Registers): Registers {
    r.(vramAddr := PpuAddr.Incremented(r.vramAddr, VramAddrIncrement(r.ctrl)))
  }

  /// The address that $2007 accesses: `vram_addr.get()`.
  function DataAddr(r: Registers): u16 {
    PpuAddr.Get(r.vramAddr) as int
  }

  /// `read_data`: below the palettes the answer is the buffered byte of the
  /// previous read and the buffer takes the byte at the address; palette
  /// bytes are answered directly.  The address moves on either way.
  function ReadDataSpec(r: Registers, m: VideoMemory, mirroring: Mirroring): (Registers, byte)
    requires ValidMemory(m) && RawRead(m, mirroring, DataAddr(r)).Some?
  {
    var addr := DataAddr(r);
    var value := RawRead(m, mirroring, addr).value;
    if addr <= 0x3EFF then (AddrAdvanced(r).(internalDataBuf := value), r.internalDataBuf)
    else (AddrAdvanced(r), value)
  }

  /// The buffer delays nametable and pattern reads by one: the first read
  /// after setting an address answers stale data and the next one answers
  /// the byte at that address.
  lemma BufferedRead(r: Registers, m: VideoMemory, mirroring: Mirroring)
    requires ValidMemory(m) && RawRead(m, mirroring, DataAddr(r)).Some?
    ensures var (r', data) := ReadDataSpec(r, m, mirroring);
      var stored := RawRead(m, mirroring, DataAddr(r)).value;
      r'.vramAddr == PpuAddr.Incremented(r.vramAddr, VramAddrIncrement(r.ctrl)) &&
      (DataAddr(r) <= 0x3EFF ==> data == r.internalDataBuf && r'.internalDataBuf == stored) &&
      (DataAddr(r) > 0x3EFF ==> data == stored && r'.internalDataBuf == r.internalDataBuf)
  {
  }

  /// So a nametable byte takes two reads: the second answers it, as long
  /// as the advanced address is still below the palettes.
  lemma DummyReadFirst(r: Registers, m: VideoMemory, mirroring: Mirroring)
    requires ValidMemory(m) && DataAddr(r) <= 0x3EFF && RawRead(m, mirroring, DataAddr(r)).Some?
    requires var r' := ReadDataSpec(r, m, mirroring).0;
      DataAddr(r') <= 0x3EFF && RawRead(m, mirroring, DataAddr(r')).Some?
    ensures var r' := ReadDataSpec(r, m, mirroring).0;
      ReadDataSpec(r', m, mirroring).1 == RawRead(m, mirroring, DataAddr(r)).value
  {
    var r' := ReadDataSpec(r, m, mirroring).0;
    BufferedRead(r, m, mirroring);
    BufferedRead(r', m, mirroring);
  }

  /// `write_to_data`: the memory after writing at the address; the address
  /// then moves on.
  function WriteDataSpec(r: Registers, m: VideoMemory, mirroring: Mirroring, value: byte): (VideoMemory, Registers)
    requires ValidMemory(m) && RawWrite(m, mirroring, DataAddr(r), value).Some?
  {
    (RawWrite(m, mirroring, DataAddr(r), value).value, AddrAdvanced(r))
  }

  // ----- object attribute memory ----------------------------------------

  /// `write_to_oam_data`: store at the OAM address and move it on, wrapping
  /// at 256.
  function OamDataWritten(oam: seq<byte>, addr: u8, value: byte): (r: (seq<byte>, u8))
    requires |oam| == 256
    ensures |r.0| == 256
  {
    (oam[addr := value], (addr + 1) % 256)
  }

  /// A byte written through $2004 reads back once the address is set to it
  /// again, and nothing else changes.
  lemma OamWriteRead(oam: seq<byte>, addr: u8, value: byte)
    requires |oam| == 256
    ensures var (oam', next) := OamDataWritten(oam, addr, value);
      oam'[addr] == value && next == (addr + 1) % 256 &&
      forall i | 0 <= i < 256 && i != addr :: oam'[i] == oam[i]
  {
  }

  /// OAM after `write_oam_dma`: 256 bytes written from the OAM address on,
  /// wrapping, so byte `k` of OAM is byte `(k - start) mod 256` of the page.
  function DmaImage(start: u8, data: seq<byte>): (oam: seq<byte>)
    requires |data| == 256
    ensures |oam| == 256
  {
    seq(256, k requires 0 <= k < 256 => data[(k - start) % 256])
  }

  /// The DMA image puts page byte `i` at `start + i` (mod 256): the 256
  /// writes land in 256 different cells, so every page byte survives.
  lemma DmaImageWrites(start: u8, data: seq<byte>)
    requires |data| == 256
    ensures forall i | 0 <= i < 256 :: DmaImage(start, data)[(start + i) % 256] == data[i]
  {
    forall i | 0 <= i < 256
      ensures DmaImage(start, data)[(start + i) % 256] == data[i]
    {
      var k := (start + i) % 256;
      assert (k - start) % 256 == i;
    }
  }

  /// OAM after the first `n` bytes of a DMA transfer.
  function DmaPrefix(oam: seq<byte>, start: u8, data: seq<byte>, n: nat): (r: seq<byte>)
    requires |oam| == 256 && |data| == 256 && n <= 256
    ensures |r| == 256
    decreases n
  {
    if n == 0 then oam else DmaPrefix(oam, start, data, n - 1)[(start as int + n - 1) % 256 := data[n - 1]]
  }

  /// One more byte of the copy: writing page byte `n` at the current OAM
  /// address extends the prefix by one.
  lemma DmaStep(oam: seq<byte>, start: u8, data: seq<byte>, n: nat, before: seq<byte>, addr: u8, after: seq<byte>)
    requires |oam| == 256 && |data| == 256 && n < 256
    requires before == DmaPrefix(oam, start, data, n) && addr == (start as int + n) % 256
    requires after == before[addr := data[n]]
    ensures after == DmaPrefix(oam, start, data, n + 1)
  {
  }

  /// The wrapping increment keeps the OAM address `n` places past the
  /// start.
  lemma DmaNextAddr(start: u8, addr: u8, n: nat)
    requires addr == (start as int + n) % 256
    ensures (addr + 1) % 256 == (start as int + n + 1) % 256
  {
  }

  /// After all 256 bytes the OAM address is back where it started.
  lemma DmaWrapsAround(start: u8, addr: u8, n: nat)
    requires n == 256 && addr == (start as int + n) % 256
    ensures addr == start
  {
  }

  /// After `n` bytes, the cells `start .. start + n - 1` (mod 256) hold the
  /// page's first `n` bytes and the rest are untouched; after all 256 that
  /// is the DMA image.
  lemma {:induction false} DmaPrefixCells(oam: seq<byte>, start: u8, data: seq<byte>, n: nat)
    requires |oam| == 256 && |data| == 256 && n <= 256
    ensures forall k | 0 <= k < 256 ::
      DmaPrefix(oam, start, data, n)[k] == if (k - start) % 256 < n then data[(k - start) % 256] else oam[k]
    decreases n
  {
    if n > 0 {
      DmaPrefixCells(oam, start, data, n - 1);
      forall k | 0 <= k < 256
        ensures DmaPrefix(oam, start, data, n)[k] == if (k - start) % 256 < n then data[(k - start) % 256] else oam[k]
      {
        if k == (start as int + n - 1) % 256 {
          assert (k - start) % 256 == n - 1;
        }
      }
    }
  }

  lemma DmaComplete(oam: seq<byte>, start: u8, data: seq<byte>, n: nat)
    requires |oam| == 256 && |data| == 256 && n == 256
    ensures DmaPrefix(oam, start, data, n) == DmaImage(start, data)
  {
    DmaPrefixCells(oam, start, data, n);
    var full := DmaPrefix(oam, start, data, n);
    forall k | 0 <= k < 256
      ensures full[k] == DmaImage(start, data)[k]
    {
      assert (k - start) % 256 < 256;
    }
  }

  /// `PPU`: the registers as fields, VRAM, OAM and the palettes as arrays,
  /// and the CHR memory of the cartridge that it shares with the bus.
  class Ppu {
    const chr: array<byte>
    const useChrRam: bool
    const mirroring: Mirroring
    const vram: array<byte>
    const oamData: array<byte>
    const paletteTable: array<byte>

    var oamAddr: u8
    var registerLatch: bool
    var ctrl: byte
    var mask: byte
    var status: byte
    var vramAddr: word
    var tempAddr: word
    var scrollFineX: byte
    var internalDataBuf: byte
    var scanline: nat
    var oddFrame: bool
    var dot: nat
    var cycles: nat
    var nmiInterrupt: Option<byte>

    /// Depends only on the constant fields, so no update can break it.
    predicate Valid() {
      vram.Length == 2048 && oamData.Length == 256 && paletteTable.Length == 32 &&
      chr != vram && chr != paletteTable && chr != oamData
    }

    function Regs(): Registers
      reads this
    {
      Registers(oamAddr, registerLatch, ctrl, mask, status, vramAddr, tempAddr, scrollFineX,
                internalDataBuf, scanline, oddFrame, dot, cycles, nmiInterrupt)
    }

    /// The memories behind $2007.
    function Video(): (m: VideoMemory)
      reads chr, vram, paletteTable
      requires Valid()
      ensures ValidMemory(m)
    {
      VideoMemory(chr[..], useChrRam, vram[..], paletteTable[..])
    }

    /// `new`: zeroed memories and the power-up registers.
    constructor (chr: array<byte>, useChrRam: bool, mirroring: Mirroring)
      ensures Valid() && Regs() == PowerUp()
      ensures this.chr == chr && this.useChrRam == useChrRam && this.mirroring == mirroring
      ensures fresh(vram) && fresh(oamData) && fresh(paletteTable)
      ensures vram[..] == seq(2048, _ => 0) && oamData[..] == seq(256, _ => 0) && paletteTable[..] == seq(32, _ => 0)
    {
      this.chr := chr;
      this.useChrRam := useChrRam;
      this.mirroring := mirroring;
      vram := new byte[2048](_ => 0);
      oamData := new byte[256](_ => 0);
      paletteTable := new byte[32](_ => 0);
      oamAddr := 0;
      registerLatch := false;
      ctrl := 0;
      mask := 0;
      status := 0;
      vramAddr := 0;
      tempAddr := 0;
      scrollFineX := 0;
      internalDataBuf := 0;
      scanline := 0;
      oddFrame := false;
      dot := 0;
      cycles := 0;
      nmiInterrupt := None;
    }

    method Reset()
      modifies this`ctrl, this`mask, this`scanline, this`oddFrame, this`dot, this`cycles, this`nmiInterrupt
      ensures Regs() == ResetSpec(old(Regs()))
    {
      ctrl := 0;
      mask := 0;
      scanline := 0;
      oddFrame := false;
      dot := 0;
      cycles := 0;
      nmiInterrupt := None;
    }

    method Step() returns (frame: bool)
      modifies this`dot, this`cycles, this`scanline, this`oddFrame
      ensures (Regs(), frame) == StepSpec(old(Regs()))
    {
      dot := dot + 1;
      cycles := cycles + 1;
      if dot >= DOTS_PER_SCANLINE {
        dot := dot % DOTS_PER_SCANLINE;
        scanline := scanline + 1;
        if scanline >= SCANLINES_PER_FRAME {
          scanline := 0;
          oddFrame := !oddFrame;
          return true;
        }
      }
      return false;
    }

    /// `poll_nmi_interrupt`: take the pending NMI.
    method PollNmiInterrupt() returns (nmi: Option<byte>)
      modifies this`nmiInterrupt
      ensures nmi == old(nmiInterrupt) && Regs() == old(Regs()).(nmiInterrupt := None)
    {
      nmi := nmiInterrupt;
      nmiInterrupt := None;
    }

    method WriteToCtrl(value: byte)
      modifies this`ctrl, this`nmiInterrupt, this`tempAddr
      ensures Regs() == CtrlWritten(old(Regs()), value)
    {
      if cycles >= WARM_UP_CYCLES {
        var beforeNmiStatus := GenerateVblankNmi(ctrl);
        ctrl := value;
        if !beforeNmiStatus && GenerateVblankNmi(ctrl) && InVblank(status) {
          nmiInterrupt := Some(1);
        }
        tempAddr := PpuAddr.WithNametable(tempAddr, GetNametable(ctrl));
      }
    }

    method WriteToMask(value: byte)
      modifies this`mask
      ensures Regs() == MaskWritten(old(Regs()), value)
    {
      if cycles >= WARM_UP_CYCLES {
        mask := value;
      }
    }

    method ReadStatus() returns (data: byte)
      modifies this`status, this`registerLatch
      ensures (Regs(), data) == StatusRead(old(Regs()))
    {
      data := status;
      status := status & !VBLANK_STARTED;
      registerLatch := false;
    }

    method WriteToOamAddr(value: byte)
      modifies this`oamAddr
      ensures Regs() == old(Regs()).(oamAddr := value as u8)
    {
      oamAddr := value as u8;
    }

    method WriteToOamData(value: byte)
      requires Valid()
      modifies this`oamAddr, oamData
      ensures (oamData[..], oamAddr) == OamDataWritten(old(oamData[..]), old(oamAddr), value)
      ensures Regs() == old(Regs()).(oamAddr := oamAddr)
    {
      oamData[oamAddr] := value;
      oamAddr := (oamAddr + 1) % 256;
    }

    method ReadOamData() returns (value: byte)
      requires Valid()
      ensures value == oamData[oamAddr]
    {
      value := oamData[oamAddr];
    }

    method WriteToScroll(value: byte)
      modifies this`tempAddr, this`scrollFineX, this`registerLatch
      ensures Regs() == ScrollWritten(old(Regs()), value)
    {
      if cycles >= WARM_UP_CYCLES {
        if registerLatch {
          tempAddr := PpuAddr.WithFineY(tempAddr, value);
          tempAddr := PpuAddr.WithCoarseY(tempAddr, value >> 3);
        } else {
          scrollFineX := value & 7;
          tempAddr := PpuAddr.WithCoarseX(tempAddr, value >> 3);
        }
        registerLatch := !registerLatch;
      }
    }

    method WriteToPpuAddr(value: byte)
      modifies this`tempAddr, this`vramAddr, this`registerLatch
      ensures Regs() == PpuAddrWritten(old(Regs()), value)
    {
      if cycles >= WARM_UP_CYCLES {
        if registerLatch {
          tempAddr := PpuAddr.Join(PpuAddr.HiByte(tempAddr), value);
          vramAddr := tempAddr;
        } else {
          tempAddr := PpuAddr.Join(value, PpuAddr.LoByte(tempAddr));
        }
        registerLatch := !registerLatch;
      }
    }

    method IncrementVramAddr()
      modifies this`vramAddr
      ensures Regs() == AddrAdvanced(old(Regs()))
    {
      vramAddr := PpuAddr.Incremented(vramAddr, VramAddrIncrement(ctrl));
    }

    /// `raw_write_to_data`; the cases where the source panics are excluded.
    method RawWriteToData(addr: u16, value: byte)
      requires Valid() && RawWrite(Video(), mirroring, addr, value).Some?
      modifies chr, vram, paletteTable
      ensures Video() == RawWrite(old(Video()), mirroring, addr, value).value
    {
      if addr <= 0x1FFF {
        if useChrRam {
          chr[addr] := value;
        }
      } else if addr <= 0x2FFF {
        FoldNametables(addr);
        vram[MirrorVramAddr(mirroring, addr)] := value;
      } else if addr <= 0x3EFF {
        assert false;
      } else if PaletteAlias(addr) {
        var addMirror := addr - 0x10;
        paletteTable[addMirror - 0x3F00] := value;
      } else {
        paletteTable[addr - 0x3F00] := value;
      }
    }

    /// `raw_read_data`; the cases where the source panics are excluded.
    method RawReadData(addr: u16) returns (value: byte)
      requires Valid() && RawRead(Video(), mirroring, addr).Some?
      ensures value == RawRead(Video(), mirroring, addr).value
    {
      if addr <= 0x1FFF {
        value := chr[addr];
      } else if addr <= 0x2FFF {
        FoldNametables(addr);
        value := vram[MirrorVramAddr(mirroring, addr)];
      } else if addr <= 0x3EFF {
        assert false;
      } else if PaletteAlias(addr) {
        var addrMirror := addr - 0x10;
        value := paletteTable[addrMirror - 0x3F00];
      } else {
        value := paletteTable[addr - 0x3F00];
      }
    }

    method WriteToData(value: byte)
      requires Valid() && RawWrite(Video(), mirroring, DataAddr(Regs()), value).Some?
      modifies this`vramAddr, chr, vram, paletteTable
      ensures (Video(), Regs()) == WriteDataSpec(old(Regs()), old(Video()), mirroring, value)
    {
      var addr := PpuAddr.Get(vramAddr) as int;
      RawWriteToData(addr, value);
      IncrementVramAddr();
    }

    method ReadData() returns (data: byte)
      requires Valid() && RawRead(Video(), mirroring, DataAddr(Regs())).Some?
      modifies this`vramAddr, this`internalDataBuf
      ensures (Regs(), data) == ReadDataSpec(old(Regs()), Video(), mirroring)
    {
      var addr := PpuAddr.Get(vramAddr) as int;
      IncrementVramAddr();
      if addr <= 0x3EFF {
        data := internalDataBuf;
        internalDataBuf := RawReadData(addr);
      } else {
        data := RawReadData(addr);
      }
    }

    /// `write_oam_dma`: copy a page into OAM from the OAM address on.
    method WriteOamDma(data: array<byte>)
      requires Valid() && data.Length == 256 && data != oamData
      modifies this`oamAddr, oamData
      ensures oamData[..] == DmaImage(old(oamAddr), old(data[..]))
      ensures Regs() == old(Regs())
    {
      ghost var oam0, page := oamData[..], data[..];
      var start := oamAddr;
      var i := 0;
      while i < 256
        invariant 0 <= i <= 256
        invariant oamAddr == (start as int + i) % 256
        invariant oamData[..] == DmaPrefix(oam0, start, page, i)
      {
        ghost var before := oamData[..];
        oamData[oamAddr] := data[i];
        DmaStep(oam0, start, page, i, before, oamAddr, oamData[..]);
        DmaNextAddr(start, oamAddr, i);
        oamAddr := (oamAddr + 1) % 256;
        i := i + 1;
      }
      DmaComplete(oam0, start, page, i);
      DmaWrapsAround(start, oamAddr, i);
    }
  }
}

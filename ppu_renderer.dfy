/// The scanline renderer (nes/src/ppu/renderer.rs): the background shift
/// registers, sprite evaluation and loading for the next scanline, the
/// priority of sprite over background pixels, and the frame buffer.
module PpuRenderer {
  import opened Tools
  import opened Cartridge
  import opened PpuRegisters
  import opened PpuSprite
  import opened PpuMemory
  import opened Ppu

  type word = bv16

  const SCREEN_WIDTH: nat := 256
  const SCREEN_HEIGHT: nat := 240
  const MAX_SPRITES_PER_LINE: nat := 8
  const OAM_SPRITES: nat := 64

  /// `RGB`.
  datatype Rgb = Rgb(r: byte, g: byte, b: byte)

  /// Bit `n` of a 16-bit shift register, as 0 or 1.
  function NthBit16(v: word, n: nat): (b: byte)
    requires n < 16
    ensures b == 0 || b == 1
  {
    if (v >> n) & 1 == 1 then 1 else 0
  }

  // ----- background ------------------------------------------------------

  /// The background fetch pipeline: tile pattern latches and 16-bit shift
  /// registers, attribute latches and 8-bit shift registers, and the
  /// attribute byte being fetched.
  datatype Shifters = Shifters(
    backgroundLatchHi: byte, backgroundLatchLo: byte,
    backgroundShiftHi: word, backgroundShiftLo: word,
    attributeLatchHi: byte, attributeLatchLo: byte,
    attributeShiftHi: byte, attributeShiftLo: byte,
    attributeEntry: byte)

  /// `render_background_pixel`: 0 where the background is not shown;
  /// otherwise the pattern bits under fine X, with the attribute bits
  /// above them when the pattern is not transparent.
  function BackgroundPixel(s: Shifters, mask: byte, x: nat, fineX: byte): byte
    requires fineX < 8
  {
    if !RenderingBackground(mask, x) then 0
    else
      var pattern := (NthBit16(s.backgroundShiftHi, 15 - fineX as nat) << 1) | NthBit16(s.backgroundShiftLo, 15 - fineX as nat);
      if pattern != 0 then
        pattern | (((NthBit(s.attributeShiftHi, 7 - fineX as nat) << 1) | NthBit(s.attributeShiftLo, 7 - fineX as nat)) << 2)
      else pattern
  }

  /// The pixel is 4 × palette + pattern, the palette (from the attribute
  /// registers) counting only under a non-transparent pattern; a hidden
  /// background reads 0.
  lemma BackgroundPixelValue(s: Shifters, mask: byte, x: nat, fineX: byte)
    requires fineX < 8
    ensures var f := fineX as nat;
      var pattern := 2 * NthBit16(s.backgroundShiftHi, 15 - f) + NthBit16(s.backgroundShiftLo, 15 - f);
      var palette := 2 * NthBit(s.attributeShiftHi, 7 - f) + NthBit(s.attributeShiftLo, 7 - f);
      BackgroundPixel(s, mask, x, fineX) ==
        if !RenderingBackground(mask, x) || pattern == 0 then 0 else 4 * palette + pattern
  {
  }

  /// The background pixel of the renderer's first unit test: colour 0x0F
  /// with every bit shown, and 0 in column 0 once the left column is
  /// hidden.
  lemma BackgroundPixelExample()
    ensures var s := Shifters(0, 0, 0xA000, 0xC000, 0, 0, 0xA0, 0xC0, 0);
      BackgroundPixel(s, 0x1E, 0, 0) == 0x0F && BackgroundPixel(s, 0x1C, 0, 0) == 0 &&
      BackgroundPixel(s, 0x1C, 8, 0) == 0x0F && BackgroundPixel(s, 0x16, 0, 0) == 0
  {
    BackgroundPixelValue(Shifters(0, 0, 0xA000, 0xC000, 0, 0, 0xA0, 0xC0, 0), 0x1E, 0, 0);
    BackgroundPixelValue(Shifters(0, 0, 0xA000, 0xC000, 0, 0, 0xA0, 0xC0, 0), 0x1C, 8, 0);
  }

  /// `reload_shift_registers`: the latched tile enters the low byte of each
  /// background shift register, and bits 0 and 1 of the attribute byte
  /// become the attribute latches.
  function Reloaded(s: Shifters): Shifters {
    s.(backgroundShiftLo := (s.backgroundShiftLo & 0xFF00) | s.backgroundLatchLo as word,
       backgroundShiftHi := (s.backgroundShiftHi & 0xFF00) | s.backgroundLatchHi as word,
       attributeLatchLo := s.attributeEntry & 0x01,
       attributeLatchHi := (s.attributeEntry & 0x02) >> 1)
  }

  /// A reload keeps the high bytes, which are being drawn, and replaces the
  /// low bytes by the latches; each attribute latch is one bit.
  lemma ReloadedParts(s: Shifters)
    ensures var r := Reloaded(s);
      r.backgroundShiftLo >> 8 == s.backgroundShiftLo >> 8 && r.backgroundShiftLo & 0xFF == s.backgroundLatchLo as word &&
      r.backgroundShiftHi >> 8 == s.backgroundShiftHi >> 8 && r.backgroundShiftHi & 0xFF == s.backgroundLatchHi as word &&
      (r.attributeLatchLo == 1 <==> s.attributeEntry & 1 != 0) && r.attributeLatchLo <= 1 &&
      (r.attributeLatchHi == 1 <==> s.attributeEntry & 2 != 0) && r.attributeLatchHi <= 1
  {
  }

  /// `shift`: both background registers move left one bit; the attribute
  /// registers move left taking in their latch bit.
  function Shifted(s: Shifters): Shifters {
    s.(backgroundShiftLo := s.backgroundShiftLo << 1,
       backgroundShiftHi := s.backgroundShiftHi << 1,
       attributeShiftLo := (s.attributeShiftLo << 1) | s.attributeLatchLo,
       attributeShiftHi := (s.attributeShiftHi << 1) | s.attributeLatchHi)
  }

  function ShiftedN(s: Shifters, n: nat): Shifters
    decreases n
  {
    if n == 0 then s else Shifted(ShiftedN(s, n - 1))
  }

  /// Eight shifts after a reload, one tile later, the latched tile is in
  /// the high bytes that the pixel reads, and each attribute register is
  /// filled with its latch bit.
  lemma ReloadThenEightShifts(s: Shifters)
    ensures var r := ShiftedN(Reloaded(s), 8);
      r.backgroundShiftLo == (s.backgroundLatchLo as word) << 8 &&
      r.backgroundShiftHi == (s.backgroundLatchHi as word) << 8 &&
      r.attributeShiftLo == (if s.attributeEntry & 1 != 0 then 0xFF else 0) &&
      r.attributeShiftHi == (if s.attributeEntry & 2 != 0 then 0xFF else 0)
  {
    var t := Reloaded(s);
    EightShifts(t);
    ReloadedParts(s);
    AttributeFill(t.attributeShiftLo, t.attributeLatchLo);
    AttributeFill(t.attributeShiftHi, t.attributeLatchHi);
  }

  lemma EightShifts(t: Shifters)
    ensures var r := ShiftedN(t, 8);
      r.backgroundShiftLo == t.backgroundShiftLo << 8 && r.backgroundShiftHi == t.backgroundShiftHi << 8 &&
      r.attributeLatchLo == t.attributeLatchLo && r.attributeLatchHi == t.attributeLatchHi &&
      r.attributeShiftLo == Fill(t.attributeShiftLo, t.attributeLatchLo) &&
      r.attributeShiftHi == Fill(t.attributeShiftHi, t.attributeLatchHi)
  {
    ShiftedNFields(t, 8);
    ShiftBy8(t.backgroundShiftLo);
    ShiftBy8(t.backgroundShiftHi);
    FillShifts(t.attributeShiftLo, t.attributeLatchLo);
    FillShifts(t.attributeShiftHi, t.attributeLatchHi);
  }

  /// A 16-bit register shifted left `n` times, one bit at a time.
  function ShiftLeftN(w: word, n: nat): word
    decreases n
  {
    if n == 0 then w else ShiftLeftN(w, n - 1) << 1
  }

  /// An 8-bit register shifted `n` times taking in `bit` each time.
  function ShiftInN(v: byte, bit: byte, n: nat): byte
    decreases n
  {
    if n == 0 then v else In(ShiftInN(v, bit, n - 1), bit)
  }

  /// `n` shifts act on each register by itself and keep the latches.
  lemma {:induction false} ShiftedNFields(t: Shifters, n: nat)
    ensures var r := ShiftedN(t, n);
      r.backgroundShiftLo == ShiftLeftN(t.backgroundShiftLo, n) &&
      r.backgroundShiftHi == ShiftLeftN(t.backgroundShiftHi, n) &&
      r.attributeLatchLo == t.attributeLatchLo && r.attributeLatchHi == t.attributeLatchHi &&
      r.attributeShiftLo == ShiftInN(t.attributeShiftLo, t.attributeLatchLo, n) &&
      r.attributeShiftHi == ShiftInN(t.attributeShiftHi, t.attributeLatchHi, n)
    decreases n
  {
    if n > 0 {
      ShiftedNFields(t, n - 1);
    }
  }

  /// Eight one-bit shifts of a 16-bit register are one shift by eight.
  lemma ShiftBy8(w: word)
    ensures ShiftLeftN(w, 8) == w << 8
  {
  }

  lemma FillShifts(v: byte, bit: byte)
    ensures ShiftInN(v, bit, 8) == Fill(v, bit)
  {
  }

  /// An 8-bit register shifted eight times taking in `bit` each time.
  function Fill(v: byte, bit: byte): byte {
    In(In(In(In(In(In(In(In(v, bit), bit), bit), bit), bit), bit), bit), bit)
  }

  function In(v: byte, bit: byte): byte {
    (v << 1) | bit
  }

  lemma AttributeFill(v: byte, bit: byte)
    requires bit <= 1
    ensures Fill(v, bit) == if bit == 1 then 0xFF else 0
  {
  }

  /// The unit tests of `reload_shift_registers` and `shift`.
  lemma ShiftExamples()
    ensures var r := Reloaded(Shifters(0x02, 0x01, 0x5555, 0xAAAA, 0, 0, 0, 0, 0x03));
      r.backgroundShiftLo == 0xAA01 && r.backgroundShiftHi == 0x5502 &&
      r.attributeLatchLo == 1 && r.attributeLatchHi == 1
    ensures var r := Shifted(Shifters(0, 0, 0x5555, 0xAAAA, 1, 0, 0, 0, 0x03));
      r.backgroundShiftLo == 0x5554 && r.backgroundShiftHi == 0xAAAA &&
      r.attributeShiftLo == 0 && r.attributeShiftHi == 1
  {
  }

  // ----- sprites ---------------------------------------------------------

  /// The colour a sprite gives an opaque pixel: sprite palettes are the
  /// upper four, so bit 4 is set.
  function SpriteColor(s: Sprite, x: nat): (c: byte)
    requires x < 0x1_0000
  {
    0x10 | (s.palette << 2) | ColorIndex(s, x)
  }

  /// The colour and priority of the frontmost opaque sprite of a list: the
  /// first one whose pixel at `x` is not transparent, or (0, false).
  function Front(sprites: seq<Sprite>, x: nat): (byte, bool)
    requires x < 0x1_0000
    decreases |sprites|
  {
    if |sprites| == 0 then (0, false)
    else if ColorIndex(sprites[0], x) != 0 then (SpriteColor(sprites[0], x), sprites[0].behindBackground)
    else Front(sprites[1..], x)
  }

  /// The lowest-index opaque sprite wins: when some sprite is opaque at
  /// `x`, `Front` answers the first such one; otherwise (0, false).
  lemma {:induction false} FrontIsFirstOpaque(sprites: seq<Sprite>, x: nat)
    requires x < 0x1_0000
    ensures (forall i | 0 <= i < |sprites| :: ColorIndex(sprites[i], x) == 0) ==> Front(sprites, x) == (0, false)
    ensures forall i | 0 <= i < |sprites| ::
      ColorIndex(sprites[i], x) != 0 && (forall j | 0 <= j < i :: ColorIndex(sprites[j], x) == 0) ==>
      Front(sprites, x) == (SpriteColor(sprites[i], x), sprites[i].behindBackground)
    decreases |sprites|
  {
    if |sprites| > 0 {
      FrontIsFirstOpaque(sprites[1..], x);
      forall i | 0 <= i < |sprites| && ColorIndex(sprites[i], x) != 0 && (forall j | 0 <= j < i :: ColorIndex(sprites[j], x) == 0)
        ensures Front(sprites, x) == (SpriteColor(sprites[i], x), sprites[i].behindBackground)
      {
        if i > 0 {
          assert ColorIndex(sprites[0], x) == 0;
          assert sprites[1..][i - 1] == sprites[i];
          assert forall j | 0 <= j < i - 1 :: sprites[1..][j] == sprites[j + 1];
        }
      }
    }
  }

  /// Whether the sprite pixel can be a sprite-zero hit: the sprite from
  /// OAM entry 0 is opaque at `x`, and `x` is not the last column.
  predicate ZeroHit(sprites: seq<Sprite>, x: nat)
    requires x < 0x1_0000
  {
    x != 255 && exists i | 0 <= i < |sprites| :: sprites[i].oamIndex == 0 && ColorIndex(sprites[i], x) != 0
  }

  /// The answer of `render_sprite_pixel`: colour, behind-background flag
  /// and possible sprite-zero hit.
  function SpritePixel(sprites: seq<Sprite>, mask: byte, x: nat): (byte, bool, bool)
    requires x < 0x1_0000
  {
    if !RenderingSprites(mask, x) then (0, false, false)
    else (Front(sprites, x).0, Front(sprites, x).1, ZeroHit(sprites, x))
  }

  /// `render_pixel`'s choice: a sprite in front wins unless it is
  /// transparent; a sprite behind shows only where the background is
  /// transparent.
  function Priority(background: byte, sprite: byte, behind: bool): byte {
    var colors := if behind then [background, sprite] else [sprite, background];
    if colors[0] == 0 then colors[1] else colors[0]
  }

  lemma PriorityRules(background: byte, sprite: byte, behind: bool)
    ensures !behind && sprite != 0 ==> Priority(background, sprite, behind) == sprite
    ensures behind ==> Priority(background, sprite, behind) == if background == 0 then sprite else background
    ensures sprite == 0 ==> Priority(background, sprite, behind) == background
    ensures background == 0 ==> Priority(background, sprite, behind) == sprite
  {
  }

  /// The sprites of the renderer's sprite-pixel test: entry 0 opaque in
  /// column 1 (colour 3), entry 1 behind the background with palette 3,
  /// opaque in column 3, entry 2 opaque in column 1 but hidden behind
  /// entry 0.
  function TestSprites(): seq<Sprite> {
    [NewSprite(0, [0, 0, 0, 0]).(dataLo := 0x40, dataHi := 0x40),
     NewSprite(1, [0, 0, 0x23, 0]).(dataLo := 0, dataHi := 0x10),
     NewSprite(2, [0, 0, 0, 0]).(dataLo := 0x40, dataHi := 0)]
  }

  lemma SpritePixelExamples()
    ensures SpritePixel(TestSprites(), 0x0E, 0) == (0, false, false)
    ensures SpritePixel(TestSprites(), 0x1A, 0) == (0, false, false)
    ensures SpritePixel(TestSprites(), 0x1E, 1) == (0x13, false, true)
  {
    var s := TestSprites();
    assert ColorIndex(s[0], 1) == 3;
  }

  lemma SpritePixelBehindExample()
    ensures SpritePixel(TestSprites(), 0x1E, 3) == (0x1E, true, false)
  {
    var s := TestSprites();
    TestSpritesColumn3(s);
    assert s[1..][0] == s[1];
    assert Front(s, 3) == (SpriteColor(s[1], 3), true);
    assert forall i | 0 <= i < |s| && s[i].oamIndex == 0 :: i == 0;
  }

  /// The colours of the test sprites in column 3: only entry 1 is opaque.
  lemma TestSpritesColumn3(s: seq<Sprite>)
    requires s == TestSprites()
    ensures ColorIndex(s[0], 3) == 0 && ColorIndex(s[1], 3) == 2 && ColorIndex(s[2], 3) == 0
    ensures SpriteColor(s[1], 3) == 0x1E
  {
    ColorIndexInside(s[0], 3);
    ColorIndexInside(s[1], 3);
    ColorIndexInside(s[2], 3);
  }

  // ----- sprite evaluation ----------------------------------------------

  /// OAM entry `i` decoded.
  function OamSprite(oam: seq<byte>, i: nat): (s: Sprite)
    requires |oam| == 256 && i < OAM_SPRITES
    ensures s.oamIndex == i
  {
    NewSprite(i, oam[4 * i..4 * i + 4])
  }

  /// The sprite covers the scanline: `y <= scanline < y + height`.
  predicate InRange(s: Sprite, scanline: nat, ctrl: byte) {
    s.y as nat <= scanline < s.y as nat + SpriteSize(ctrl)
  }

  /// The in-range sprites among the first `n` OAM entries, in OAM order.
  function Candidates(oam: seq<byte>, scanline: nat, ctrl: byte, n: nat): seq<Sprite>
    requires |oam| == 256 && n <= OAM_SPRITES
    decreases n
  {
    if n == 0 then []
    else
      var s := OamSprite(oam, n - 1);
      Candidates(oam, scanline, ctrl, n - 1) + if InRange(s, scanline, ctrl) then [s] else []
  }

  /// `Candidates` is exactly the in-range entries below `n`: each one is
  /// an in-range OAM entry below `n`, ...
  lemma {:induction false} CandidatesSound(oam: seq<byte>, scanline: nat, ctrl: byte, n: nat)
    requires |oam| == 256 && n <= OAM_SPRITES
    ensures var c := Candidates(oam, scanline, ctrl, n);
      forall k | 0 <= k < |c| :: c[k].oamIndex < n && c[k] == OamSprite(oam, c[k].oamIndex) && InRange(c[k], scanline, ctrl)
    decreases n
  {
    if n > 0 {
      CandidatesSound(oam, scanline, ctrl, n - 1);
      CandidatesStep(oam, scanline, ctrl, n);
    }
  }

  /// ... they come in increasing OAM order, ...
  lemma {:induction false} CandidatesOrdered(oam: seq<byte>, scanline: nat, ctrl: byte, n: nat)
    requires |oam| == 256 && n <= OAM_SPRITES
    ensures var c := Candidates(oam, scanline, ctrl, n);
      forall k, k' | 0 <= k < k' < |c| :: c[k].oamIndex < c[k'].oamIndex
    decreases n
  {
    if n > 0 {
      CandidatesOrdered(oam, scanline, ctrl, n - 1);
      CandidatesSound(oam, scanline, ctrl, n - 1);
      CandidatesStep(oam, scanline, ctrl, n);
    }
  }

  /// ... and no in-range entry below `n` is missing.
  lemma {:induction false} CandidatesComplete(oam: seq<byte>, scanline: nat, ctrl: byte, n: nat)
    requires |oam| == 256 && n <= OAM_SPRITES
    ensures forall i | 0 <= i < n :: InRange(OamSprite(oam, i), scanline, ctrl) ==> HasIndex(Candidates(oam, scanline, ctrl, n), i)
    decreases n
  {
    if n > 0 {
      CandidatesComplete(oam, scanline, ctrl, n - 1);
      CandidatesStep(oam, scanline, ctrl, n);
      var c0, c := Candidates(oam, scanline, ctrl, n - 1), Candidates(oam, scanline, ctrl, n);
      var s := OamSprite(oam, n - 1);
      ExtendKeepsIndices(c0, c, s, InRange(s, scanline, ctrl));
      CompleteStep(oam, scanline, ctrl, n, c0, c);
    }
  }

  /// A list that keeps every index of a list complete below `n - 1` and
  /// holds entry `n - 1` when it is in range is complete below `n`.
  lemma CompleteStep(oam: seq<byte>, scanline: nat, ctrl: byte, n: nat, c0: seq<Sprite>, c: seq<Sprite>)
    requires |oam| == 256 && 0 < n <= OAM_SPRITES
    requires forall i | 0 <= i < n - 1 :: InRange(OamSprite(oam, i), scanline, ctrl) ==> HasIndex(c0, i)
    requires forall i: nat | HasIndex(c0, i) :: HasIndex(c, i)
    requires InRange(OamSprite(oam, n - 1), scanline, ctrl) ==> HasIndex(c, n - 1)
    ensures forall i | 0 <= i < n :: InRange(OamSprite(oam, i), scanline, ctrl) ==> HasIndex(c, i)
  {
    forall i | 0 <= i < n && InRange(OamSprite(oam, i), scanline, ctrl)
      ensures HasIndex(c, i)
    {
      if i < n - 1 {
        assert HasIndex(c0, i);
      }
    }
  }

  /// Some sprite of `c` comes from OAM entry `i`.
  predicate HasIndex(c: seq<Sprite>, i: nat) {
    exists k | 0 <= k < |c| :: c[k].oamIndex == i
  }

  /// Appending a sprite when `added` keeps every entry index already
  /// present and adds the sprite's own.
  lemma ExtendKeepsIndices(c0: seq<Sprite>, c: seq<Sprite>, s: Sprite, added: bool)
    requires c == if added then c0 + [s] else c0
    ensures forall i: nat | HasIndex(c0, i) :: HasIndex(c, i)
    ensures added ==> HasIndex(c, s.oamIndex)
  {
    forall i: nat | HasIndex(c0, i)
      ensures HasIndex(c, i)
    {
      var k :| 0 <= k < |c0| && c0[k].oamIndex == i;
      assert c[k] == c0[k];
    }
    if added {
      assert c[|c0|] == s;
    }
  }

  /// One more entry appends it when it is in range and nothing otherwise.
  lemma CandidatesStep(oam: seq<byte>, scanline: nat, ctrl: byte, n: nat)
    requires |oam| == 256 && 0 < n <= OAM_SPRITES
    ensures var c0 := Candidates(oam, scanline, ctrl, n - 1);
      var s := OamSprite(oam, n - 1);
      Candidates(oam, scanline, ctrl, n) == if InRange(s, scanline, ctrl) then c0 + [s] else c0
  {
  }

  /// Later candidate lists extend earlier ones.
  lemma {:induction false} CandidatesPrefix(oam: seq<byte>, scanline: nat, ctrl: byte, n: nat, m: nat)
    requires |oam| == 256 && n <= m <= OAM_SPRITES
    ensures |Candidates(oam, scanline, ctrl, n)| <= |Candidates(oam, scanline, ctrl, m)|
    ensures Candidates(oam, scanline, ctrl, n) ==
      Candidates(oam, scanline, ctrl, m)[..|Candidates(oam, scanline, ctrl, n)|]
    decreases m - n
  {
    if n < m {
      CandidatesPrefix(oam, scanline, ctrl, n, m - 1);
      CandidatesStep(oam, scanline, ctrl, m);
      var cn, c := Candidates(oam, scanline, ctrl, n), Candidates(oam, scanline, ctrl, m - 1);
      var cm := Candidates(oam, scanline, ctrl, m);
      assert cm[..|c|] == c;
      assert cm[..|cn|] == c[..|cn|];
    }
  }

  /// `eval_sprites`: the first eight in-range sprites for the next scanline
  /// and whether a ninth exists (the overflow flag).
  function EvalSpec(oam: seq<byte>, scanline: nat, ctrl: byte): (seq<Sprite>, bool)
    requires |oam| == 256
  {
    var c := Candidates(oam, scanline, ctrl, |oam| / 4);
    if |c| > MAX_SPRITES_PER_LINE then (c[..MAX_SPRITES_PER_LINE], true) else (c, false)
  }

  /// Sprites 0 and 1 of the evaluation test cover scanline 10 (Y 10 and 3);
  /// Y 2 stops just above it and Y 11 starts below.
  lemma EvalInRangeExample()
    ensures InRange(NewSprite(0, [10, 0, 0, 0]), 10, 0) && InRange(NewSprite(1, [3, 0, 0, 0]), 10, 0)
    ensures !InRange(NewSprite(2, [2, 0, 0, 0]), 10, 0) && !InRange(NewSprite(3, [11, 0, 0, 0]), 10, 0)
  {
  }

  // ----- the renderer object --------------------------------------------

  /// `Renderer`.
  class Renderer {
    var backgroundLatchHi: byte
    var backgroundLatchLo: byte
    var backgroundShiftHi: word
    var backgroundShiftLo: word
    var attributeLatchHi: byte
    var attributeLatchLo: byte
    var attributeShiftHi: byte
    var attributeShiftLo: byte
    var scratchAddress: u16
    var nametableEntry: byte
    var attributeEntry: byte
    var primaryOam: seq<Sprite>
    var secondaryOam: seq<Sprite>
    var pixels: seq<Rgb>

    function Pipeline(): Shifters
      reads this
    {
      Shifters(backgroundLatchHi, backgroundLatchLo, backgroundShiftHi, backgroundShiftLo,
               attributeLatchHi, attributeLatchLo, attributeShiftHi, attributeShiftLo, attributeEntry)
    }

    /// `new`, which calls `reset`: empty sprite lists, a black screen.
    constructor ()
      ensures Pipeline() == Shifters(0, 0, 0, 0, 0, 0, 0, 0, 0)
      ensures primaryOam == [] && secondaryOam == []
      ensures pixels == seq(SCREEN_WIDTH * SCREEN_HEIGHT, _ => Rgb(0, 0, 0))
    {
      backgroundLatchHi, backgroundLatchLo := 0, 0;
      backgroundShiftHi, backgroundShiftLo := 0, 0;
      attributeLatchHi, attributeLatchLo := 0, 0;
      attributeShiftHi, attributeShiftLo := 0, 0;
      scratchAddress := 0;
      nametableEntry := 0;
      attributeEntry := 0;
      primaryOam := [];
      secondaryOam := [];
      pixels := seq(SCREEN_WIDTH * SCREEN_HEIGHT, _ => Rgb(0, 0, 0));
    }

    /// `reset` and `clear_pixels`.
    method Reset()
      modifies this
      ensures Pipeline() == old(Pipeline())
      ensures primaryOam == [] && secondaryOam == []
      ensures pixels == seq(SCREEN_WIDTH * SCREEN_HEIGHT, _ => Rgb(0, 0, 0))
      ensures scratchAddress == old(scratchAddress) && nametableEntry == old(nametableEntry)
    {
      primaryOam := [];
      secondaryOam := [];
      pixels := seq(SCREEN_WIDTH * SCREEN_HEIGHT, _ => Rgb(0, 0, 0));
    }

    method ReloadShiftRegisters()
      modifies this
      ensures Pipeline() == Reloaded(old(Pipeline()))
      ensures primaryOam == old(primaryOam) && secondaryOam == old(secondaryOam) && pixels == old(pixels)
      ensures scratchAddress == old(scratchAddress) && nametableEntry == old(nametableEntry)
    {
      backgroundShiftLo := (backgroundShiftLo & 0xFF00) | backgroundLatchLo as word;
      backgroundShiftHi := (backgroundShiftHi & 0xFF00) | backgroundLatchHi as word;
      attributeLatchLo := attributeEntry & 0x01;
      attributeLatchHi := (attributeEntry & 0x02) >> 1;
    }

    method Shift()
      modifies this
      ensures Pipeline() == Shifted(old(Pipeline()))
      ensures primaryOam == old(primaryOam) && secondaryOam == old(secondaryOam) && pixels == old(pixels)
      ensures scratchAddress == old(scratchAddress) && nametableEntry == old(nametableEntry)
    {
      backgroundShiftLo := backgroundShiftLo << 1;
      backgroundShiftHi := backgroundShiftHi << 1;
      attributeShiftLo := (attributeShiftLo << 1) | attributeLatchLo;
      attributeShiftHi := (attributeShiftHi << 1) | attributeLatchHi;
    }

    method RenderBackgroundPixel(x: nat, ppu: Ppu) returns (color: byte)
      requires ppu.scrollFineX < 8
      ensures color == BackgroundPixel(Pipeline(), ppu.mask, x, ppu.scrollFineX)
    {
      if !RenderingBackground(ppu.mask, x) {
        return 0;
      }
      var fineX := ppu.scrollFineX as nat;
      color := (NthBit16(backgroundShiftHi, 15 - fineX) << 1) | NthBit16(backgroundShiftLo, 15 - fineX);
      if color != 0 {
        color := color | (((NthBit(attributeShiftHi, 7 - fineX) << 1) | NthBit(attributeShiftLo, 7 - fineX)) << 2);
      }
    }

    /// `render_sprite_pixel`: the primary sprites scanned from last to
    /// first, so that the first opaque one is drawn.
    method RenderSpritePixel(x: nat, ppu: Ppu) returns (color: byte, behind: bool, possibleZeroHit: bool)
      requires x < 0x1_0000
      ensures (color, behind, possibleZeroHit) == SpritePixel(primaryOam, ppu.mask, x)
    {
      if !RenderingSprites(ppu.mask, x) {
        return 0, false, false;
      }
      color, behind, possibleZeroHit := 0, false, false;
      var i := |primaryOam|;
      while i > 0
        invariant 0 <= i <= |primaryOam|
        invariant (color, behind) == Front(primaryOam[i..], x)
        invariant possibleZeroHit <==>
          x != 255 && exists j | i <= j < |primaryOam| :: primaryOam[j].oamIndex == 0 && ColorIndex(primaryOam[j], x) != 0
      {
        i := i - 1;
        var sprite := primaryOam[i];
        assert primaryOam[i..][1..] == primaryOam[i + 1..];
        var spriteColorIndex := ColorIndex(sprite, x);
        if spriteColorIndex != 0 {
          if sprite.oamIndex == 0 && x != 255 {
            possibleZeroHit := true;
          }
          color := 0x10 | (sprite.palette << 2) | spriteColorIndex;
          behind := sprite.behindBackground;
        }
      }
      assert primaryOam[0..] == primaryOam;
    }

    /// `render_pixel`: the visible pixel, with the sprite-zero hit recorded
    /// in the status register when an opaque sprite 0 meets an opaque
    /// background.
    method RenderPixel(x: nat, y: nat, ppu: Ppu) returns (pixel: Option<byte>)
      requires ppu.scrollFineX < 8
      modifies ppu`status
      ensures pixel.Some? <==> x < SCREEN_WIDTH && y < SCREEN_HEIGHT
      ensures pixel.Some? ==>
        var background := BackgroundPixel(Pipeline(), old(ppu.mask), x, old(ppu.scrollFineX));
        var (sprite, spriteBehind, zeroHit) := SpritePixel(primaryOam, old(ppu.mask), x);
        pixel == Some(Priority(background, sprite, spriteBehind)) &&
        ppu.status == (if zeroHit && background != 0 then old(ppu.status) | SPRITE_ZERO_HIT else old(ppu.status))
      ensures pixel.None? ==> ppu.status == old(ppu.status)
    {
      if y < SCREEN_HEIGHT && x < SCREEN_WIDTH {
        var backgroundColor := RenderBackgroundPixel(x, ppu);
        var spriteColor, spriteBehind, possibleZeroHit := RenderSpritePixel(x, ppu);
        if possibleZeroHit && backgroundColor != 0 {
          ppu.status := ppu.status | SPRITE_ZERO_HIT;
        }
        var colors := if spriteBehind then [backgroundColor, spriteColor] else [spriteColor, backgroundColor];
        pixel := Some(if colors[0] == 0 then colors[1] else colors[0]);
      } else {
        pixel := None;
      }
    }

    /// `eval_sprites`: collect the in-range sprites of OAM for the next
    /// scanline, stopping at a ninth, which sets the overflow flag.
    method EvalSprites(ppu: Ppu)
      requires ppu.Valid()
      modifies this, ppu`status
      ensures secondaryOam == EvalSpec(old(ppu.oamData[..]), old(ppu.scanline), old(ppu.ctrl)).0
      ensures ppu.status == OverflowStatus(old(ppu.status), EvalSpec(old(ppu.oamData[..]), old(ppu.scanline), old(ppu.ctrl)).1)
      ensures ppu.Regs() == old(ppu.Regs()).(status := ppu.status)
      ensures primaryOam == old(primaryOam) && pixels == old(pixels) && Pipeline() == old(Pipeline())
    {
      var found, overflow := ScanOam(ppu);
      secondaryOam := found;
      ppu.status := OverflowStatus(ppu.status, overflow);
    }

    /// `load_sprites`: fetch both pattern bytes of each evaluated sprite's
    /// row and make them the sprites drawn on this scanline.
    method LoadSprites(ppu: Ppu)
      requires ppu.Valid() && ppu.scanline < 0x1_0000
      requires forall s | s in secondaryOam ::
        s.y as nat <= ppu.scanline && TileAddress(s, ppu.scanline, ppu.ctrl) + 8 < ppu.chr.Length
      modifies this
      ensures secondaryOam == old(secondaryOam) && pixels == old(pixels) && Pipeline() == old(Pipeline())
      ensures |primaryOam| == |secondaryOam|
      ensures forall k | 0 <= k < |primaryOam| ::
        primaryOam[k] == LoadedSprite(secondaryOam[k], ppu.scanline, ppu.ctrl, ppu.chr[..])
    {
      var sprites := secondaryOam;
      var loaded: seq<Sprite> := [];
      while |loaded| < |sprites|
        invariant |loaded| <= |sprites| && sprites == secondaryOam
        invariant pixels == old(pixels) && Pipeline() == old(Pipeline())
        invariant forall k | 0 <= k < |loaded| :: loaded[k] == LoadedSprite(sprites[k], ppu.scanline, ppu.ctrl, ppu.chr[..])
        decreases |sprites| - |loaded|
      {
        var sprite := sprites[|loaded|];
        var tileAddress := TileAddress(sprite, ppu.scanline, ppu.ctrl);
        TileAddressLayout(sprite, ppu.scanline, ppu.ctrl);
        var lo := ppu.RawReadData(tileAddress);
        var hi := ppu.RawReadData(tileAddress + 8);
        loaded := loaded + [sprite.(dataLo := lo, dataHi := hi)];
      }
      primaryOam := loaded;
    }

    /// `set_pixel`: look the colour up in the palette table (the backdrop
    /// when rendering is off) and store its RGB value at `y * 256 + x`.
    method SetPixel(x: nat, y: nat, colorIndex: byte, ppu: Ppu, ntsc: seq<Rgb>)
      requires ppu.Valid() && y * SCREEN_WIDTH + x < |pixels|
      requires RawRead(ppu.Video(), ppu.mirroring, 0x3F00 + PaletteOffset(ppu.mask, colorIndex)).Some?
      requires RawRead(ppu.Video(), ppu.mirroring, 0x3F00 + PaletteOffset(ppu.mask, colorIndex)).value as nat < |ntsc|
      modifies this`pixels
      ensures pixels == old(pixels)[y * SCREEN_WIDTH + x :=
        ntsc[RawRead(ppu.Video(), ppu.mirroring, 0x3F00 + PaletteOffset(ppu.mask, colorIndex)).value]]
      ensures primaryOam == old(primaryOam) && secondaryOam == old(secondaryOam) && Pipeline() == old(Pipeline())
    {
      var pixelIndex := y * SCREEN_WIDTH + x;
      var paletteOffset := if Rendering(ppu.mask) then colorIndex as nat else 0;
      var rgbIndex := ppu.RawReadData(0x3F00 + paletteOffset);
      pixels := pixels[pixelIndex := ntsc[rgbIndex]];
    }
  }

  /// The status register after sprite evaluation: the overflow bit is set
  /// when a ninth sprite was found, and nothing else changes.
  function OverflowStatus(status: byte, overflow: bool): byte {
    if overflow then status | SPRITE_OVERFLOW else status
  }

  /// The loop of `eval_sprites`: OAM entries in order, the in-range ones
  /// collected until a ninth is met, which stops the scan as an overflow.
  method ScanOam(ppu: Ppu) returns (found: seq<Sprite>, overflow: bool)
    requires ppu.Valid()
    ensures (found, overflow) == EvalSpec(ppu.oamData[..], ppu.scanline, ppu.ctrl)
  {
    var oam, scanline, ctrl := ppu.oamData[..], ppu.scanline, ppu.ctrl;
    found, overflow := [], false;
    var i := 0;
    while i < OAM_SPRITES
      invariant 0 <= i <= OAM_SPRITES
      invariant found == Candidates(oam, scanline, ctrl, i) && |found| <= MAX_SPRITES_PER_LINE
    {
      var address := i * 4;
      var sprite := NewSprite(i, oam[address..address + 4]);
      ScanStep(oam, scanline, ctrl, i, address, found, sprite);
      if InRange(sprite, scanline, ctrl) {
        if |found| == MAX_SPRITES_PER_LINE {
          OverflowFound(oam, scanline, ctrl, i);
          return found, true;
        }
        found := found + [sprite];
      }
      i := i + 1;
    }
    NoOverflow(oam, scanline, ctrl, i);
  }

  /// One entry of the scan: the candidates below `i + 1` are those below
  /// `i`, followed by entry `i` when it is in range.
  lemma ScanStep(oam: seq<byte>, scanline: nat, ctrl: byte, i: nat, address: nat, found: seq<Sprite>, sprite: Sprite)
    requires |oam| == 256 && i < OAM_SPRITES && address == 4 * i
    requires found == Candidates(oam, scanline, ctrl, i) && sprite == NewSprite(i, oam[address..address + 4])
    ensures sprite == OamSprite(oam, i)
    ensures Candidates(oam, scanline, ctrl, i + 1) == if InRange(sprite, scanline, ctrl) then found + [sprite] else found
  {
    CandidatesStep(oam, scanline, ctrl, i + 1);
  }

  /// Meeting an in-range entry with eight candidates already found is the
  /// overflow case of `EvalSpec`, with those eight as its sprites.
  lemma OverflowFound(oam: seq<byte>, scanline: nat, ctrl: byte, i: nat)
    requires |oam| == 256 && i < OAM_SPRITES
    requires |Candidates(oam, scanline, ctrl, i)| == MAX_SPRITES_PER_LINE
    requires InRange(OamSprite(oam, i), scanline, ctrl)
    ensures EvalSpec(oam, scanline, ctrl) == (Candidates(oam, scanline, ctrl, i), true)
  {
    var ci := Candidates(oam, scanline, ctrl, i);
    var s := OamSprite(oam, i);
    var c := Candidates(oam, scanline, ctrl, OAM_SPRITES);
    assert Candidates(oam, scanline, ctrl, i + 1) == ci + [s] by {
      CandidatesStep(oam, scanline, ctrl, i + 1);
    }
    assert ci + [s] == c[..|ci + [s]|] by {
      CandidatesPrefix(oam, scanline, ctrl, i + 1, OAM_SPRITES);
    }
    PrefixOfExtension(ci, s, c);
  }

  /// Running through all of OAM with at most eight candidates is the
  /// non-overflow case of `EvalSpec`.
  lemma NoOverflow(oam: seq<byte>, scanline: nat, ctrl: byte, n: nat)
    requires |oam| == 256 && n == OAM_SPRITES
    requires |Candidates(oam, scanline, ctrl, n)| <= MAX_SPRITES_PER_LINE
    ensures EvalSpec(oam, scanline, ctrl) == (Candidates(oam, scanline, ctrl, n), false)
  {
    assert |oam| / 4 == n;
  }

  lemma PrefixOfExtension(prefix: seq<Sprite>, s: Sprite, c: seq<Sprite>)
    requires |prefix + [s]| <= |c| && prefix + [s] == c[..|prefix + [s]|]
    ensures |c| > |prefix| && c[..|prefix|] == prefix
  {
    assert c[..|prefix|] == (prefix + [s])[..|prefix|];
  }

  /// A sprite after `load_sprites`: its two pattern bytes for the scanline.
  function LoadedSprite(s: Sprite, scanline: nat, ctrl: byte, chr: seq<byte>): (r: Sprite)
    requires s.y as nat <= scanline < 0x1_0000 && TileAddress(s, scanline, ctrl) + 8 < |chr|
  {
    var a := TileAddress(s, scanline, ctrl);
    s.(dataLo := chr[a], dataHi := chr[a + 8])
  }

  /// The pixels of a loaded sprite are the pattern table's: at each of its
  /// columns, the colour is the pair of bits of the row's two planes.
  lemma LoadedColors(s: Sprite, scanline: nat, ctrl: byte, chr: seq<byte>, x: nat)
    requires s.y as nat <= scanline < 0x1_0000 && TileAddress(s, scanline, ctrl) + 8 < |chr|
    requires s.x as nat <= x < s.x as nat + 8
    ensures var a := TileAddress(s, scanline, ctrl);
      var col := if s.flipX then 7 - (x - s.x as nat) else x - s.x as nat;
      ColorIndex(LoadedSprite(s, scanline, ctrl, chr), x) == 2 * NthBit(chr[a + 8], 7 - col) + NthBit(chr[a], 7 - col)
  {
    ColorIndexBits(LoadedSprite(s, scanline, ctrl, chr), x);
  }

  /// The palette address offset `set_pixel` reads: the colour while
  /// rendering, the backdrop otherwise.
  function PaletteOffset(mask: byte, colorIndex: byte): nat {
    if Rendering(mask) then colorIndex as nat else 0
  }

  /// Distinct on-screen coordinates name distinct pixels, so `set_pixel`
  /// changes exactly the one it is given.
  lemma PixelIndexInjective(x: nat, y: nat, x': nat, y': nat)
    requires x < SCREEN_WIDTH && x' < SCREEN_WIDTH
    requires y * SCREEN_WIDTH + x == y' * SCREEN_WIDTH + x'
    ensures x == x' && y == y'
  {
    assert (y * SCREEN_WIDTH + x) / SCREEN_WIDTH == y;
    assert (y' * SCREEN_WIDTH + x') / SCREEN_WIDTH == y';
  }
}

/// The PPU's control register ($2000, nes/src/ppu/registers/control.rs)
/// and mask register ($2001, nes/src/ppu/registers/mask.rs): one byte of
/// bit flags each, read through small decoders.
module PpuRegisters {
  import opened Tools

  // ControlRegister flags.
  const NAMETABLE1: byte := 0x01
  const NAMETABLE2: byte := 0x02
  const VRAM_ADD_INCREMENT: byte := 0x04
  const SPRITE_PATTERN_ADDR: byte := 0x08
  const BACKROUND_PATTERN_ADDR: byte := 0x10
  const SPRITE_SIZE: byte := 0x20
  const MASTER_SLAVE_SELECT: byte := 0x40
  const GENERATE_NMI: byte := 0x80

  // MaskRegister flags.
  const GREYSCALE: byte := 0x01
  const LEFTMOST_8PXL_BACKGROUND: byte := 0x02
  const LEFTMOST_8PXL_SPRITE: byte := 0x04
  const SHOW_BACKGROUND: byte := 0x08
  const SHOW_SPRITES: byte := 0x10
  const EMPHASISE_RED: byte := 0x20
  const EMPHASISE_GREEN: byte := 0x40
  const EMPHASISE_BLUE: byte := 0x80

  predicate Contains(bits: byte, flag: byte) {
    bits & flag == flag
  }

  /// `get_nametable`: the base nametable, 0-3.
  function GetNametable(ctrl: byte): (n: byte)
    ensures n < 4
    ensures n == ctrl % 4
  {
    ctrl & 0x03
  }

  /// `nametable_addr`: where the base nametable starts.
  function NametableAddr(ctrl: byte): (a: u16)
    ensures a == 0x2000 + 0x400 * (GetNametable(ctrl) as int)
  {
    match GetNametable(ctrl)
    case 0 => 0x2000
    case 1 => 0x2400
    case 2 => 0x2800
    case 3 => 0x2C00
  }

  /// `vram_addr_increment`: one across, 32 (a whole row of tiles) down.
  function VramAddrIncrement(ctrl: byte): (inc: byte)
    ensures inc == 1 || inc == 32
    ensures inc == 32 <==> ctrl & 0x04 != 0
  {
    if !Contains(ctrl, VRAM_ADD_INCREMENT) then 1 else 32
  }

  /// `sprite_pattern_addr`: the pattern table of 8x8 sprites.
  function SpritePatternAddr(ctrl: byte): (a: u16)
    ensures a == 0 || a == 0x1000
    ensures a == 0x1000 <==> ctrl & 0x08 != 0
  {
    if !Contains(ctrl, SPRITE_PATTERN_ADDR) then 0 else 0x1000
  }

  /// `background_pattern_addr`: the pattern table of the background.
  function BackgroundPatternAddr(ctrl: byte): (a: u16)
    ensures a == 0 || a == 0x1000
    ensures a == 0x1000 <==> ctrl & 0x10 != 0
  {
    if !Contains(ctrl, BACKROUND_PATTERN_ADDR) then 0 else 0x1000
  }

  /// `sprite_size`: the height of a sprite in pixels.
  function SpriteSize(ctrl: byte): (h: nat)
    ensures h == 8 || h == 16
    ensures h == 16 <==> ctrl & 0x20 != 0
  {
    if !Contains(ctrl, SPRITE_SIZE) then 8 else 16
  }

  /// `master_slave_select`: bit 6 as a number.
  function MasterSlaveSelect(ctrl: byte): (s: byte)
    ensures s == (ctrl >> 6) & 1
  {
    if !Contains(ctrl, MASTER_SLAVE_SELECT) then 0 else 1
  }

  /// `generate_vblank_nmi`.
  predicate GenerateVblankNmi(ctrl: byte) {
    Contains(ctrl, GENERATE_NMI)
  }

  lemma GenerateVblankNmiBit(ctrl: byte)
    ensures GenerateVblankNmi(ctrl) <==> ctrl >= 0x80
  {
  }

  /// The control register as an object that `reset` clears in place.
  class ControlRegister {
    var bits: byte

    /// `new`: the power-up value.
    constructor ()
      ensures bits == 0
    {
      bits := 0;
    }

    /// `reset`: remove each of the eight flags in turn.
    method Reset()
      modifies this
      ensures bits == 0
      ensures forall flag: byte :: !Contains(bits, flag) || flag == 0
    {
      bits := bits & !NAMETABLE1;
      bits := bits & !NAMETABLE2;
      bits := bits & !VRAM_ADD_INCREMENT;
      bits := bits & !SPRITE_PATTERN_ADDR;
      bits := bits & !BACKROUND_PATTERN_ADDR;
      bits := bits & !SPRITE_SIZE;
      bits := bits & !MASTER_SLAVE_SELECT;
      bits := bits & !GENERATE_NMI;
    }
  }

  /// The decoders of a register after power-up or `reset`: nametable
  /// 0x2000, step 1, both pattern tables at 0, 8x8 sprites and no NMI.
  lemma ControlPowerUp()
    ensures NametableAddr(0) == 0x2000 && VramAddrIncrement(0) == 1
    ensures SpritePatternAddr(0) == 0 && BackgroundPatternAddr(0) == 0
    ensures SpriteSize(0) == 8 && MasterSlaveSelect(0) == 0 && !GenerateVblankNmi(0)
  {
  }

  /// `is_grayscale`.
  predicate IsGrayscale(mask: byte) {
    Contains(mask, GREYSCALE)
  }

  /// `leftmost_8pxl_background`.
  predicate Leftmost8pxlBackground(mask: byte) {
    Contains(mask, LEFTMOST_8PXL_BACKGROUND)
  }

  /// `leftmost_8pxl_sprite`.
  predicate Leftmost8pxlSprite(mask: byte) {
    Contains(mask, LEFTMOST_8PXL_SPRITE)
  }

  /// `show_background`.
  predicate ShowBackground(mask: byte) {
    Contains(mask, SHOW_BACKGROUND)
  }

  /// `show_sprites`.
  predicate ShowSprites(mask: byte) {
    Contains(mask, SHOW_SPRITES)
  }

  /// Each predicate reports exactly its own bit.
  lemma MaskBits(mask: byte)
    ensures IsGrayscale(mask) <==> mask & 0x01 != 0
    ensures Leftmost8pxlBackground(mask) <==> mask & 0x02 != 0
    ensures Leftmost8pxlSprite(mask) <==> mask & 0x04 != 0
    ensures ShowBackground(mask) <==> mask & 0x08 != 0
    ensures ShowSprites(mask) <==> mask & 0x10 != 0
  {
  }

  /// `rendering`: the PPU draws when either layer is on.
  predicate Rendering(mask: byte) {
    ShowSprites(mask) || ShowBackground(mask)
  }

  /// `rendering_background(x)`: the background is on, and column x is
  /// either past the first eight or those are not hidden.
  predicate RenderingBackground(mask: byte, x: nat) {
    ShowBackground(mask) && (Leftmost8pxlBackground(mask) || x >= 8)
  }

  /// `rendering_sprites(x)`, the same shape for sprites.
  predicate RenderingSprites(mask: byte, x: nat) {
    ShowSprites(mask) && (Leftmost8pxlSprite(mask) || x >= 8)
  }

  /// Whether a layer is drawn at a column: past column 7 only its "show"
  /// bit matters; in columns 0-7 its "leftmost" bit must be set too.  A
  /// drawn layer means the PPU is rendering.
  lemma RenderingColumns(mask: byte, x: nat)
    ensures x >= 8 ==> (RenderingBackground(mask, x) <==> mask & 0x08 != 0)
    ensures x >= 8 ==> (RenderingSprites(mask, x) <==> mask & 0x10 != 0)
    ensures x < 8 ==> (RenderingBackground(mask, x) <==> mask & 0x0A == 0x0A)
    ensures x < 8 ==> (RenderingSprites(mask, x) <==> mask & 0x14 == 0x14)
    ensures RenderingBackground(mask, x) || RenderingSprites(mask, x) ==> Rendering(mask)
  {
  }

  /// Mask 0b0001_1100 shows the background from column 8 on but hides it in
  /// column 0.
  lemma HiddenLeftColumn()
    ensures !RenderingBackground(0x1C, 0) && RenderingBackground(0x1C, 8)
  {
  }

  /// The mask register as an object that `reset` clears in place.
  class MaskRegister {
    var bits: byte

    /// `new`: the power-up value.
    constructor ()
      ensures bits == 0
    {
      bits := 0;
    }

    /// `reset`: remove each of the eight flags in turn.
    method Reset()
      modifies this
      ensures bits == 0
      ensures !Rendering(bits) && !IsGrayscale(bits)
    {
      bits := bits & !GREYSCALE;
      bits := bits & !LEFTMOST_8PXL_BACKGROUND;
      bits := bits & !LEFTMOST_8PXL_SPRITE;
      bits := bits & !SHOW_BACKGROUND;
      bits := bits & !SHOW_SPRITES;
      bits := bits & !EMPHASISE_RED;
      bits := bits & !EMPHASISE_GREEN;
      bits := bits & !EMPHASISE_BLUE;
    }
  }
}

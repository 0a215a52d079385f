/// One OAM sprite entry as the renderer decodes it
/// (nes/src/ppu/sprite.rs): position, attribute flags, tile number, the two
/// pattern bytes of the current row, and the entry's OAM index.
module PpuSprite {
  import opened Tools
  import opened PpuRegisters

  /// `SpriteTileIndex::base`: 8x16 sprites take their pattern table from
  /// bit 0 of the tile number.
  function TileBase(index: byte): (a: u16)
    ensures a == 0 || a == 0x1000
    ensures a == 0x1000 <==> index & 1 == 1
  {
    0x1000 * ((index as int) % 2)
  }

  /// `SpriteTileIndex::large_offset`: 8x16 sprites use the even tile number
  /// for their top half.
  function LargeOffset(index: byte): (a: u16)
    ensures a == ((index as int) / 2) * 32
  {
    EvenPart(index);
    ((index & 0xFE) as int) * 16
  }

  lemma EvenPart(index: byte)
    ensures (index & 0xFE) as int == 2 * ((index as int) / 2)
  {
  }

  /// `SpriteTileIndex::small_offset`: 16 bytes per tile.
  function SmallOffset(index: byte): (a: u16)
    ensures a == (index as int) * 16
  {
    (index as int) * 16
  }

  datatype Sprite = Sprite(
    x: byte,
    y: byte,
    flipY: bool,
    flipX: bool,
    behindBackground: bool,
    palette: byte,
    tileIndex: byte,
    dataLo: byte,
    dataHi: byte,
    oamIndex: nat)

  /// `Sprite::new`: decode the four OAM bytes of entry `oamIndex` (Y, tile,
  /// attributes, X); the pattern bytes start at 0.
  function NewSprite(oamIndex: nat, bytes: seq<byte>): (s: Sprite)
    requires |bytes| >= 4
    ensures s.y == bytes[0] && s.tileIndex == bytes[1] && s.x == bytes[3]
    ensures s.flipY <==> bytes[2] >= 0x80
    ensures s.flipX <==> bytes[2] & 0x40 != 0
    ensures s.behindBackground <==> bytes[2] & 0x20 != 0
    ensures s.palette < 4 && s.palette == bytes[2] % 4
    ensures s.dataLo == 0 && s.dataHi == 0 && s.oamIndex == oamIndex
  {
    Sprite(bytes[3], bytes[0], bytes[2] & 0x80 != 0, bytes[2] & 0x40 != 0,
           bytes[2] & 0x20 != 0, bytes[2] & 0x03, bytes[1], 0, 0, oamIndex)
  }

  /// The row of the sprite that `scanline` shows, counted from the top of
  /// the sprite as drawn: `(scanline - y) % size`, turned over under flip Y.
  function SpriteRow(s: Sprite, scanline: nat, ctrl: byte): (row: nat)
    requires s.y as nat <= scanline < 0x1_0000
    ensures row < SpriteSize(ctrl)
  {
    var size := SpriteSize(ctrl);
    var offset := (scanline - s.y as nat) % size;
    if s.flipY then size - 1 - offset else offset
  }

  /// `tile_address`: the address of the pattern byte (low plane) for the
  /// sprite's row at `scanline`.  The 16-bit subtraction `scanline - y`
  /// underflows, a panic, when the scanline is above the sprite.
  function TileAddress(s: Sprite, scanline: nat, ctrl: byte): (a: u16)
    requires s.y as nat <= scanline < 0x1_0000
  {
    var tile := if SpriteSize(ctrl) == 16 then TileBase(s.tileIndex) + LargeOffset(s.tileIndex)
                else SpritePatternAddr(ctrl) + SmallOffset(s.tileIndex);
    var row := SpriteRow(s, scanline, ctrl);
    tile + row + if row < 8 then 0 else 8
  }

  /// For 8x8 sprites the address is the pattern table plus tile × 16 plus
  /// the row; for 8x16 sprites it is the even tile's table and offset plus
  /// the row, skipping the 8 high-plane bytes of the first tile when the row
  /// is in the bottom half.  Either way the high plane at address + 8 is
  /// still inside the pattern tables.
  lemma TileAddressLayout(s: Sprite, scanline: nat, ctrl: byte)
    requires s.y as nat <= scanline < 0x1_0000
    ensures var row := SpriteRow(s, scanline, ctrl);
      var a := TileAddress(s, scanline, ctrl);
      (SpriteSize(ctrl) == 8 ==> row < 8 && a == SpritePatternAddr(ctrl) + 16 * (s.tileIndex as int) + row) &&
      (SpriteSize(ctrl) == 16 ==>
         a == TileBase(s.tileIndex) + 32 * ((s.tileIndex as int) / 2) + (if row < 8 then row else row + 8)) &&
      a + 8 <= 0x1FFF
  {
    if SpriteSize(ctrl) == 16 {
      LargeTileLayout(s, scanline, ctrl);
    } else {
      SmallTileLayout(s, scanline, ctrl);
    }
  }

  /// The 8x8 case of `TileAddressLayout`.
  lemma SmallTileLayout(s: Sprite, scanline: nat, ctrl: byte)
    requires s.y as nat <= scanline < 0x1_0000 && SpriteSize(ctrl) == 8
    ensures var row := SpriteRow(s, scanline, ctrl);
      var a := TileAddress(s, scanline, ctrl);
      row < 8 && a == SpritePatternAddr(ctrl) + 16 * (s.tileIndex as int) + row && a + 8 <= 0x1FFF
  {
  }

  /// The 8x16 case of `TileAddressLayout`.
  lemma LargeTileLayout(s: Sprite, scanline: nat, ctrl: byte)
    requires s.y as nat <= scanline < 0x1_0000 && SpriteSize(ctrl) == 16
    ensures var row := SpriteRow(s, scanline, ctrl);
      var a := TileAddress(s, scanline, ctrl);
      a == TileBase(s.tileIndex) + 32 * ((s.tileIndex as int) / 2) + (if row < 8 then row else row + 8) &&
      a + 8 <= 0x1FFF
  {
  }

  /// The row read is the scanline's distance below the sprite's top, turned
  /// over under flip Y, and it repeats every sprite height.
  lemma SpriteRowValue(s: Sprite, scanline: nat, ctrl: byte)
    requires s.y as nat <= scanline < s.y as nat + SpriteSize(ctrl)
    ensures SpriteRow(s, scanline, ctrl) ==
      if s.flipY then SpriteSize(ctrl) - 1 - (scanline - s.y as nat) else scanline - s.y as nat
  {
  }

  /// `color_index(x)`: the sprite's 2-bit colour at screen column `x`, 0
  /// outside its eight columns.  The column inside the sprite comes from a
  /// wrapping subtraction, so columns left of the sprite wrap to large
  /// numbers and also read 0.
  function ColorIndex(s: Sprite, x: nat): (c: byte)
    requires x < 0x1_0000
    ensures c < 4
  {
    var spriteX := (x - s.x as int) % 0x1_0000;
    if spriteX < 8 then ColumnColor(s, spriteX) else 0
  }

  /// The colour in column `spriteX` of the sprite, counted from its left
  /// edge as drawn: the column is mirrored under flip X, and bit
  /// 7 − column of each plane is read.
  function ColumnColor(s: Sprite, spriteX: nat): byte
    requires spriteX < 8
  {
    var column := if s.flipX then 7 - spriteX else spriteX;
    (NthBit(s.dataHi, 7 - column) << 1) | NthBit(s.dataLo, 7 - column)
  }

  /// The colour is the pair (high plane bit, low plane bit) at bit
  /// 7 − column, the column mirrored under flip X, and 0 in every other
  /// column.
  lemma ColorIndexBits(s: Sprite, x: nat)
    requires x < 0x1_0000
    ensures s.x as nat <= x < s.x as nat + 8 ==>
      var col := if s.flipX then 7 - (x - s.x as nat) else x - s.x as nat;
      ColorIndex(s, x) == 2 * NthBit(s.dataHi, 7 - col) + NthBit(s.dataLo, 7 - col)
    ensures !(s.x as nat <= x < s.x as nat + 8) ==> ColorIndex(s, x) == 0
  {
    SpriteColumn(s.x, x);
    if s.x as nat <= x < s.x as nat + 8 {
      ColorIndexInside(s, x);
    }
  }

  /// The inside case of `ColorIndexBits`.
  lemma ColorIndexInside(s: Sprite, x: nat)
    requires s.x as nat <= x < s.x as nat + 8
    ensures var col := if s.flipX then 7 - (x - s.x as nat) else x - s.x as nat;
      ColorIndex(s, x) == 2 * NthBit(s.dataHi, 7 - col) + NthBit(s.dataLo, 7 - col)
  {
    SpriteColumn(s.x, x);
    ColumnColorBits(s, x - s.x as nat);
  }

  /// `ColumnColor` as a number: twice the high-plane bit plus the low one.
  lemma ColumnColorBits(s: Sprite, spriteX: nat)
    requires spriteX < 8
    ensures var col := if s.flipX then 7 - spriteX else spriteX;
      ColumnColor(s, spriteX) == 2 * NthBit(s.dataHi, 7 - col) + NthBit(s.dataLo, 7 - col)
  {
    var col := if s.flipX then 7 - spriteX else spriteX;
    PairBits(NthBit(s.dataHi, 7 - col), NthBit(s.dataLo, 7 - col));
  }

  /// The wrapping column `x - sprite x` is the plain difference inside the
  /// sprite's eight columns and at least 8 everywhere else.
  lemma SpriteColumn(spriteX: byte, x: nat)
    requires x < 0x1_0000
    ensures var c := (x - spriteX as int) % 0x1_0000;
      (spriteX as nat <= x < spriteX as nat + 8 ==> c == x - spriteX as nat) &&
      (!(spriteX as nat <= x < spriteX as nat + 8) ==> c >= 8)
  {
  }

  /// Two bits side by side make the number `2 * hi + lo`.
  lemma PairBits(hi: byte, lo: byte)
    requires hi == 0 || hi == 1
    requires lo == 0 || lo == 1
    ensures (hi << 1) | lo == 2 * hi + lo
  {
  }

  /// Pattern bytes 1000_0010 (low) and 0100_0010 (high) at X 4: column 6
  /// has both bits, column 0 only the low one and column 1 only the high
  /// one; flip X reads the same columns from the other side.
  lemma ColorIndexExamples()
    ensures var s := NewSprite(0, [0, 0, 0, 4]).(dataLo := 0x82, dataHi := 0x42);
      ColorIndex(s, 10) == 3 && ColorIndex(s, 4) == 1 && ColorIndex(s, 5) == 2 && ColorIndex(s, 3) == 0
  {
  }

  lemma FlippedColorIndexExamples()
    ensures var s := NewSprite(0, [0, 0, 0x40, 4]).(dataLo := 0x82, dataHi := 0x42);
      ColorIndex(s, 5) == 3 && ColorIndex(s, 11) == 1 && ColorIndex(s, 10) == 2
  {
  }

  /// An 8x8 tile 7 at Y 5, read on scanlines 5, 8, 12 and 13 (the last one
  /// wrapping to row 0), and the same under flip Y.
  lemma SmallTileExamples()
    ensures var s := NewSprite(0, [5, 7, 0, 0]);
      TileAddress(s, 5, 0) == 112 && TileAddress(s, 8, 0) == 115 &&
      TileAddress(s, 12, 0) == 119 && TileAddress(s, 13, 0) == 112
    ensures var s := NewSprite(0, [5, 7, 0x80, 0]);
      TileAddress(s, 5, 0) == 119 && TileAddress(s, 8, 0) == 116 &&
      TileAddress(s, 12, 0) == 112 && TileAddress(s, 13, 0) == 119
  {
  }

  /// An 8x16 sprite on tile 7 uses table 0x1000 and tile 6, skipping eight
  /// bytes in its bottom half.
  lemma LargeTileExamples()
    ensures var s := NewSprite(0, [5, 7, 0, 0]);
      TileAddress(s, 5, 0x20) == 0x1000 + 96 && TileAddress(s, 13, 0x20) == 0x1000 + 96 + 16 &&
      TileAddress(s, 21, 0x20) == 0x1000 + 96
    ensures var s := NewSprite(0, [5, 7, 0x80, 0]);
      TileAddress(s, 5, 0x20) == 0x1000 + 96 + 8 + 15 && TileAddress(s, 20, 0x20) == 0x1000 + 96
  {
  }
}

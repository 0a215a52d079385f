/// The window's own picture of a PPU frame (src/render/mod.rs): the base
/// nametable and, when the screen is scrolled, the neighbouring one drawn
/// tile by tile, then the 64 sprites of OAM drawn from the last to the
/// first, so that a lower-numbered sprite covers a higher-numbered one.
///
/// This renderer reads a PPU whose scroll registers and pattern-table
/// accessors (`scroll.scroll_x`, `bknd_pattern_addr`, `sprt_pattern_addr`)
/// are not those of the emulator's PPU; `Screen` holds the fields it reads,
/// and the pattern tables come from the control register's decoders.  The
/// canvas records the palette byte drawn at each pixel; the lookup of its
/// colour in `SYSTEM_PALLETE` (src/render/palette.rs) is not part of this
/// model.
module Render {
  import opened Tools
  import opened Cartridge
  import opened PpuRegisters
  import opened PpuMemory
  import opened Tiles

  /// The PPU state `render` reads.
  datatype Screen = Screen(
    paletteTable: seq<byte>, chrRom: seq<byte>, vram: seq<byte>, oamData: seq<byte>,
    mirroring: Mirroring, nametableBase: u16, backgroundBank: nat, spriteBank: nat, scrollX: u8, scrollY: u8)

  /// The screen of a PPU whose control register holds `ctrl`: the base
  /// nametable and the two pattern tables as the register's decoders give
  /// them.
  function ScreenOf(
    paletteTable: seq<byte>, chrRom: seq<byte>, vram: seq<byte>, oamData: seq<byte>,
    mirroring: Mirroring, ctrl: byte, scrollX: u8, scrollY: u8): Screen
  {
    Screen(paletteTable, chrRom, vram, oamData, mirroring,
           NametableAddr(ctrl), BackgroundPatternAddr(ctrl), SpritePatternAddr(ctrl), scrollX, scrollY)
  }

  // ----- palettes ----------------------------------------------------------

  /// The 2-bit field of attribute byte `attr` for the 2x2-tile quadrant
  /// (`qx`, `qy`) of its 4x4-tile area.  The quadrant pair (1, 1) is the
  /// last case; the arm of the source that panics is unreachable, since
  /// both halves of the pair are 0 or 1.
  function AttributeField(attr: byte, qx: nat, qy: nat): (p: byte)
    ensures p < 4
  {
    if qx == 0 && qy == 0 then attr & 3
    else if qx == 1 && qy == 0 then (attr >> 2) & 3
    else if qx == 0 && qy == 1 then (attr >> 4) & 3
    else (attr >> 6) & 3
  }

  /// `bg_pallette`: the background palette of the tile at `column`, `row`:
  /// the universal background colour and the three colours of the palette
  /// the attribute table assigns to the tile's quadrant.
  function BgPalette(pt: seq<byte>, attributeTable: seq<byte>, column: nat, row: nat): (palette: seq<byte>)
    requires |pt| == 32 && |attributeTable| == 64 && column < 32 && row < 30
    ensures |palette| == 4 && palette[0] == pt[0]
  {
    var attrByte := attributeTable[row / 4 * 8 + column / 4];
    var palIdx := AttributeField(attrByte, column % 4 / 2, row % 4 / 2);
    var start := 1 + palIdx as int * 4;
    [pt[0], pt[start], pt[start + 1], pt[start + 2]]
  }

  /// The attribute field of quadrant (`qx`, `qy`) is bits `2qx + 4qy` and
  /// `2qx + 4qy + 1` of the byte.
  lemma AttributeFieldBits(attr: byte, qx: nat, qy: nat)
    requires qx < 2 && qy < 2
    ensures AttributeField(attr, qx, qy) as int ==
      2 * NthBit(attr, 2 * qx + 4 * qy + 1) as int + NthBit(attr, 2 * qx + 4 * qy) as int
  {
    var s := 2 * qx + 4 * qy;
    var lo := NthBit(attr, s);
    var hi := NthBit(attr, s + 1);
    assert (attr >> s) & 3 == (hi << 1) | lo;
    assert AttributeField(attr, qx, qy) == (attr >> s) & 3;
  }

  /// A background colour of value `v` is palette RAM entry
  /// `palette << 2 | v`, as in the PPU's colour index, and value 0 is
  /// entry 0; the palette is the one of the 16x16-pixel block of the tile.
  lemma BgPaletteEntries(pt: seq<byte>, attributeTable: seq<byte>, column: nat, row: nat, v: byte)
    requires |pt| == 32 && |attributeTable| == 64 && column < 32 && row < 30 && v < 4
    ensures var p := AttributeField(attributeTable[row / 4 * 8 + column / 4], column % 4 / 2, row % 4 / 2);
      BgPalette(pt, attributeTable, column, row)[v] == if v == 0 then pt[0] else pt[((p << 2) | v) as int]
  {
    var p := AttributeField(attributeTable[row / 4 * 8 + column / 4], column % 4 / 2, row % 4 / 2);
    assert (p << 2) | v == p * 4 + v;
  }

  /// The four tiles of a 2x2-tile block share their palette.
  lemma BgPaletteBlocks(pt: seq<byte>, attributeTable: seq<byte>, column: nat, row: nat, column': nat, row': nat)
    requires |pt| == 32 && |attributeTable| == 64 && column < 32 && row < 30 && column' < 32 && row' < 30
    requires column / 2 == column' / 2 && row / 2 == row' / 2
    ensures BgPalette(pt, attributeTable, column, row) == BgPalette(pt, attributeTable, column', row')
  {
    Quadrant(column);
    Quadrant(column');
    Quadrant(row);
    Quadrant(row');
  }

  /// The 4-tile area and the quadrant of a tile are those of its 2-tile
  /// block.
  lemma Quadrant(c: nat)
    ensures c / 4 == c / 2 / 2 && c % 4 / 2 == c / 2 % 2
  {
  }

  /// `sprite_palette`: transparent, then the three colours of sprite
  /// palette `paletteIdx`.
  function SpritePalette(pt: seq<byte>, paletteIdx: byte): (palette: seq<byte>)
    requires |pt| == 32 && paletteIdx < 4
    ensures |palette| == 4 && palette[0] == 0
  {
    var start := 0x11 + paletteIdx as int * 4;
    [0, pt[start], pt[start + 1], pt[start + 2]]
  }

  /// A sprite colour of value `v` > 0 is palette RAM entry
  /// `0x10 | palette << 2 | v`, as in the PPU's colour index.
  lemma SpritePaletteEntries(pt: seq<byte>, paletteIdx: byte, v: byte)
    requires |pt| == 32 && paletteIdx < 4 && 0 < v < 4
    ensures SpritePalette(pt, paletteIdx)[v] == pt[(0x10 | (paletteIdx << 2) | v) as int]
  {
    assert 0x10 | (paletteIdx << 2) | v == 0x10 + paletteIdx * 4 + v;
  }

  // ----- a nametable -------------------------------------------------------

  /// Every tile the nametable names lies inside the pattern memory.
  predicate TilesFit(chr: seq<byte>, bank: nat, nameTable: seq<byte>)
    requires |nameTable| == 0x400
  {
    forall i | 0 <= i < 0x3C0 :: bank + nameTable[i] as int * 16 + 16 <= |chr|
  }

  /// A background tile at tile column `tileColumn` and row `tileRow` of a
  /// table, drawn `shiftX`, `shiftY` from where it lies in the table, and
  /// only at the pixels of the table inside `view`.
  function BackgroundTile(
    tile: seq<byte>, palette: seq<byte>, tileColumn: nat, tileRow: nat,
    view: Rect, shiftX: int, shiftY: int): Chunk
  {
    Chunk(tile, palette, (shiftX + tileColumn * 8, shiftY + tileRow * 8), false, false, false,
          Some(Rect(shiftX + view.x1, shiftY + view.y1, shiftX + view.x2, shiftY + view.y2)))
  }

  /// Tile `i` of `render_name_table`: tile column `i % 32` and row `i / 32`
  /// of the table, in the palette of its attribute quadrant.
  function NameTableChunk(
    pt: seq<byte>, chr: seq<byte>, bank: nat, nameTable: seq<byte>,
    view: Rect, shiftX: int, shiftY: int, i: nat): (c: Chunk)
    requires |pt| == 32 && |nameTable| == 0x400 && TilesFit(chr, bank, nameTable) && i < 0x3C0
    ensures ValidChunk(c)
  {
    BackgroundTile(TileAt(chr, bank, nameTable[i] as int), BgPalette(pt, nameTable[0x3C0..0x400], i % 32, i / 32),
                   i % 32, i / 32, view, shiftX, shiftY)
  }

  function NameTableChunks(
    pt: seq<byte>, chr: seq<byte>, bank: nat, nameTable: seq<byte>,
    view: Rect, shiftX: int, shiftY: int): (cs: seq<Chunk>)
    requires |pt| == 32 && |nameTable| == 0x400 && TilesFit(chr, bank, nameTable)
    ensures |cs| == 0x3C0 && ValidChunks(cs)
  {
    seq(0x3C0, i requires 0 <= i < 0x3C0 => NameTableChunk(pt, chr, bank, nameTable, view, shiftX, shiftY, i))
  }

  /// The colour of pixel (`px`, `py`) of a nametable: the pattern value of
  /// the tile under it, in that tile's background palette.
  function BackgroundColour(pt: seq<byte>, chr: seq<byte>, bank: nat, nameTable: seq<byte>, px: nat, py: nat): byte
    requires |pt| == 32 && |nameTable| == 0x400 && TilesFit(chr, bank, nameTable) && px < 256 && py < 240
  {
    var tile := TileAt(chr, bank, nameTable[py / 8 * 32 + px / 8] as int);
    BgPalette(pt, nameTable[0x3C0..0x400], px / 8, py / 8)[PatternValue(tile, px % 8, py % 8)]
  }

  /// The tile of the table under table pixel (`px`, `py`).
  lemma TileUnder(px: nat, py: nat) returns (k: nat)
    requires px < 256 && py < 240
    ensures k < 0x3C0 && k % 32 == px / 8 && k / 32 == py / 8
    ensures px - k % 32 * 8 == px % 8 && py - k / 32 * 8 == py % 8
  {
    k := py / 8 * 32 + px / 8;
  }

  /// The 8x8 square of tile `i` holds the table pixel (`px`, `py`) only when
  /// the pixel is one of the table's 256x240, and then only for the tile
  /// under it.
  lemma TileSquare(i: nat, px: int, py: int)
    requires i < 0x3C0
    ensures 0 <= px - i % 32 * 8 < 8 && 0 <= py - i / 32 * 8 < 8 ==>
      0 <= px < 256 && 0 <= py < 240 && i % 32 == px / 8 && i / 32 == py / 8
  {
    var a := i % 32;
    var b := i / 32;
    assert px == a * 8 + (px - a * 8);
    assert py == b * 8 + (py - b * 8);
  }

  /// Tiles of the table are told apart by their column and row.
  lemma TileIndex(i: nat, k: int)
    requires i < 0x3C0
    ensures 0 <= k < 0x3C0 && i % 32 == k % 32 && i / 32 == k / 32 ==> i == k
  {
  }

  /// Tile `i` of the table covers the 8x8 square at its column and row,
  /// moved by the shift, unflipped.
  lemma NameTableCell(
    pt: seq<byte>, chr: seq<byte>, bank: nat, nameTable: seq<byte>,
    view: Rect, shiftX: int, shiftY: int, i: nat, p: (int, int))
    requires |pt| == 32 && |nameTable| == 0x400 && TilesFit(chr, bank, nameTable) && i < 0x3C0
    ensures var px := p.0 - shiftX;
      var py := p.1 - shiftY;
      CellOf(NameTableChunk(pt, chr, bank, nameTable, view, shiftX, shiftY, i), p) ==
        if 0 <= px - i % 32 * 8 < 8 && 0 <= py - i / 32 * 8 < 8 then Some((py - i / 32 * 8, px - i % 32 * 8)) else None
  {
  }

  /// The tile `k` under table pixel (`px`, `py`) paints it with the pixel's
  /// background colour when it lies in the view, and not at all otherwise.
  lemma NameTableHit(
    pt: seq<byte>, chr: seq<byte>, bank: nat, nameTable: seq<byte>,
    view: Rect, shiftX: int, shiftY: int, px: nat, py: nat, k: nat)
    requires |pt| == 32 && |nameTable| == 0x400 && TilesFit(chr, bank, nameTable) && px < 256 && py < 240
    requires k < 0x3C0 && k % 32 == px / 8 && k / 32 == py / 8
    requires px - k % 32 * 8 == px % 8 && py - k / 32 * 8 == py % 8
    ensures var c := NameTableChunk(pt, chr, bank, nameTable, view, shiftX, shiftY, k);
      ChunkColour(c, (shiftX + px, shiftY + py)) ==
        if InRect(view, px, py) then Some(BackgroundColour(pt, chr, bank, nameTable, px, py)) else None
  {
    var c := NameTableChunk(pt, chr, bank, nameTable, view, shiftX, shiftY, k);
    var q := (shiftX + px, shiftY + py);
    assert k == py / 8 * 32 + px / 8;
    NameTableCell(pt, chr, bank, nameTable, view, shiftX, shiftY, k, q);
    assert CellOf(c, q) == Some((py % 8, px % 8));
    assert KeyAt(c, py % 8, px % 8) == q;
  }

  /// Tile `i` of the table, looked up in the list of all of them.
  lemma NameTableChunkAt(
    pt: seq<byte>, chr: seq<byte>, bank: nat, nameTable: seq<byte>,
    view: Rect, shiftX: int, shiftY: int, i: nat)
    requires |pt| == 32 && |nameTable| == 0x400 && TilesFit(chr, bank, nameTable) && i < 0x3C0
    ensures NameTableChunks(pt, chr, bank, nameTable, view, shiftX, shiftY)[i] ==
      NameTableChunk(pt, chr, bank, nameTable, view, shiftX, shiftY, i)
  {
  }

  /// Only tile `k`, if any, covers `p`.
  lemma NameTableCover(
    pt: seq<byte>, chr: seq<byte>, bank: nat, nameTable: seq<byte>,
    view: Rect, shiftX: int, shiftY: int, p: (int, int), k: int)
    requires |pt| == 32 && |nameTable| == 0x400 && TilesFit(chr, bank, nameTable)
    requires var px := p.0 - shiftX;
      var py := p.1 - shiftY;
      if 0 <= px < 256 && 0 <= py < 240 then 0 <= k < 0x3C0 && k % 32 == px / 8 && k / 32 == py / 8 else k == -1
    ensures var cs := NameTableChunks(pt, chr, bank, nameTable, view, shiftX, shiftY);
      Top(cs, p) == if k >= 0 then ChunkColour(cs[k], p) else None
  {
    var cs := NameTableChunks(pt, chr, bank, nameTable, view, shiftX, shiftY);
    var px := p.0 - shiftX;
    var py := p.1 - shiftY;
    forall j | 0 <= j < |cs| && j != k
      ensures CellOf(cs[j], p).None?
    {
      NameTableChunkAt(pt, chr, bank, nameTable, view, shiftX, shiftY, j);
      NameTableCell(pt, chr, bank, nameTable, view, shiftX, shiftY, j, p);
      TileSquare(j, px, py);
      TileIndex(j, k);
    }
    TopOfOne(cs, p, k);
  }

  /// What a nametable drawn with `view` and the shift leaves at table
  /// pixel (`px`, `py`): its background colour when it is one of the
  /// table's 256x240 pixels inside the view, nothing otherwise.
  function NameTablePixel(
    pt: seq<byte>, chr: seq<byte>, bank: nat, nameTable: seq<byte>, view: Rect, px: int, py: int): Option<byte>
    requires |pt| == 32 && |nameTable| == 0x400 && TilesFit(chr, bank, nameTable)
  {
    if 0 <= px < 256 && 0 <= py < 240 && InRect(view, px, py) then
      Some(BackgroundColour(pt, chr, bank, nameTable, px, py))
    else None
  }

  /// A frame pixel over a table pixel shows the pixel's background colour
  /// when it lies in the view, and nothing of the table otherwise.
  lemma NameTableInside(
    pt: seq<byte>, chr: seq<byte>, bank: nat, nameTable: seq<byte>,
    view: Rect, shiftX: int, shiftY: int, p: (int, int))
    requires |pt| == 32 && |nameTable| == 0x400 && TilesFit(chr, bank, nameTable)
    requires 0 <= p.0 - shiftX < 256 && 0 <= p.1 - shiftY < 240
    ensures Top(NameTableChunks(pt, chr, bank, nameTable, view, shiftX, shiftY), p) ==
      NameTablePixel(pt, chr, bank, nameTable, view, p.0 - shiftX, p.1 - shiftY)
  {
    var px := p.0 - shiftX;
    var py := p.1 - shiftY;
    assert p == (shiftX + px, shiftY + py);
    var k := TileUnder(px, py);
    NameTableCover(pt, chr, bank, nameTable, view, shiftX, shiftY, p, k);
    NameTableChunkAt(pt, chr, bank, nameTable, view, shiftX, shiftY, k);
    NameTableHit(pt, chr, bank, nameTable, view, shiftX, shiftY, px, py, k);
  }

  /// `render_name_table` paints table pixel (`px`, `py`) at
  /// (`px + shiftX`, `py + shiftY`), and only when it lies in the view;
  /// the frame pixel gets the background colour of the table pixel, and
  /// no other write of the table reaches it.
  lemma NameTableShows(
    pt: seq<byte>, chr: seq<byte>, bank: nat, nameTable: seq<byte>,
    view: Rect, shiftX: int, shiftY: int, p: (int, int), cs: seq<Chunk>, px: Option<byte>)
    requires |pt| == 32 && |nameTable| == 0x400 && TilesFit(chr, bank, nameTable)
    requires cs == NameTableChunks(pt, chr, bank, nameTable, view, shiftX, shiftY)
    requires px == NameTablePixel(pt, chr, bank, nameTable, view, p.0 - shiftX, p.1 - shiftY)
    ensures Top(cs, p) == px
  {
    if 0 <= p.0 - shiftX < 256 && 0 <= p.1 - shiftY < 240 {
      NameTableInside(pt, chr, bank, nameTable, view, shiftX, shiftY, p);
    } else {
      NameTableCover(pt, chr, bank, nameTable, view, shiftX, shiftY, p, -1);
    }
  }

  /// `render_name_table`: the 960 tiles of the table in order.
  method RenderNameTable(
    pt: seq<byte>, chr: seq<byte>, bank: nat, canvas: Canvas, nameTable: seq<byte>,
    view: Rect, shiftX: int, shiftY: int) returns (r: Canvas)
    requires |pt| == 32 && |nameTable| == 0x400 && TilesFit(chr, bank, nameTable)
    ensures r == Apply(canvas, Strokes(NameTableChunks(pt, chr, bank, nameTable, view, shiftX, shiftY)))
  {
    ghost var cs := NameTableChunks(pt, chr, bank, nameTable, view, shiftX, shiftY);
    r := canvas;
    var i := 0;
    while i < 0x3C0
      invariant 0 <= i <= 0x3C0
      invariant r == Apply(canvas, Strokes(cs[..i]))
    {
      r := RenderNameTableTile(r, pt, chr, bank, nameTable, view, shiftX, shiftY, i, canvas);
      i := i + 1;
    }
    assert cs[..0x3C0] == cs;
  }

  /// One pass of the loop of `render_name_table`: tile `i`, looked up in
  /// the pattern bank, in the palette of its attribute quadrant.
  method RenderNameTableTile(
    r0: Canvas, pt: seq<byte>, chr: seq<byte>, bank: nat, nameTable: seq<byte>,
    view: Rect, shiftX: int, shiftY: int, i: nat, ghost canvas: Canvas) returns (r: Canvas)
    requires |pt| == 32 && |nameTable| == 0x400 && TilesFit(chr, bank, nameTable) && i < 0x3C0
    requires r0 == Apply(canvas, Strokes(NameTableChunks(pt, chr, bank, nameTable, view, shiftX, shiftY)[..i]))
    ensures r == Apply(canvas, Strokes(NameTableChunks(pt, chr, bank, nameTable, view, shiftX, shiftY)[..i + 1]))
  {
    ghost var cs := NameTableChunks(pt, chr, bank, nameTable, view, shiftX, shiftY);
    var attributeTable := nameTable[0x3C0..0x400];
    var tileColumn := i % 32;
    var tileRow := i / 32;
    var tileIdx := nameTable[i];
    var tile := chr[bank + tileIdx as int * 16..bank + tileIdx as int * 16 + 16];
    var palette := BgPalette(pt, attributeTable, tileColumn, tileRow);
    assert cs[i] == BackgroundTile(tile, palette, tileColumn, tileRow, view, shiftX, shiftY) by {
      NameTableChunkAt(pt, chr, bank, nameTable, view, shiftX, shiftY, i);
    }
    r := DrawBackgroundTile(r0, pt, tile, palette, tileColumn, tileRow, view, shiftX, shiftY, canvas, Strokes(cs[..i]));
    StrokesSnoc(cs, i);
  }

  /// The eight rows of one background tile, top to bottom.
  method DrawBackgroundTile(
    canvas: Canvas, pt: seq<byte>, tile: seq<byte>, palette: seq<byte>,
    tileColumn: nat, tileRow: nat, view: Rect, shiftX: int, shiftY: int,
    ghost start: Canvas, ghost done: seq<Option<Write>>) returns (r: Canvas)
    requires |pt| == 32 && |tile| == 16 && |palette| == 4 && palette[0] == pt[0]
    requires canvas == Apply(start, done)
    ensures r == Apply(start, done + Stroke(BackgroundTile(tile, palette, tileColumn, tileRow, view, shiftX, shiftY)))
  {
    ghost var c := BackgroundTile(tile, palette, tileColumn, tileRow, view, shiftX, shiftY);
    r := canvas;
    var y := 0;
    while y < 8
      invariant 0 <= y <= 8
      invariant r == Apply(canvas, Stroke(c)[..8 * y])
    {
      r := DrawBackgroundRow(r, canvas, pt, tile, palette, tileColumn, tileRow, y, view, shiftX, shiftY);
      y := y + 1;
    }
    assert Stroke(c)[..64] == Stroke(c);
    ApplyAppend(start, done, Stroke(c));
  }

  /// Row `y` of a background tile, from column 7 down to column 0: each
  /// pixel takes the universal background colour for pattern value 0 and
  /// the palette's colour otherwise, and only pixels inside the view are
  /// written.
  method DrawBackgroundRow(
    canvas: Canvas, ghost start: Canvas, pt: seq<byte>, tile: seq<byte>, palette: seq<byte>,
    tileColumn: nat, tileRow: nat, y: nat, view: Rect, shiftX: int, shiftY: int) returns (r: Canvas)
    requires |pt| == 32 && |tile| == 16 && |palette| == 4 && palette[0] == pt[0] && y < 8
    requires canvas == Apply(start, Stroke(BackgroundTile(tile, palette, tileColumn, tileRow, view, shiftX, shiftY))[..8 * y])
    ensures r == Apply(start, Stroke(BackgroundTile(tile, palette, tileColumn, tileRow, view, shiftX, shiftY))[..8 * y + 8])
  {
    ghost var c := BackgroundTile(tile, palette, tileColumn, tileRow, view, shiftX, shiftY);
    r := canvas;
    var upper := tile[y];
    var lower := tile[y + 8];
    var x := 8;
    ghost var n := 8 * y;
    while x > 0
      invariant 0 <= x <= 8 && n == 8 * y + (8 - x)
      invariant upper == Shr(tile[y], 8 - x) && lower == Shr(tile[y + 8], 8 - x)
      invariant r == Apply(start, Stroke(c)[..n])
    {
      x := x - 1;
      var value;
      value, upper, lower := PlaneBits(tile, y, x, upper, lower);
      var rgb := if value == 0 then pt[0] else if value == 1 then palette[1] else if value == 2 then palette[2] else palette[3];
      var pixelX := tileColumn * 8 + x;
      var pixelY := tileRow * 8 + y;
      BackgroundStep(start, pt, tile, palette, tileColumn, tileRow, view, shiftX, shiftY, y, x, n, r, value, rgb, pixelX, pixelY);
      if pixelX >= view.x1 && pixelX < view.x2 && pixelY >= view.y1 && pixelY < view.y2 {
        r := r[(shiftX + pixelX, shiftY + pixelY) := rgb];
      }
      n := n + 1;
    }
  }

  /// One pixel of `render_name_table`: step `n` of a background tile
  /// paints the pixel in the colour chosen for its value, when the pixel
  /// lies in the view, and leaves the canvas as it is otherwise.
  lemma BackgroundStep(
    start: Canvas, pt: seq<byte>, tile: seq<byte>, palette: seq<byte>, tileColumn: nat, tileRow: nat,
    view: Rect, shiftX: int, shiftY: int, y: nat, x: nat, n: nat,
    before: Canvas, value: byte, rgb: byte, pixelX: int, pixelY: int)
    requires |pt| == 32 && |tile| == 16 && |palette| == 4 && palette[0] == pt[0] && y < 8 && x < 8 && n == 8 * y + (7 - x)
    requires before == Apply(start, Stroke(BackgroundTile(tile, palette, tileColumn, tileRow, view, shiftX, shiftY))[..n])
    requires value == PatternValue(tile, x, y) && pixelX == tileColumn * 8 + x && pixelY == tileRow * 8 + y
    requires rgb == if value == 0 then pt[0] else if value == 1 then palette[1] else if value == 2 then palette[2] else palette[3]
    ensures Apply(start, Stroke(BackgroundTile(tile, palette, tileColumn, tileRow, view, shiftX, shiftY))[..n + 1]) ==
      if pixelX >= view.x1 && pixelX < view.x2 && pixelY >= view.y1 && pixelY < view.y2
      then before[(shiftX + pixelX, shiftY + pixelY) := rgb] else before
  {
    var c := BackgroundTile(tile, palette, tileColumn, tileRow, view, shiftX, shiftY);
    BackgroundWrite(pt, tile, palette, tileColumn, tileRow, view, shiftX, shiftY, y, x);
    ApplyStep(start, c, y, x, n, n + 1);
  }

  /// The write of `render_name_table` for row `y`, column `x` of a tile:
  /// the colour it picks for the pixel's value, at the table pixel moved
  /// by the shift, and nothing outside the view.
  lemma BackgroundWrite(
    pt: seq<byte>, tile: seq<byte>, palette: seq<byte>, tileColumn: nat, tileRow: nat,
    view: Rect, shiftX: int, shiftY: int, y: nat, x: nat)
    requires |pt| == 32 && |tile| == 16 && |palette| == 4 && palette[0] == pt[0] && y < 8 && x < 8
    ensures var value := PatternValue(tile, x, y);
      var pixelX := tileColumn * 8 + x;
      var pixelY := tileRow * 8 + y;
      var rgb := if value == 0 then pt[0] else if value == 1 then palette[1] else if value == 2 then palette[2] else palette[3];
      WriteAt(BackgroundTile(tile, palette, tileColumn, tileRow, view, shiftX, shiftY), y, x) ==
        if InRect(view, pixelX, pixelY) then Some(Write((shiftX + pixelX, shiftY + pixelY), rgb)) else None
  {
  }

  // ----- sprites -----------------------------------------------------------

  /// Every tile the object attribute memory names lies inside the pattern
  /// memory.
  predicate SpritesFit(chr: seq<byte>, bank: nat, oam: seq<byte>)
    requires |oam| == 256
  {
    forall j | 0 <= j < 64 :: bank + oam[4 * j + 1] as int * 16 + 16 <= |chr|
  }

  /// A sprite tile with its top-left corner at (`tileX`, `tileY`): value 0
  /// is transparent, and a flip mirrors the tile inside its square.
  function SpriteTile(tile: seq<byte>, palette: seq<byte>, tileX: int, tileY: int, flipX: bool, flipY: bool): Chunk {
    Chunk(tile, palette, (tileX, tileY), true, flipX, flipY, None)
  }

  /// Sprite `j` of the object attribute memory: byte 0 its y, byte 1 its
  /// tile, byte 2 its attributes (bit 7 vertical flip, bit 6 horizontal
  /// flip, bits 0-1 palette), byte 3 its x.
  function SpriteChunk(pt: seq<byte>, chr: seq<byte>, bank: nat, oam: seq<byte>, j: nat): (c: Chunk)
    requires |pt| == 32 && |oam| == 256 && SpritesFit(chr, bank, oam) && j < 64
    ensures ValidChunk(c)
  {
    var attr := oam[4 * j + 2];
    SpriteTile(TileAt(chr, bank, oam[4 * j + 1] as int), SpritePalette(pt, attr & 3),
               oam[4 * j + 3] as int, oam[4 * j] as int, (attr >> 6) & 1 == 1, (attr >> 7) & 1 == 1)
  }

  /// The sprites in the order `render` draws them: sprite 63 first,
  /// sprite 0 last.
  function SpriteChunks(pt: seq<byte>, chr: seq<byte>, bank: nat, oam: seq<byte>): (cs: seq<Chunk>)
    requires |pt| == 32 && |oam| == 256 && SpritesFit(chr, bank, oam)
    ensures |cs| == 64 && ValidChunks(cs)
  {
    seq(64, n requires 0 <= n < 64 => SpriteChunk(pt, chr, bank, oam, 63 - n))
  }

  /// Sprite `j` in the drawing order.
  lemma SpriteChunkAt(pt: seq<byte>, chr: seq<byte>, bank: nat, oam: seq<byte>, n: nat)
    requires |pt| == 32 && |oam| == 256 && SpritesFit(chr, bank, oam) && n < 64
    ensures SpriteChunks(pt, chr, bank, oam)[n] == SpriteChunk(pt, chr, bank, oam, 63 - n)
  {
  }

  /// The `n`-th sprite drawn is the OAM entry at `i`, read as the sprite
  /// loop of `render` reads it.
  lemma SpriteEntry(pt: seq<byte>, chr: seq<byte>, bank: nat, oam: seq<byte>, n: nat, i: nat)
    requires |pt| == 32 && |oam| == 256 && SpritesFit(chr, bank, oam) && n < 64 && i == 252 - 4 * n
    ensures bank + oam[i + 1] as int * 16 + 16 <= |chr|
    ensures SpriteChunks(pt, chr, bank, oam)[n] ==
      SpriteTile(chr[bank + oam[i + 1] as int * 16..bank + oam[i + 1] as int * 16 + 16], SpritePalette(pt, oam[i + 2] & 3),
                 oam[i + 3] as int, oam[i] as int, (oam[i + 2] >> 6) & 1 == 1, (oam[i + 2] >> 7) & 1 == 1)
  {
    SpriteChunkAt(pt, chr, bank, oam, n);
    assert i == 4 * (63 - n);
  }

  /// The colour sprite `j` leaves at `p`, if any.
  function SpriteColour(pt: seq<byte>, chr: seq<byte>, bank: nat, oam: seq<byte>, j: nat, p: (int, int)): Option<byte>
    requires |pt| == 32 && |oam| == 256 && SpritesFit(chr, bank, oam) && j < 64
  {
    ChunkColour(SpriteChunk(pt, chr, bank, oam, j), p)
  }

  /// The colour of the first sprite from `j` on that is opaque at `p`.
  function FirstSprite(pt: seq<byte>, chr: seq<byte>, bank: nat, oam: seq<byte>, p: (int, int), j: nat): Option<byte>
    requires |pt| == 32 && |oam| == 256 && SpritesFit(chr, bank, oam) && j <= 64
    decreases 64 - j
  {
    if j == 64 then None
    else
      var colour := SpriteColour(pt, chr, bank, oam, j, p);
      if colour.Some? then colour else FirstSprite(pt, chr, bank, oam, p, j + 1)
  }

  /// After sprites 63 down to `64 - n` the pixel shows the first of them
  /// that is opaque there.
  lemma {:induction false} SpritesShowPrefix(pt: seq<byte>, chr: seq<byte>, bank: nat, oam: seq<byte>, p: (int, int), n: nat)
    requires |pt| == 32 && |oam| == 256 && SpritesFit(chr, bank, oam) && n <= 64
    ensures Top(SpriteChunks(pt, chr, bank, oam)[..n], p) == FirstSprite(pt, chr, bank, oam, p, 64 - n)
  {
    if n > 0 {
      SpritesShowPrefix(pt, chr, bank, oam, p, n - 1);
      SpritesShowStep(pt, chr, bank, oam, p, n);
    }
  }

  /// Sprite `64 - n`, drawn `n`-th, is on top where it is opaque.
  lemma SpritesShowStep(pt: seq<byte>, chr: seq<byte>, bank: nat, oam: seq<byte>, p: (int, int), n: nat)
    requires |pt| == 32 && |oam| == 256 && SpritesFit(chr, bank, oam) && 0 < n <= 64
    ensures var cs := SpriteChunks(pt, chr, bank, oam);
      var colour := SpriteColour(pt, chr, bank, oam, 64 - n, p);
      Top(cs[..n], p) == if colour.Some? then colour else Top(cs[..n - 1], p)
  {
    var cs := SpriteChunks(pt, chr, bank, oam);
    assert cs[..n][..n - 1] == cs[..n - 1];
    SpriteChunkAt(pt, chr, bank, oam, n - 1);
  }

  /// Sprite priority: where several sprites are opaque, the one with the
  /// lowest index in the object attribute memory shows, since it is drawn
  /// last; transparent pixels let lower-priority sprites through.
  lemma SpritesShow(pt: seq<byte>, chr: seq<byte>, bank: nat, oam: seq<byte>, p: (int, int))
    requires |pt| == 32 && |oam| == 256 && SpritesFit(chr, bank, oam)
    ensures Top(SpriteChunks(pt, chr, bank, oam), p) == FirstSprite(pt, chr, bank, oam, p, 0)
  {
    SpritesShowPrefix(pt, chr, bank, oam, p, 64);
    assert SpriteChunks(pt, chr, bank, oam)[..64] == SpriteChunks(pt, chr, bank, oam);
  }

  /// The pixel (`dx`, `dy`) of sprite `j`'s square shows pattern column
  /// `dx` and row `dy`, mirrored by the flips: transparent for value 0,
  /// the sprite palette's colour otherwise; the sprite covers nothing
  /// outside its square.
  lemma SpritePixel(pt: seq<byte>, chr: seq<byte>, bank: nat, oam: seq<byte>, j: nat, p: (int, int))
    requires |pt| == 32 && |oam| == 256 && SpritesFit(chr, bank, oam) && j < 64
    ensures var dx := p.0 - oam[4 * j + 3] as int;
      var dy := p.1 - oam[4 * j] as int;
      var attr := oam[4 * j + 2];
      SpriteColour(pt, chr, bank, oam, j, p) ==
        if 0 <= dx < 8 && 0 <= dy < 8 then
          var tile := TileAt(chr, bank, oam[4 * j + 1] as int);
          var value := PatternValue(tile, if (attr >> 6) & 1 == 1 then 7 - dx else dx, if (attr >> 7) & 1 == 1 then 7 - dy else dy);
          if value == 0 then None else Some(SpritePalette(pt, attr & 3)[value])
        else None
  {
  }

  /// The sprite loop of `render`: OAM entries from the last to the first.
  method RenderSprites(pt: seq<byte>, chr: seq<byte>, bank: nat, oam: seq<byte>, canvas: Canvas) returns (r: Canvas)
    requires |pt| == 32 && |oam| == 256 && SpritesFit(chr, bank, oam)
    ensures r == Apply(canvas, Strokes(SpriteChunks(pt, chr, bank, oam)))
  {
    ghost var cs := SpriteChunks(pt, chr, bank, oam);
    r := canvas;
    var i := |oam|;
    ghost var n := 0;
    while i > 0
      invariant 0 <= n <= 64 && i == 256 - 4 * n
      invariant r == Apply(canvas, Strokes(cs[..n]))
    {
      i := i - 4;
      r := RenderSpriteTile(r, pt, chr, bank, oam, i, n, canvas);
      n := n + 1;
    }
    assert cs[..64] == cs;
  }

  /// One pass of the sprite loop: the entry at `i`, the `n`-th drawn.
  method RenderSpriteTile(
    r0: Canvas, pt: seq<byte>, chr: seq<byte>, bank: nat, oam: seq<byte>, i: nat, ghost n: nat, ghost canvas: Canvas)
    returns (r: Canvas)
    requires |pt| == 32 && |oam| == 256 && SpritesFit(chr, bank, oam) && n < 64 && i == 252 - 4 * n
    requires r0 == Apply(canvas, Strokes(SpriteChunks(pt, chr, bank, oam)[..n]))
    ensures r == Apply(canvas, Strokes(SpriteChunks(pt, chr, bank, oam)[..n + 1]))
  {
    ghost var cs := SpriteChunks(pt, chr, bank, oam);
    var tileIdx := oam[i + 1];
    var tileX := oam[i + 3] as int;
    var tileY := oam[i] as int;
    var flipVertical := (oam[i + 2] >> 7) & 1 == 1;
    var flipHorizontal := (oam[i + 2] >> 6) & 1 == 1;
    var paletteIdx := oam[i + 2] & 3;
    var palette := SpritePalette(pt, paletteIdx);
    SpriteEntry(pt, chr, bank, oam, n, i);
    var tile := chr[bank + tileIdx as int * 16..bank + tileIdx as int * 16 + 16];
    r := DrawSpriteTile(r0, tile, palette, tileX, tileY, flipHorizontal, flipVertical, canvas, Strokes(cs[..n]));
    StrokesSnoc(cs, n);
  }

  /// The eight rows of one sprite tile, top to bottom.
  method DrawSpriteTile(
    canvas: Canvas, tile: seq<byte>, palette: seq<byte>, tileX: int, tileY: int, flipX: bool, flipY: bool,
    ghost start: Canvas, ghost done: seq<Option<Write>>) returns (r: Canvas)
    requires |tile| == 16 && |palette| == 4
    requires canvas == Apply(start, done)
    ensures r == Apply(start, done + Stroke(SpriteTile(tile, palette, tileX, tileY, flipX, flipY)))
  {
    ghost var c := SpriteTile(tile, palette, tileX, tileY, flipX, flipY);
    r := canvas;
    var y := 0;
    while y < 8
      invariant 0 <= y <= 8
      invariant r == Apply(canvas, Stroke(c)[..8 * y])
    {
      r := DrawSpriteRow(r, canvas, tile, palette, tileX, tileY, flipX, flipY, y);
      y := y + 1;
    }
    assert Stroke(c)[..64] == Stroke(c);
    ApplyAppend(start, done, Stroke(c));
  }

  /// Row `y` of a sprite tile, from column 7 down to column 0.
  method DrawSpriteRow(
    canvas: Canvas, ghost start: Canvas, tile: seq<byte>, palette: seq<byte>,
    tileX: int, tileY: int, flipX: bool, flipY: bool, y: nat) returns (r: Canvas)
    requires |tile| == 16 && |palette| == 4 && y < 8
    requires canvas == Apply(start, Stroke(SpriteTile(tile, palette, tileX, tileY, flipX, flipY))[..8 * y])
    ensures r == Apply(start, Stroke(SpriteTile(tile, palette, tileX, tileY, flipX, flipY))[..8 * y + 8])
  {
    r := canvas;
    var upper := tile[y];
    var lower := tile[y + 8];
    var x := 8;
    while x > 0
      invariant 0 <= x <= 8
      invariant upper == Shr(tile[y], 8 - x) && lower == Shr(tile[y + 8], 8 - x)
      invariant r == Apply(start, Stroke(SpriteTile(tile, palette, tileX, tileY, flipX, flipY))[..8 * y + (8 - x)])
    {
      x := x - 1;
      var value;
      value, upper, lower := PlaneBits(tile, y, x, upper, lower);
      r := DrawSpritePixel(r, start, tile, palette, tileX, tileY, flipX, flipY, y, x, value);
    }
  }

  /// The two plane bits of the pixel at column `x` of row `y` taken from
  /// the low bits of the shifted plane bytes, which then shift right once
  /// more.
  method PlaneBits(tile: seq<byte>, y: nat, x: nat, upper0: byte, lower0: byte)
    returns (value: byte, upper: byte, lower: byte)
    requires |tile| == 16 && y < 8 && x < 8
    requires upper0 == Shr(tile[y], 7 - x) && lower0 == Shr(tile[y + 8], 7 - x)
    ensures value == PatternValue(tile, x, y)
    ensures upper == Shr(tile[y], 8 - x) && lower == Shr(tile[y + 8], 8 - x)
  {
    value := ((1 & lower0) << 1) | (1 & upper0);
    upper := upper0 >> 1;
    lower := lower0 >> 1;
    ShrNext(tile[y], 7 - x, 8 - x);
    ShrNext(tile[y + 8], 7 - x, 8 - x);
  }

  /// One pass of the column loop of a sprite row, after the pixel's value
  /// is known: value 0 is skipped, and the flips choose which frame pixel
  /// the colour lands on.
  method DrawSpritePixel(
    canvas: Canvas, ghost start: Canvas, tile: seq<byte>, palette: seq<byte>,
    tileX: int, tileY: int, flipX: bool, flipY: bool, y: nat, x: nat, value: byte)
    returns (r: Canvas)
    requires |tile| == 16 && |palette| == 4 && y < 8 && x < 8 && value == PatternValue(tile, x, y)
    requires canvas == Apply(start, Stroke(SpriteTile(tile, palette, tileX, tileY, flipX, flipY))[..Step(y, x)])
    ensures r == Apply(start, Stroke(SpriteTile(tile, palette, tileX, tileY, flipX, flipY))[..Step(y, x) + 1])
  {
    r := canvas;
    SpriteStep(start, tile, palette, tileX, tileY, flipX, flipY, y, x, Step(y, x));
    if value != 0 {
      var rgb := if value == 1 then palette[1] else if value == 2 then palette[2] else palette[3];
      if !flipX && !flipY {
        r := r[(tileX + x, tileY + y) := rgb];
      } else if flipX && !flipY {
        r := r[(tileX + 7 - x, tileY + y) := rgb];
      } else if !flipX && flipY {
        r := r[(tileX + x, tileY + 7 - y) := rgb];
      } else {
        r := r[(tileX + 7 - x, tileY + 7 - y) := rgb];
      }
    }
  }

  /// One pixel of the sprite loop: step `n` of a sprite tile skips value
  /// 0 and otherwise paints the palette's colour at the flipped position.
  lemma SpriteStep(
    start: Canvas, tile: seq<byte>, palette: seq<byte>, tileX: int, tileY: int, flipX: bool, flipY: bool,
    y: nat, x: nat, n: nat)
    requires |tile| == 16 && |palette| == 4 && y < 8 && x < 8 && n == Step(y, x)
    ensures var c := SpriteTile(tile, palette, tileX, tileY, flipX, flipY);
      var value := PatternValue(tile, x, y);
      var rgb := if value == 1 then palette[1] else if value == 2 then palette[2] else palette[3];
      var before := Apply(start, Stroke(c)[..n]);
      Apply(start, Stroke(c)[..n + 1]) ==
        if value == 0 then before
        else if !flipX && !flipY then before[(tileX + x, tileY + y) := rgb]
        else if flipX && !flipY then before[(tileX + 7 - x, tileY + y) := rgb]
        else if !flipX && flipY then before[(tileX + x, tileY + 7 - y) := rgb]
        else before[(tileX + 7 - x, tileY + 7 - y) := rgb]
  {
    var c := SpriteTile(tile, palette, tileX, tileY, flipX, flipY);
    SpriteWrite(tile, palette, tileX, tileY, flipX, flipY, y, x);
    ApplyStep(start, c, y, x, n, n + 1);
  }

  /// The write of the sprite loop for row `y`, column `x` of a tile.
  lemma SpriteWrite(tile: seq<byte>, palette: seq<byte>, tileX: int, tileY: int, flipX: bool, flipY: bool, y: nat, x: nat)
    requires |tile| == 16 && |palette| == 4 && y < 8 && x < 8
    ensures var value := PatternValue(tile, x, y);
      var key := (if flipX then tileX + 7 - x else tileX + x, if flipY then tileY + 7 - y else tileY + y);
      var rgb := if value == 1 then palette[1] else if value == 2 then palette[2] else palette[3];
      WriteAt(SpriteTile(tile, palette, tileX, tileY, flipX, flipY), y, x) ==
        if value == 0 then None else Some(Write(key, rgb))
  {
  }

  // ----- the frame ---------------------------------------------------------

  /// The VRAM offsets of the main and the second nametable `render` draws,
  /// chosen by the mirroring and the base nametable address; every other
  /// combination, that is four-screen mirroring, panics (`None`).
  function NameTableHalves(mirroring: Mirroring, base: u16): Option<(nat, nat)> {
    if (mirroring == Vertical && (base == 0x2000 || base == 0x2800)) ||
       (mirroring == Horizontal && (base == 0x2000 || base == 0x2400)) then Some((0, 0x400))
    else if (mirroring == Vertical && (base == 0x2400 || base == 0x2C00)) ||
            (mirroring == Horizontal && (base == 0x2800 || base == 0x2C00)) then Some((0x400, 0))
    else None
  }

  /// The main nametable is the half of VRAM the PPU's own mirroring maps
  /// the base nametable to, and the second is the other half; only
  /// four-screen mirroring has no halves.
  lemma HalvesFollowMirroring(mirroring: Mirroring, ctrl: byte)
    ensures var base := NametableAddr(ctrl);
      var h := NameTableHalves(mirroring, base);
      (h.Some? <==> mirroring != FourScreen) &&
      (h.Some? ==> Fold(base) >= 0x2000 && h.value.0 == MirrorVramAddr(mirroring, base) && h.value.1 == 0x400 - h.value.0)
  {
    MirrorLayout(mirroring, NametableAddr(ctrl));
  }

  /// What `render` needs so as not to panic: the PPU's memories at their
  /// sizes, a mirroring with two halves, every tile named inside the
  /// pattern memory, and, scrolled down only, a scroll of at most 240 rows
  /// (the second layer's offset `240 - scroll_y` is unsigned).
  predicate ValidScreen(s: Screen) {
    |s.paletteTable| == 32 && |s.vram| == 0x800 && |s.oamData| == 256 &&
    NameTableHalves(s.mirroring, s.nametableBase).Some? &&
    (s.scrollX > 0 || s.scrollY <= 240) &&
    TilesFit(s.chrRom, s.backgroundBank, s.vram[..0x400]) &&
    TilesFit(s.chrRom, s.backgroundBank, s.vram[0x400..]) &&
    SpritesFit(s.chrRom, s.spriteBank, s.oamData)
  }

  /// The main nametable.
  function MainTable(s: Screen): (t: seq<byte>)
    requires ValidScreen(s)
    ensures |t| == 0x400 && TilesFit(s.chrRom, s.backgroundBank, t)
  {
    var start := NameTableHalves(s.mirroring, s.nametableBase).value.0;
    s.vram[start..start + 0x400]
  }

  /// The second nametable.
  function SecondTable(s: Screen): (t: seq<byte>)
    requires ValidScreen(s)
    ensures |t| == 0x400 && TilesFit(s.chrRom, s.backgroundBank, t)
  {
    var start := NameTableHalves(s.mirroring, s.nametableBase).value.1;
    s.vram[start..start + 0x400]
  }

  /// One `render_name_table` call of `render`: the nametable, the part of
  /// it drawn, and how far that part moves on the frame.
  datatype Layer = Layer(table: seq<byte>, view: Rect, shiftX: int, shiftY: int)

  /// A layer `render` can draw: a whole nametable whose tiles lie in the
  /// background pattern table.
  predicate ValidLayer(s: Screen, l: Layer) {
    |s.paletteTable| == 32 && |l.table| == 0x400 && TilesFit(s.chrRom, s.backgroundBank, l.table)
  }

  /// The main nametable's layer: the part right of and below the scroll
  /// point, moved to the top-left corner of the frame.
  function MainLayer(s: Screen): (l: Layer)
    requires ValidScreen(s)
    ensures ValidLayer(s, l)
  {
    var sx: int := s.scrollX;
    var sy: int := s.scrollY;
    Layer(MainTable(s), Rect(sx, sy, 256, 240), -sx, -sy)
  }

  /// The second nametable's layer: scrolled sideways, its first `scrollX`
  /// columns to the right of the main table; otherwise, scrolled down, its
  /// first `scrollY` rows below it; unscrolled, none.
  function SecondLayer(s: Screen): (l: Option<Layer>)
    requires ValidScreen(s)
    ensures l.Some? ==> ValidLayer(s, l.value) && l.value.shiftX >= 0 && l.value.shiftY >= 0
  {
    var sx: int := s.scrollX;
    var sy: int := s.scrollY;
    if sx > 0 then Some(Layer(SecondTable(s), Rect(0, 0, sx, 240), 256 - sx, 0))
    else if sy > 0 then Some(Layer(SecondTable(s), Rect(0, 0, 256, sy), 0, 240 - sy))
    else None
  }

  /// The tiles of a layer.
  function LayerChunks(s: Screen, l: Layer): (cs: seq<Chunk>)
    requires ValidLayer(s, l)
    ensures ValidChunks(cs)
  {
    NameTableChunks(s.paletteTable, s.chrRom, s.backgroundBank, l.table, l.view, l.shiftX, l.shiftY)
  }

  /// The tiles of the second layer, if there is one.
  function SecondChunks(s: Screen): (cs: seq<Chunk>)
    requires ValidScreen(s)
    ensures ValidChunks(cs)
  {
    var second := SecondLayer(s);
    if second.Some? then LayerChunks(s, second.value) else []
  }

  /// The canvas after `render`: the main nametable, the second, then the
  /// sprites.
  function FrameCanvas(s: Screen, canvas: Canvas): Canvas
    requires ValidScreen(s)
  {
    var background := Apply(Apply(canvas, Strokes(LayerChunks(s, MainLayer(s)))), Strokes(SecondChunks(s)));
    Apply(background, Strokes(SpriteChunks(s.paletteTable, s.chrRom, s.spriteBank, s.oamData)))
  }

  /// `render`: the main nametable, then the second one when the screen
  /// is scrolled, then the sprites.
  method Render(s: Screen, canvas: Canvas) returns (r: Canvas)
    requires ValidScreen(s)
    ensures r == FrameCanvas(s, canvas)
  {
    r := RenderLayer(s, MainLayer(s), canvas);
    ghost var background := r;
    var second := SecondLayer(s);
    if second.Some? {
      r := RenderLayer(s, second.value, r);
    } else {
      assert Strokes([]) == [];
    }
    assert r == Apply(background, Strokes(SecondChunks(s)));
    r := RenderSprites(s.paletteTable, s.chrRom, s.spriteBank, s.oamData, r);
  }

  /// One `render_name_table` call of `render`.
  method RenderLayer(s: Screen, l: Layer, canvas: Canvas) returns (r: Canvas)
    requires ValidLayer(s, l)
    ensures r == Apply(canvas, Strokes(LayerChunks(s, l)))
  {
    r := RenderNameTable(s.paletteTable, s.chrRom, s.backgroundBank, canvas, l.table, l.view, l.shiftX, l.shiftY);
  }

  /// `a` drawn over `b`.
  function Over(a: Option<byte>, b: Option<byte>): Option<byte> {
    if a.Some? then a else b
  }

  /// The pixel a layer leaves at frame pixel `p`: the table pixel the
  /// shift moves there, when the layer draws it.
  function LayerPixel(s: Screen, l: Layer, p: (int, int)): Option<byte>
    requires ValidLayer(s, l)
  {
    NameTablePixel(s.paletteTable, s.chrRom, s.backgroundBank, l.table, l.view, p.0 - l.shiftX, p.1 - l.shiftY)
  }

  /// The background `render` leaves at frame pixel `p`: the second
  /// nametable's pixel where it draws, the main one's otherwise.
  function BackgroundAt(s: Screen, p: (int, int)): Option<byte>
    requires ValidScreen(s)
  {
    var second := SecondLayer(s);
    Over(if second.Some? then LayerPixel(s, second.value, p) else None, LayerPixel(s, MainLayer(s), p))
  }

  /// What frame pixel `p` shows after `render`: the first sprite opaque
  /// there, else the background, else what the canvas held.
  function FramePixel(s: Screen, canvas: Canvas, p: (int, int)): Option<byte>
    requires ValidScreen(s)
  {
    Over(FirstSprite(s.paletteTable, s.chrRom, s.spriteBank, s.oamData, p, 0),
         Over(BackgroundAt(s, p), Shown(canvas, p)))
  }

  /// A layer's tiles leave its pixels.
  lemma LayerTop(s: Screen, l: Layer, p: (int, int))
    requires ValidLayer(s, l)
    ensures Top(LayerChunks(s, l), p) == LayerPixel(s, l, p)
  {
    NameTableShows(s.paletteTable, s.chrRom, s.backgroundBank, l.table, l.view, l.shiftX, l.shiftY, p,
                   LayerChunks(s, l), LayerPixel(s, l, p));
  }

  /// After both nametables a pixel shows the background, or the canvas
  /// where neither draws.
  lemma BackgroundShows(s: Screen, canvas: Canvas, p: (int, int))
    requires ValidScreen(s)
    ensures Shown(Apply(Apply(canvas, Strokes(LayerChunks(s, MainLayer(s)))), Strokes(SecondChunks(s))), p) ==
      Over(BackgroundAt(s, p), Shown(canvas, p))
  {
    var main := MainLayer(s);
    ApplyStrokes(canvas, LayerChunks(s, main), p);
    LayerTop(s, main, p);
    ApplyStrokes(Apply(canvas, Strokes(LayerChunks(s, main))), SecondChunks(s), p);
    if SecondLayer(s).Some? {
      LayerTop(s, SecondLayer(s).value, p);
    }
  }

  /// Sprites in front of the second nametable, in front of the main one.
  lemma RenderShows(s: Screen, canvas: Canvas, p: (int, int))
    requires ValidScreen(s)
    ensures Shown(FrameCanvas(s, canvas), p) == FramePixel(s, canvas, p)
  {
    var background := Apply(Apply(canvas, Strokes(LayerChunks(s, MainLayer(s)))), Strokes(SecondChunks(s)));
    var bank := s.spriteBank;
    BackgroundShows(s, canvas, p);
    ApplyStrokes(background, SpriteChunks(s.paletteTable, s.chrRom, bank, s.oamData), p);
    SpritesShow(s.paletteTable, s.chrRom, bank, s.oamData, p);
  }

  /// The table pixel a layer shows at frame pixel `p`: the one the shift
  /// moves there, when it is one of the table's 256x240 and inside the
  /// view.
  function LayerSource(l: Layer, p: (int, int)): (src: Option<(int, int)>)
    ensures src.Some? ==> 0 <= src.value.0 < 256 && 0 <= src.value.1 < 240
  {
    var px := p.0 - l.shiftX;
    var py := p.1 - l.shiftY;
    if 0 <= px < 256 && 0 <= py < 240 && InRect(l.view, px, py) then Some((px, py)) else None
  }

  /// A table pixel of the screen: of the second nametable when `second`.
  datatype Source = Source(second: bool, x: int, y: int)

  /// The table pixel the background at frame pixel `p` comes from: the
  /// second nametable's where its layer draws, the main one's otherwise.
  function BackgroundSource(s: Screen, p: (int, int)): (src: Option<Source>)
    requires ValidScreen(s)
    ensures src.Some? ==> 0 <= src.value.x < 256 && 0 <= src.value.y < 240
  {
    var second := SecondLayer(s);
    var fromSecond := if second.Some? then LayerSource(second.value, p) else None;
    var fromMain := LayerSource(MainLayer(s), p);
    if fromSecond.Some? then Some(Source(true, fromSecond.value.0, fromSecond.value.1))
    else if fromMain.Some? then Some(Source(false, fromMain.value.0, fromMain.value.1))
    else None
  }

  /// The background colour of a table pixel.
  function SourceColour(s: Screen, src: Source): byte
    requires ValidScreen(s) && 0 <= src.x < 256 && 0 <= src.y < 240
  {
    BackgroundColour(s.paletteTable, s.chrRom, s.backgroundBank, if src.second then SecondTable(s) else MainTable(s), src.x, src.y)
  }

  /// A layer's pixel is the colour of the table pixel it shows.
  lemma LayerFromSource(s: Screen, l: Layer, p: (int, int))
    requires ValidLayer(s, l)
    ensures var src := LayerSource(l, p);
      LayerPixel(s, l, p) ==
        if src.Some? then Some(BackgroundColour(s.paletteTable, s.chrRom, s.backgroundBank, l.table, src.value.0, src.value.1))
        else None
  {
    var px, py := p.0 - l.shiftX, p.1 - l.shiftY;
    assert LayerPixel(s, l, p) == NameTablePixel(s.paletteTable, s.chrRom, s.backgroundBank, l.table, l.view, px, py);
    if 0 <= px < 256 && 0 <= py < 240 && InRect(l.view, px, py) {
      assert LayerSource(l, p) == Some((px, py));
    } else {
      assert LayerSource(l, p) == None;
    }
  }

  /// The main layer's pixel is the colour of its table pixel.
  lemma MainFromSource(s: Screen, p: (int, int))
    requires ValidScreen(s)
    ensures var src := LayerSource(MainLayer(s), p);
      LayerPixel(s, MainLayer(s), p) == if src.Some? then Some(SourceColour(s, Source(false, src.value.0, src.value.1))) else None
  {
    LayerFromSource(s, MainLayer(s), p);
  }

  /// The second layer's pixel is the colour of its table pixel.
  lemma SecondFromSource(s: Screen, p: (int, int))
    requires ValidScreen(s) && SecondLayer(s).Some?
    ensures var src := LayerSource(SecondLayer(s).value, p);
      LayerPixel(s, SecondLayer(s).value, p) == if src.Some? then Some(SourceColour(s, Source(true, src.value.0, src.value.1))) else None
  {
    LayerFromSource(s, SecondLayer(s).value, p);
  }

  /// The background at `p` is the colour of the table pixel it comes
  /// from, and there is none where no layer draws.
  lemma BackgroundFromSource(s: Screen, p: (int, int))
    requires ValidScreen(s)
    ensures var src := BackgroundSource(s, p);
      BackgroundAt(s, p) == if src.Some? then Some(SourceColour(s, src.value)) else None
  {
    MainFromSource(s, p);
    if SecondLayer(s).Some? {
      SecondFromSource(s, p);
    }
  }

  /// Scrolled sideways only: the frame shows the main nametable from
  /// column `scrollX` on and the second nametable's first columns after
  /// it, so every pixel of the 256x240 frame has a source.
  lemma HorizontalScroll(s: Screen, p: (int, int))
    requires ValidScreen(s) && s.scrollY == 0 && 0 <= p.0 < 256 && 0 <= p.1 < 240
    ensures BackgroundSource(s, p) ==
      if p.0 + s.scrollX < 256 then Some(Source(false, p.0 + s.scrollX, p.1))
      else Some(Source(true, p.0 + s.scrollX - 256, p.1))
  {
  }

  /// Scrolled down only: the main nametable from row `scrollY` on, then
  /// the second nametable's first rows below it.
  lemma VerticalScroll(s: Screen, p: (int, int))
    requires ValidScreen(s) && s.scrollX == 0 && s.scrollY < 240 && 0 <= p.0 < 256 && 0 <= p.1 < 240
    ensures BackgroundSource(s, p) ==
      if p.1 + s.scrollY < 240 then Some(Source(false, p.0, p.1 + s.scrollY))
      else Some(Source(true, p.0, p.1 + s.scrollY - 240))
  {
  }

  /// Scrolled both ways, only the second nametable's columns are drawn
  /// beside the main one: the bottom-left block of `256 - scrollX` by
  /// `scrollY` pixels gets no background.
  lemma DiagonalGap(s: Screen, p: (int, int))
    requires ValidScreen(s) && s.scrollX > 0 && s.scrollY > 0
    requires 0 <= p.0 < 256 - s.scrollX && 240 - s.scrollY <= p.1 < 240
    ensures BackgroundSource(s, p) == None && BackgroundAt(s, p) == None
  {
    BackgroundFromSource(s, p);
  }
}

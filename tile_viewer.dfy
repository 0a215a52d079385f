/// The pattern-table viewer (src/tile_viewer.rs): one tile of a cartridge's
/// CHR-ROM, or the first 255 tiles of one of its two 4 KiB banks in a grid
/// of 20 per row, drawn on a fresh frame in four fixed colours.  Colours
/// are kept as indices into the system palette, as in the renderer.
///
/// The viewer reads the two bit planes of a tile the other way round from
/// the renderer: the first plane (`tile[y]`) gives the high bit of a
/// pixel's value.  Its pictures are therefore those of the plane-swapped
/// tile, which is how they are stated here.
module TileViewer {
  import opened Tools
  import opened Tiles

  /// The palette indices the viewer paints values 0, 1, 2 and 3 in.
  const ViewerColours: seq<byte> := [0x01, 0x23, 0x27, 0x30]

  /// A tile with its two bit planes exchanged.
  function SwapPlanes(tile: seq<byte>): (s: seq<byte>)
    requires |tile| == 16
    ensures |s| == 16
    ensures forall y | 0 <= y < 8 :: s[y] == tile[y + 8] && s[y + 8] == tile[y]
  {
    tile[8..] + tile[..8]
  }

  /// Swapping the planes twice gives the tile back.
  lemma SwapPlanesTwice(tile: seq<byte>)
    requires |tile| == 16
    ensures SwapPlanes(SwapPlanes(tile)) == tile
  {
    var s := SwapPlanes(SwapPlanes(tile));
    forall i | 0 <= i < 16
      ensures s[i] == tile[i]
    {
      if i >= 8 {
        assert s[(i - 8) + 8] == tile[i - 8 + 8];
      }
    }
  }

  /// The value the viewer computes for column `x`, row `y`, as
  /// `(1 & upper) << 1 | (1 & lower)` gives it after `7 - x` shifts.
  function ViewerValue(tile: seq<byte>, x: nat, y: nat): (v: byte)
    requires |tile| == 16 && x < 8 && y < 8
    ensures v < 4
  {
    ((1 & Shr(tile[y], 7 - x)) << 1) | (1 & Shr(tile[y + 8], 7 - x))
  }

  /// The viewer's value is the renderer's value of the plane-swapped tile.
  lemma ViewerSwapsPlanes(tile: seq<byte>, x: nat, y: nat)
    requires |tile| == 16 && x < 8 && y < 8
    ensures ViewerValue(tile, x, y) == PatternValue(SwapPlanes(tile), x, y)
  {
    var s := SwapPlanes(tile);
    assert s[y] == tile[y + 8] && s[y + 8] == tile[y];
  }

  /// Column `x` is bit `7 - x` of both planes; the first plane gives the
  /// high bit.
  lemma ViewerValueBits(tile: seq<byte>, x: nat, y: nat)
    requires |tile| == 16 && x < 8 && y < 8
    ensures ViewerValue(tile, x, y) as int == 2 * NthBit(tile[y], 7 - x) as int + NthBit(tile[y + 8], 7 - x) as int
  {
    ViewerSwapsPlanes(tile, x, y);
    PatternBits(SwapPlanes(tile), x, y);
  }

  /// The viewer and the renderer agree on a pixel exactly when its two
  /// plane bits are equal; otherwise one sees 1 where the other sees 2.
  lemma ViewerAgainstRenderer(tile: seq<byte>, x: nat, y: nat)
    requires |tile| == 16 && x < 8 && y < 8
    ensures ViewerValue(tile, x, y) == PatternValue(tile, x, y) <==> NthBit(tile[y], 7 - x) == NthBit(tile[y + 8], 7 - x)
    ensures ViewerValue(tile, x, y) != PatternValue(tile, x, y) ==>
      ViewerValue(tile, x, y) as int + PatternValue(tile, x, y) as int == 3 && ViewerValue(tile, x, y) != 0 && PatternValue(tile, x, y) != 0
  {
    ViewerValueBits(tile, x, y);
    PatternBits(tile, x, y);
  }

  /// A tile whose only set bit is the top bit of the first plane: its
  /// top-left pixel is 2 to the viewer and 1 to the renderer.
  lemma ViewerFirstPlaneExample()
    ensures var tile := [0x80 as byte] + seq(15, _ => 0 as byte);
      ViewerValue(tile, 0, 0) == 2 && PatternValue(tile, 0, 0) == 1
  {
    var tile := [0x80 as byte] + seq(15, _ => 0 as byte);
    assert tile[0] == 0x80 && tile[8] == 0;
    ViewerValueBits(tile, 0, 0);
    PatternBits(tile, 0, 0);
    assert NthBit(0x80, 7) == 1 && NthBit(0, 7) == 0;
  }

  /// A tile as the viewer draws it with its top-left pixel at `origin`:
  /// every pixel of the 8x8 square is painted, value 0 included.
  function ViewerTile(tile: seq<byte>, origin: (int, int)): (c: Chunk)
    requires |tile| == 16
    ensures ValidChunk(c)
  {
    Chunk(SwapPlanes(tile), ViewerColours, origin, false, false, false, None)
  }

  /// The colour the viewer gives column `x`, row `y` of a tile.
  function ViewerColour(tile: seq<byte>, x: nat, y: nat): byte
    requires |tile| == 16 && x < 8 && y < 8
  {
    ViewerColours[ViewerValue(tile, x, y)]
  }

  /// A viewer tile paints each pixel of its square in the colour of the
  /// viewer's value there, and nothing outside the square.
  lemma ViewerTileShows(tile: seq<byte>, origin: (int, int), p: (int, int))
    requires |tile| == 16
    ensures var dx := p.0 - origin.0;
      var dy := p.1 - origin.1;
      ChunkColour(ViewerTile(tile, origin), p) ==
        if 0 <= dx < 8 && 0 <= dy < 8 then Some(ViewerColour(tile, dx, dy)) else None
  {
    var dx := p.0 - origin.0;
    var dy := p.1 - origin.1;
    if 0 <= dx < 8 && 0 <= dy < 8 {
      ViewerSwapsPlanes(tile, dx, dy);
    }
  }

  // ----- one tile ----------------------------------------------------------

  /// The frame `show_tile` returns: the tile drawn at the top-left corner
  /// of a fresh frame.
  function TileFrame(chr: seq<byte>, bank: nat, tileN: nat): Canvas
    requires bank <= 1 && bank * 0x1000 + tileN * 16 + 16 <= |chr|
  {
    Apply(map[], Stroke(ViewerTile(TileAt(chr, bank * 0x1000, tileN), (0, 0))))
  }

  /// `show_tile` fills exactly the 8x8 square at the corner, pixel (`x`,
  /// `y`) in the viewer's colour for that pixel of tile `tileN` of the
  /// bank.
  lemma TileFrameShows(chr: seq<byte>, bank: nat, tileN: nat, p: (int, int))
    requires bank <= 1 && bank * 0x1000 + tileN * 16 + 16 <= |chr|
    ensures Shown(TileFrame(chr, bank, tileN), p) ==
      if 0 <= p.0 < 8 && 0 <= p.1 < 8 then Some(ViewerColour(TileAt(chr, bank * 0x1000, tileN), p.0, p.1)) else None
  {
    var c := ViewerTile(TileAt(chr, bank * 0x1000, tileN), (0, 0));
    ApplyShowsLast(map[], Stroke(c), p);
    StrokeShows(c, p);
    ViewerTileShows(TileAt(chr, bank * 0x1000, tileN), (0, 0), p);
  }

  /// `show_tile`: the bank must be 0 or 1, and the tile's 16 bytes must lie
  /// in the CHR-ROM.
  method ShowTile(chr: seq<byte>, bank: nat, tileN: nat) returns (frame: Canvas)
    requires bank <= 1 && bank * 0x1000 + tileN * 16 + 16 <= |chr|
    ensures frame == TileFrame(chr, bank, tileN)
  {
    frame := map[];
    var bankAddr := bank * 0x1000;
    var tile := chr[bankAddr + tileN * 16..bankAddr + tileN * 16 + 16];
    frame := DrawViewerTile(frame, tile, 0, 0, map[], []);
    assert [] + Stroke(ViewerTile(tile, (0, 0))) == Stroke(ViewerTile(tile, (0, 0)));
  }

  /// The eight rows of a tile, top to bottom.
  method DrawViewerTile(
    canvas: Canvas, tile: seq<byte>, tileX: int, tileY: int,
    ghost start: Canvas, ghost done: seq<Option<Write>>) returns (r: Canvas)
    requires |tile| == 16 && canvas == Apply(start, done)
    ensures r == Apply(start, done + Stroke(ViewerTile(tile, (tileX, tileY))))
  {
    ghost var c := ViewerTile(tile, (tileX, tileY));
    r := canvas;
    var y := 0;
    while y < 8
      invariant 0 <= y <= 8
      invariant r == Apply(canvas, Stroke(c)[..8 * y])
    {
      r := DrawViewerRow(r, canvas, tile, tileX, tileY, y);
      y := y + 1;
    }
    assert Stroke(c)[..64] == Stroke(c);
    ApplyAppend(start, done, Stroke(c));
  }

  /// Row `y` of a tile, from column 7 down to column 0, each pixel in the
  /// colour of its value.
  method DrawViewerRow(canvas: Canvas, ghost start: Canvas, tile: seq<byte>, tileX: int, tileY: int, y: nat)
    returns (r: Canvas)
    requires |tile| == 16 && y < 8
    requires canvas == Apply(start, Stroke(ViewerTile(tile, (tileX, tileY)))[..8 * y])
    ensures r == Apply(start, Stroke(ViewerTile(tile, (tileX, tileY)))[..8 * y + 8])
  {
    ghost var c := ViewerTile(tile, (tileX, tileY));
    r := canvas;
    var upper := tile[y];
    var lower := tile[y + 8];
    var x := 8;
    ghost var n := 8 * y;
    while x > 0
      invariant 0 <= x <= 8 && n == 8 * y + (8 - x)
      invariant upper == Shr(tile[y], 8 - x) && lower == Shr(tile[y + 8], 8 - x)
      invariant r == Apply(start, Stroke(c)[..n])
    {
      x := x - 1;
      var value;
      value, upper, lower := ViewerBits(tile, y, x, upper, lower);
      var rgb := if value == 0 then 0x01 else if value == 1 then 0x23 else if value == 2 then 0x27 else 0x30;
      ViewerStep(start, tile, tileX, tileY, y, x, n, r, value, rgb);
      r := r[(tileX + x, tileY + y) := rgb];
      n := n + 1;
    }
  }

  /// The shifts of one pixel of the viewer's inner loop: the value with
  /// the first plane's bit on top, and both planes shifted once more.
  method ViewerBits(tile: seq<byte>, y: nat, x: nat, upper0: byte, lower0: byte)
    returns (value: byte, upper: byte, lower: byte)
    requires |tile| == 16 && y < 8 && x < 8
    requires upper0 == Shr(tile[y], 7 - x) && lower0 == Shr(tile[y + 8], 7 - x)
    ensures value == ViewerValue(tile, x, y)
    ensures upper == Shr(tile[y], 8 - x) && lower == Shr(tile[y + 8], 8 - x)
  {
    value := ((1 & upper0) << 1) | (1 & lower0);
    upper := upper0 >> 1;
    lower := lower0 >> 1;
    ShrNext(tile[y], 7 - x, 8 - x);
    ShrNext(tile[y + 8], 7 - x, 8 - x);
  }

  /// Step `n` of a viewer tile paints pixel (`tileX + x`, `tileY + y`) in
  /// the colour of the viewer's value there.
  lemma ViewerStep(start: Canvas, tile: seq<byte>, tileX: int, tileY: int, y: nat, x: nat, n: nat,
                   before: Canvas, value: byte, rgb: byte)
    requires |tile| == 16 && y < 8 && x < 8 && n == 8 * y + (7 - x)
    requires before == Apply(start, Stroke(ViewerTile(tile, (tileX, tileY)))[..n])
    requires value == ViewerValue(tile, x, y)
    requires rgb == if value == 0 then 0x01 else if value == 1 then 0x23 else if value == 2 then 0x27 else 0x30
    ensures Apply(start, Stroke(ViewerTile(tile, (tileX, tileY)))[..n + 1]) == before[(tileX + x, tileY + y) := rgb]
  {
    var c := ViewerTile(tile, (tileX, tileY));
    assert rgb == ViewerColour(tile, x, y);
    ViewerSwapsPlanes(tile, x, y);
    assert WriteAt(c, y, x) == Some(Write((tileX + x, tileY + y), ViewerColour(tile, x, y)));
    ApplyStep(start, c, y, x, n, n + 1);
  }

  // ----- a bank of tiles ---------------------------------------------------

  /// The grid position of tile `n`: 20 tiles to a row, 10 pixels apart.
  function GridOrigin(n: nat): (int, int) {
    (n % 20 * 10, n / 20 * 10)
  }

  /// The tiles `show_tile_bank` draws: tiles 0 to 254 of the bank, each at
  /// its grid position.
  function BankChunks(chr: seq<byte>, bank: nat): (cs: seq<Chunk>)
    requires bank <= 1 && bank * 0x1000 + 255 * 16 <= |chr|
    ensures |cs| == 255 && ValidChunks(cs)
  {
    seq(255, n requires 0 <= n < 255 => ViewerTile(TileAt(chr, bank * 0x1000, n), GridOrigin(n)))
  }

  /// The frame `show_tile_bank` returns.
  function BankFrame(chr: seq<byte>, bank: nat): Canvas
    requires bank <= 1 && bank * 0x1000 + 255 * 16 <= |chr|
  {
    Apply(map[], Strokes(BankChunks(chr, bank)))
  }

  /// `show_tile_bank`: the bank must be 0 or 1, and all 255 tiles must lie
  /// in the CHR-ROM.  `tile_x` and `tile_y` track the grid position, moving
  /// to the next row of the grid before every 20th tile.
  method ShowTileBank(chr: seq<byte>, bank: nat) returns (frame: Canvas)
    requires bank <= 1 && bank * 0x1000 + 255 * 16 <= |chr|
    ensures frame == BankFrame(chr, bank)
  {
    ghost var cs := BankChunks(chr, bank);
    frame := map[];
    var tileY := 0;
    var tileX := 0;
    var bankAddr := bank * 0x1000;
    var tileN := 0;
    ghost var prev := 0;
    while tileN < 255
      invariant 0 <= tileN <= 255
      invariant tileN == 0 ==> tileX == 0 && tileY == 0
      invariant tileN > 0 ==> prev + 1 == tileN && (tileX, tileY) == (GridOrigin(prev).0 + 10, GridOrigin(prev).1)
      invariant frame == Apply(map[], Strokes(cs[..tileN]))
    {
      if tileN != 0 && tileN % 20 == 0 {
        tileY := tileY + 10;
        tileX := 0;
      }
      if tileN > 0 {
        GridNext(prev, tileN);
      }
      assert (tileX, tileY) == GridOrigin(tileN);
      var tile := chr[bankAddr + tileN * 16..bankAddr + tileN * 16 + 16];
      assert cs[tileN] == ViewerTile(tile, (tileX, tileY)) by {
        BankChunkAt(chr, bank, tileN);
      }
      frame := DrawViewerTile(frame, tile, tileX, tileY, map[], Strokes(cs[..tileN]));
      StrokesSnoc(cs, tileN);
      prev := tileN;
      tileX := tileX + 10;
      tileN := tileN + 1;
    }
    assert cs[..255] == cs;
  }

  /// Where tile `n` goes given where tile `n - 1` went: 10 pixels to the
  /// right, or the start of the next grid row after every 20 tiles.
  lemma GridNext(m: nat, n: nat)
    requires n == m + 1
    ensures n % 20 != 0 ==> GridOrigin(n) == (GridOrigin(m).0 + 10, GridOrigin(m).1)
    ensures n % 20 == 0 ==> GridOrigin(n) == (0, GridOrigin(m).1 + 10)
  {
  }

  /// The grid cell of a frame pixel, if the pixel lies on a tile of the
  /// grid: the tile's number, and the pixel's column and row in it.
  function GridCell(p: (int, int)): Option<(nat, nat, nat)> {
    if 0 <= p.0 < 200 && 0 <= p.1 && p.0 % 10 < 8 && p.1 % 10 < 8 && p.1 / 10 * 20 + p.0 / 10 < 255 then
      Some((p.1 / 10 * 20 + p.0 / 10, p.0 % 10, p.1 % 10))
    else None
  }

  /// The square of tile `j` holds `p` only when `p` lies on the grid, and
  /// then on tile `j`.
  lemma GridSquare(j: nat, p: (int, int))
    requires j < 255
    ensures var dx := p.0 - GridOrigin(j).0;
      var dy := p.1 - GridOrigin(j).1;
      0 <= dx < 8 && 0 <= dy < 8 ==> GridCell(p) == Some((j, dx, dy))
  {
    var a := j % 20;
    var b := j / 20;
    var dx := p.0 - a * 10;
    var dy := p.1 - b * 10;
    if 0 <= dx < 8 && 0 <= dy < 8 {
      assert p.0 == a * 10 + dx && p.0 / 10 == a && p.0 % 10 == dx;
      assert p.1 == b * 10 + dy && p.1 / 10 == b && p.1 % 10 == dy;
      assert j == b * 20 + a;
    }
  }

  /// A pixel on tile `k` of the grid lies `dx`, `dy` from the tile's
  /// origin.
  lemma GridCellOrigin(p: (int, int), k: nat, dx: nat, dy: nat)
    requires GridCell(p) == Some((k, dx, dy))
    ensures k < 255 && dx < 8 && dy < 8
    ensures GridOrigin(k) == (p.0 - dx, p.1 - dy)
  {
    var a := p.0 / 10;
    var b := p.1 / 10;
    assert 0 <= a < 20 && k == b * 20 + a;
    assert k % 20 == a && k / 20 == b;
    assert p.0 == a * 10 + dx && p.1 == b * 10 + dy;
  }

  /// Tile `n` of the bank, looked up in the list of all of them.
  lemma BankChunkAt(chr: seq<byte>, bank: nat, n: nat)
    requires bank <= 1 && bank * 0x1000 + 255 * 16 <= |chr| && n < 255
    ensures BankChunks(chr, bank)[n] == ViewerTile(TileAt(chr, bank * 0x1000, n), GridOrigin(n))
  {
  }

  /// Only the tile of the grid cell of `p`, if any, covers `p`.
  lemma BankCover(chr: seq<byte>, bank: nat, p: (int, int), k: int)
    requires bank <= 1 && bank * 0x1000 + 255 * 16 <= |chr|
    requires k == if GridCell(p).Some? then GridCell(p).value.0 as int else -1
    ensures Top(BankChunks(chr, bank), p) == if k >= 0 then ChunkColour(BankChunks(chr, bank)[k], p) else None
  {
    var cs := BankChunks(chr, bank);
    forall j | 0 <= j < |cs| && j != k
      ensures CellOf(cs[j], p).None?
    {
      BankChunkAt(chr, bank, j);
      GridSquare(j, p);
    }
    TopOfOne(cs, p, k);
  }

  /// `show_tile_bank` paints the pixels of the grid's 255 squares, each in
  /// the viewer's colour for its pixel of its tile, and leaves the two-pixel
  /// gaps between squares, and everything past them, unpainted.
  lemma BankFrameShows(chr: seq<byte>, bank: nat, p: (int, int))
    requires bank <= 1 && bank * 0x1000 + 255 * 16 <= |chr|
    ensures var cell := GridCell(p);
      Shown(BankFrame(chr, bank), p) ==
        if cell.Some? then Some(ViewerColour(TileAt(chr, bank * 0x1000, cell.value.0), cell.value.1, cell.value.2))
        else None
  {
    var cell := GridCell(p);
    if cell.Some? {
      BankHit(chr, bank, p, cell.value.0, cell.value.1, cell.value.2);
    } else {
      BankCover(chr, bank, p, -1);
      ApplyStrokes(map[], BankChunks(chr, bank), p);
    }
  }

  /// A pixel on tile `k` of the grid, at column `dx` and row `dy` of it.
  lemma BankHit(chr: seq<byte>, bank: nat, p: (int, int), k: nat, dx: nat, dy: nat)
    requires bank <= 1 && bank * 0x1000 + 255 * 16 <= |chr|
    requires GridCell(p) == Some((k, dx, dy))
    ensures k < 255 && dx < 8 && dy < 8
    ensures Shown(BankFrame(chr, bank), p) == Some(ViewerColour(TileAt(chr, bank * 0x1000, k), dx, dy))
  {
    var cs := BankChunks(chr, bank);
    var tile := TileAt(chr, bank * 0x1000, k);
    BankCover(chr, bank, p, k);
    ApplyStrokes(map[], cs, p);
    BankChunkAt(chr, bank, k);
    GridCellOrigin(p, k, dx, dy);
    ViewerTileShows(tile, GridOrigin(k), p);
  }
}

/// Pattern tiles painted onto a frame the way the window's renderers
/// (src/render/mod.rs and src/tile_viewer.rs) paint them: the eight rows
/// of a tile from top to bottom, each row's pixels from column 7 down to
/// column 0, the 2-bit value of a pixel taken from the two bit planes as
/// they are shifted right one column at a time.
///
/// The frame these renderers draw on (src/render/frame.rs) is not part of
/// this model.  It is a canvas mapping every pixel drawn so far to the
/// system-palette index drawn there; `set_pixel(x, y, c)` records `c` at
/// `(x, y)`.  A loop's drawing is the list of its `set_pixel` calls in
/// order, a skipped pixel standing as `None`.
module Tiles {
  import opened Tools

  type Canvas = map<(int, int), byte>

  /// One `set_pixel` call.
  datatype Write = Write(key: (int, int), colour: byte)

  /// The canvas after the writes, in order.
  function Apply(canvas: Canvas, writes: seq<Option<Write>>): Canvas
    decreases |writes|
  {
    if |writes| == 0 then canvas
    else
      var before := Apply(canvas, writes[..|writes| - 1]);
      var w := writes[|writes| - 1];
      if w.Some? then before[w.value.key := w.value.colour] else before
  }

  /// The colour of the last write to `p`, if any.
  function LastAt(writes: seq<Option<Write>>, p: (int, int)): Option<byte>
    decreases |writes|
  {
    if |writes| == 0 then None
    else
      var w := writes[|writes| - 1];
      if w.Some? && w.value.key == p then Some(w.value.colour) else LastAt(writes[..|writes| - 1], p)
  }

  /// One more write.
  lemma LastAtSnoc(writes: seq<Option<Write>>, w: Option<Write>, p: (int, int))
    ensures LastAt(writes + [w], p) ==
      if w.Some? && w.value.key == p then Some(w.value.colour) else LastAt(writes, p)
  {
    assert (writes + [w])[..|writes|] == writes;
  }

  /// A pixel shows the last colour written to it, or what the canvas had
  /// there when nothing was written to it.
  lemma {:induction false} ApplyShowsLast(canvas: Canvas, writes: seq<Option<Write>>, p: (int, int))
    ensures p in Apply(canvas, writes) <==> p in canvas || LastAt(writes, p).Some?
    ensures p in Apply(canvas, writes) ==>
      Apply(canvas, writes)[p] == if LastAt(writes, p).Some? then LastAt(writes, p).value else canvas[p]
    decreases |writes|
  {
    if |writes| > 0 {
      ApplyShowsLast(canvas, writes[..|writes| - 1], p);
    }
  }

  /// One more write.
  lemma ApplySnoc(canvas: Canvas, writes: seq<Option<Write>>, w: Option<Write>)
    ensures Apply(canvas, writes + [w]) ==
      if w.Some? then Apply(canvas, writes)[w.value.key := w.value.colour] else Apply(canvas, writes)
  {
    assert (writes + [w])[..|writes|] == writes;
  }

  /// Drawing two lists one after the other is drawing their concatenation.
  lemma {:induction false} ApplyAppend(canvas: Canvas, a: seq<Option<Write>>, b: seq<Option<Write>>)
    ensures Apply(canvas, a + b) == Apply(Apply(canvas, a), b)
    decreases |b|
  {
    if |b| == 0 {
      assert a + b == a;
    } else {
      assert (a + b)[..|a + b| - 1] == a + b[..|b| - 1];
      ApplyAppend(canvas, a, b[..|b| - 1]);
    }
  }

  /// In a concatenation, the second list's last write to a pixel wins over
  /// anything the first wrote there.
  lemma {:induction false} LastAtAppend(a: seq<Option<Write>>, b: seq<Option<Write>>, p: (int, int))
    ensures LastAt(a + b, p) == if LastAt(b, p).Some? then LastAt(b, p) else LastAt(a, p)
    decreases |b|
  {
    if |b| == 0 {
      assert a + b == a;
    } else {
      assert (a + b)[..|a + b| - 1] == a + b[..|b| - 1];
      LastAtAppend(a, b[..|b| - 1], p);
    }
  }

  // ----- pattern bits ----------------------------------------------------

  /// A byte shifted right `n` times, one place at a time.
  function Shr(v: byte, n: nat): byte
    decreases n
  {
    if n == 0 then v else Shr(v, n - 1) >> 1
  }

  /// One shift more.
  lemma ShrNext(v: byte, n: nat, m: nat)
    requires m == n + 1
    ensures Shr(v, m) == Shr(v, n) >> 1
  {
  }

  /// After `n` shifts the lowest bit is bit `n` of the byte.
  lemma ShrBit(v: byte, n: nat)
    requires n < 8
    ensures 1 & Shr(v, n) == NthBit(v, n)
  {
    if n == 0 {
    } else if n == 1 {
    } else if n == 2 {
      assert Shr(v, 2) == (v >> 1) >> 1;
    } else if n == 3 {
      assert Shr(v, 3) == ((v >> 1) >> 1) >> 1;
    } else if n == 4 {
      assert Shr(v, 4) == (((v >> 1) >> 1) >> 1) >> 1;
    } else if n == 5 {
      assert Shr(v, 5) == ((((v >> 1) >> 1) >> 1) >> 1) >> 1;
    } else if n == 6 {
      assert Shr(v, 6) == (((((v >> 1) >> 1) >> 1) >> 1) >> 1) >> 1;
    } else {
      assert Shr(v, 7) == ((((((v >> 1) >> 1) >> 1) >> 1) >> 1) >> 1) >> 1;
    }
  }

  /// The 2-bit value of column `x`, row `y` of a 16-byte tile, as
  /// `(1 & lower) << 1 | (1 & upper)` computes it after `7 - x` shifts:
  /// the second bit plane (`tile[y + 8]`) gives the high bit, the first
  /// (`tile[y]`) the low bit.
  function PatternValue(tile: seq<byte>, x: nat, y: nat): (v: byte)
    requires |tile| == 16 && x < 8 && y < 8
    ensures v < 4
  {
    ((1 & Shr(tile[y + 8], 7 - x)) << 1) | (1 & Shr(tile[y], 7 - x))
  }

  /// Column `x` of the tile is bit `7 - x` of both planes, the leftmost
  /// column being the planes' top bit.
  lemma PatternBits(tile: seq<byte>, x: nat, y: nat)
    requires |tile| == 16 && x < 8 && y < 8
    ensures PatternValue(tile, x, y) as int == 2 * NthBit(tile[y + 8], 7 - x) as int + NthBit(tile[y], 7 - x) as int
  {
    ShrBit(tile[y + 8], 7 - x);
    ShrBit(tile[y], 7 - x);
    var hi := NthBit(tile[y + 8], 7 - x);
    var lo := NthBit(tile[y], 7 - x);
    assert (hi << 1) | lo == if hi == 0 then lo else 2 + lo;
  }

  /// The 16 bytes of tile `index` of the pattern table at `bank`.
  function TileAt(chr: seq<byte>, bank: nat, index: nat): (tile: seq<byte>)
    requires bank + index * 16 + 16 <= |chr|
    ensures |tile| == 16
  {
    chr[bank + index * 16..bank + index * 16 + 16]
  }

  // ----- one tile --------------------------------------------------------

  datatype Rect = Rect(x1: int, y1: int, x2: int, y2: int)

  predicate InRect(r: Rect, x: int, y: int) {
    r.x1 <= x < r.x2 && r.y1 <= y < r.y2
  }

  /// A tile as one of the renderers draws it: its 16 pattern bytes, the
  /// colour of each 2-bit value, the frame position of its top-left pixel,
  /// whether value 0 is transparent, the flips, and the part of the frame
  /// it may draw in.
  datatype Chunk = Chunk(
    tile: seq<byte>, colours: seq<byte>, origin: (int, int),
    skipZero: bool, flipX: bool, flipY: bool, clip: Option<Rect>)

  predicate ValidChunk(c: Chunk) {
    |c.tile| == 16 && |c.colours| == 4
  }

  /// The frame pixel of row `y`, column `x` of the pattern.
  function KeyAt(c: Chunk, y: nat, x: nat): (int, int) {
    (c.origin.0 + (if c.flipX then 7 - x else x), c.origin.1 + (if c.flipY then 7 - y else y))
  }

  /// What the renderer does for row `y`, column `x`: nothing for a
  /// transparent pixel or one outside the clip, else a write of the
  /// value's colour.
  function WriteAt(c: Chunk, y: nat, x: nat): Option<Write>
    requires ValidChunk(c) && y < 8 && x < 8
  {
    var value := PatternValue(c.tile, x, y);
    var key := KeyAt(c, y, x);
    if (c.skipZero && value == 0) || (c.clip.Some? && !InRect(c.clip.value, key.0, key.1)) then None
    else Some(Write(key, c.colours[value]))
  }

  /// The position in the drawing order of row `y`, column `x`: rows top
  /// to bottom, and in each row column 7 first.
  function Step(y: nat, x: nat): nat
    requires y < 8 && x < 8
  {
    8 * y + (7 - x)
  }

  /// The row and column drawn at step `k`.
  lemma StepCell(k: nat) returns (y: nat, x: nat)
    requires k < 64
    ensures y < 8 && x < 8 && Step(y, x) == k
  {
    y := k / 8;
    x := 7 - k % 8;
  }

  /// Different cells are drawn at different steps.
  lemma StepInjective(y: nat, x: nat, cell: Option<(nat, nat)>)
    requires y < 8 && x < 8
    requires cell.Some? ==> cell.value.0 < 8 && cell.value.1 < 8
    ensures cell.Some? ==> (Step(cell.value.0, cell.value.1) == Step(y, x) <==> cell == Some((y, x)))
  {
  }

  /// The 64 steps of a tile, in order.
  function Stroke(c: Chunk): (writes: seq<Option<Write>>)
    requires ValidChunk(c)
    ensures |writes| == 64
  {
    seq(64, k requires 0 <= k < 64 => WriteAt(c, k / 8, 7 - k % 8))
  }

  /// Step `Step(y, x)` of the tile is the write of row `y`, column `x`.
  lemma StrokeStep(c: Chunk, y: nat, x: nat)
    requires ValidChunk(c) && y < 8 && x < 8
    ensures Stroke(c)[Step(y, x)] == WriteAt(c, y, x)
    ensures Stroke(c)[..Step(y, x) + 1] == Stroke(c)[..Step(y, x)] + [WriteAt(c, y, x)]
  {
    var k := Step(y, x);
    assert k / 8 == y && k % 8 == 7 - x;
    assert Stroke(c)[..k + 1] == Stroke(c)[..k] + [Stroke(c)[k]];
  }

  /// Drawing one more step of the tile: step `n` is the write of row `y`,
  /// column `x`.
  lemma ApplyStep(canvas: Canvas, c: Chunk, y: nat, x: nat, n: nat, m: nat)
    requires ValidChunk(c) && y < 8 && x < 8 && n == Step(y, x) && m == n + 1
    ensures var w := WriteAt(c, y, x);
      Apply(canvas, Stroke(c)[..m]) ==
        if w.Some? then Apply(canvas, Stroke(c)[..n])[w.value.key := w.value.colour] else Apply(canvas, Stroke(c)[..n])
  {
    StrokeStep(c, y, x);
    ApplySnoc(canvas, Stroke(c)[..n], WriteAt(c, y, x));
  }

  /// The row and column of the pattern drawn at frame pixel `p`, if the
  /// tile's square covers it: the inverse of `KeyAt`.
  function CellOf(c: Chunk, p: (int, int)): (cell: Option<(nat, nat)>)
    ensures cell.Some? ==> cell.value.0 < 8 && cell.value.1 < 8
  {
    var dx := p.0 - c.origin.0;
    var dy := p.1 - c.origin.1;
    if 0 <= dx < 8 && 0 <= dy < 8 then
      Some((if c.flipY then 7 - dy else dy, if c.flipX then 7 - dx else dx))
    else None
  }

  lemma CellOfKey(c: Chunk, y: nat, x: nat, p: (int, int))
    requires y < 8 && x < 8
    ensures KeyAt(c, y, x) == p <==> CellOf(c, p) == Some((y, x))
  {
  }

  /// The colour the tile leaves at `p`: None where it draws nothing.
  function ChunkColour(c: Chunk, p: (int, int)): Option<byte>
    requires ValidChunk(c)
  {
    var cell := CellOf(c, p);
    if cell.None? then None
    else
      var w := WriteAt(c, cell.value.0, cell.value.1);
      if w.Some? then Some(w.value.colour) else None
  }

  /// A write of the tile reaches `p` exactly when `p` shows that cell and
  /// the tile draws there, and then it leaves the tile's colour.
  lemma WriteAtCell(c: Chunk, y: nat, x: nat, p: (int, int))
    requires ValidChunk(c) && y < 8 && x < 8
    ensures var w := WriteAt(c, y, x);
      (w.Some? && w.value.key == p) <==> (CellOf(c, p) == Some((y, x)) && ChunkColour(c, p).Some?)
    ensures var w := WriteAt(c, y, x);
      w.Some? && w.value.key == p ==> ChunkColour(c, p) == Some(w.value.colour)
  {
    CellOfKey(c, y, x, p);
  }

  /// The first `n` steps leave at `p` the tile's colour if the cell drawn
  /// there comes among them, and nothing otherwise.
  lemma {:induction false} StrokePrefixLast(c: Chunk, n: nat, p: (int, int))
    requires ValidChunk(c) && n <= 64
    ensures LastAt(Stroke(c)[..n], p) ==
      var cell := CellOf(c, p);
      if cell.Some? && Step(cell.value.0, cell.value.1) < n then ChunkColour(c, p) else None
    decreases n
  {
    if n > 0 {
      var y, x := StepCell(n - 1);
      var w := WriteAt(c, y, x);
      assert LastAt(Stroke(c)[..n], p) == if w.Some? && w.value.key == p then Some(w.value.colour) else LastAt(Stroke(c)[..n - 1], p) by {
        StrokeStep(c, y, x);
        LastAtSnoc(Stroke(c)[..n - 1], w, p);
      }
      StrokePrefixLast(c, n - 1, p);
      WriteAtCell(c, y, x, p);
      StepInjective(y, x, CellOf(c, p));
    }
  }

  /// Each pixel of a tile is written at most once, so the tile leaves at
  /// `p` exactly the colour of the cell drawn there.
  lemma StrokeShows(c: Chunk, p: (int, int))
    requires ValidChunk(c)
    ensures LastAt(Stroke(c), p) == ChunkColour(c, p)
  {
    StrokePrefixLast(c, |Stroke(c)|, p);
    assert Stroke(c)[..|Stroke(c)|] == Stroke(c);
  }

  // ----- tiles one after the other ---------------------------------------

  predicate ValidChunks(cs: seq<Chunk>) {
    forall i | 0 <= i < |cs| :: ValidChunk(cs[i])
  }

  /// The tiles drawn in order.
  function Strokes(cs: seq<Chunk>): seq<Option<Write>>
    requires ValidChunks(cs)
    decreases |cs|
  {
    if |cs| == 0 then [] else Strokes(cs[..|cs| - 1]) + Stroke(cs[|cs| - 1])
  }

  /// The colour at `p` of the last tile that draws there.
  function Top(cs: seq<Chunk>, p: (int, int)): Option<byte>
    requires ValidChunks(cs)
    decreases |cs|
  {
    if |cs| == 0 then None
    else
      var top := ChunkColour(cs[|cs| - 1], p);
      if top.Some? then top else Top(cs[..|cs| - 1], p)
  }

  /// A later tile covers an earlier one wherever it draws.
  lemma {:induction false} StrokesShow(cs: seq<Chunk>, p: (int, int))
    requires ValidChunks(cs)
    ensures LastAt(Strokes(cs), p) == Top(cs, p)
    decreases |cs|
  {
    if |cs| > 0 {
      var last := cs[|cs| - 1];
      LastAtAppend(Strokes(cs[..|cs| - 1]), Stroke(last), p);
      StrokesShow(cs[..|cs| - 1], p);
      StrokeShows(last, p);
    }
  }

  /// Where the squares of the tiles do not overlap, the only tile whose
  /// square holds `p` decides its colour, and no tile draws where none
  /// holds it.
  lemma {:induction false} TopOfOne(cs: seq<Chunk>, p: (int, int), k: int)
    requires ValidChunks(cs)
    requires forall j | 0 <= j < |cs| && j != k :: CellOf(cs[j], p).None?
    ensures Top(cs, p) == if 0 <= k < |cs| then ChunkColour(cs[k], p) else None
    decreases |cs|
  {
    if |cs| > 0 {
      TopOfOne(cs[..|cs| - 1], p, k);
    }
  }

  /// What the canvas holds at `p`, if anything.
  function Shown(canvas: Canvas, p: (int, int)): Option<byte> {
    if p in canvas then Some(canvas[p]) else None
  }

  /// Drawing tiles over a canvas: where one of them draws, the pixel shows
  /// the last tile's colour; elsewhere it keeps what the canvas had.
  lemma ApplyStrokes(canvas: Canvas, cs: seq<Chunk>, p: (int, int))
    requires ValidChunks(cs)
    ensures Shown(Apply(canvas, Strokes(cs)), p) == if Top(cs, p).Some? then Top(cs, p) else Shown(canvas, p)
  {
    ApplyShowsLast(canvas, Strokes(cs), p);
    StrokesShow(cs, p);
  }

  /// Extending a list of tiles by one.
  lemma StrokesSnoc(cs: seq<Chunk>, i: nat)
    requires ValidChunks(cs) && i < |cs|
    ensures Strokes(cs[..i + 1]) == Strokes(cs[..i]) + Stroke(cs[i])
  {
    assert cs[..i + 1][..i] == cs[..i];
  }
}

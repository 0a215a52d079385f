/// The window's frame buffer (src/frame.rs): three bytes per pixel, copied
/// from the emulator's pixel buffer only when the buffer's hash differs
/// from the one seen last.  The hash (`FxBuildHasher::hash_one`) is
/// computed by the caller and passed in.
module Frame {
  import opened Tools
  import opened PpuRenderer

  type u64 = x: int | 0 <= x < 0x1_0000_0000_0000_0000

  /// Channel `k` (red, green, blue) of a colour.
  function Channel(c: Rgb, k: nat): byte
    requires k < 3
  {
    if k == 0 then c.r else if k == 1 then c.g else c.b
  }

  /// The bytes of a pixel buffer: pixel `i`'s channels at `3i`, `3i + 1`
  /// and `3i + 2`.
  function Flatten(pixels: seq<Rgb>): (data: seq<byte>)
    ensures |data| == 3 * |pixels|
  {
    seq(3 * |pixels|, k requires 0 <= k < 3 * |pixels| => Channel(pixels[k / 3], k % 3))
  }

  /// The pixels stored in a byte buffer, three bytes each.
  function Unflatten(data: seq<byte>): (pixels: seq<Rgb>)
    requires |data| % 3 == 0
    ensures 3 * |pixels| == |data|
  {
    seq(|data| / 3, i requires 0 <= i < |data| / 3 => Rgb(data[3 * i], data[3 * i + 1], data[3 * i + 2]))
  }

  /// Each pixel lands in its own three bytes.
  lemma FlattenPixel(pixels: seq<Rgb>, i: nat)
    requires i < |pixels|
    ensures Flatten(pixels)[3 * i] == pixels[i].r
    ensures Flatten(pixels)[3 * i + 1] == pixels[i].g
    ensures Flatten(pixels)[3 * i + 2] == pixels[i].b
  {
    assert (3 * i) / 3 == i && (3 * i + 1) / 3 == i && (3 * i + 2) / 3 == i;
  }

  /// Reading the pixels back from the bytes gives the pixel buffer.
  lemma FlattenRoundTrip(pixels: seq<Rgb>)
    ensures Unflatten(Flatten(pixels)) == pixels
  {
    forall i | 0 <= i < |pixels|
      ensures Unflatten(Flatten(pixels))[i] == pixels[i]
    {
      FlattenPixel(pixels, i);
    }
  }

  /// Every byte buffer of whole pixels is the flattening of its pixels.
  lemma UnflattenRoundTrip(data: seq<byte>)
    requires |data| % 3 == 0
    ensures Flatten(Unflatten(data)) == data
  {
    var pixels := Unflatten(data);
    forall k | 0 <= k < |data|
      ensures Flatten(pixels)[k] == data[k]
    {
      var i := k / 3;
      assert k == 3 * i + k % 3;
    }
  }

  /// The three bytes of pixel `i` and the channel each holds.
  lemma PixelBytes(i: nat)
    ensures forall k | 3 * i <= k < 3 * i + 3 :: k / 3 == i && k % 3 == k - 3 * i
  {
  }

  /// `update` on the frame's bytes and last hash: a new hash replaces both,
  /// a repeated one leaves the frame as it is.
  function Updated(data: seq<byte>, prevHash: u64, pixels: seq<Rgb>, hash: u64): (seq<byte>, u64) {
    if hash != prevHash then (Flatten(pixels), hash) else (data, prevHash)
  }

  /// After an update with a new hash the frame shows exactly the pixel
  /// buffer; after one with the hash it last saw it shows what it showed.
  lemma UpdatedShows(data: seq<byte>, prevHash: u64, pixels: seq<Rgb>, hash: u64)
    requires |data| == 3 * |pixels|
    ensures var (data', hash') := Updated(data, prevHash, pixels, hash);
      hash' == hash && |data'| == |data| &&
      (hash != prevHash ==> Unflatten(data') == pixels) &&
      (hash == prevHash ==> data' == data)
  {
    FlattenRoundTrip(pixels);
  }

  /// A second update with the same buffer and hash changes nothing.
  lemma UpdateIdempotent(data: seq<byte>, prevHash: u64, pixels: seq<Rgb>, hash: u64)
    ensures var once := Updated(data, prevHash, pixels, hash);
      Updated(once.0, once.1, pixels, hash) == once
  {
  }

  /// `Frame`.
  class Frame {
    const data: array<byte>
    const width: nat
    const height: nat
    var prevPixelHash: u64

    predicate Valid() {
      data.Length == width * height * 3
    }

    /// `new`: a black frame of `width` by `height` pixels that has seen no
    /// buffer.
    constructor (width: nat, height: nat)
      ensures Valid() && fresh(data) && this.width == width && this.height == height
      ensures forall k | 0 <= k < data.Length :: data[k] == 0
      ensures prevPixelHash == 0
    {
      this.width := width;
      this.height := height;
      data := new byte[width * height * 3](_ => 0);
      prevPixelHash := 0;
    }

    /// `update`: the buffer must have one pixel per frame pixel.
    method Update(pixelBuf: seq<Rgb>, hash: u64)
      requires Valid() && |pixelBuf| == width * height
      modifies this, data
      ensures Valid()
      ensures (data[..], prevPixelHash) == Updated(old(data[..]), old(prevPixelHash), pixelBuf, hash)
    {
      if hash != prevPixelHash {
        prevPixelHash := hash;
        var index := 0;
        while index < |pixelBuf|
          invariant 0 <= index <= |pixelBuf| && prevPixelHash == hash
          invariant forall k | 0 <= k < 3 * index :: data[k] == Channel(pixelBuf[k / 3], k % 3)
        {
          var idx := index * 3;
          data[idx] := pixelBuf[index].r;
          data[idx + 1] := pixelBuf[index].g;
          data[idx + 2] := pixelBuf[index].b;
          PixelBytes(index);
          index := index + 1;
        }
        assert data[..] == Flatten(pixelBuf);
      }
    }
  }
}

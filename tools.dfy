/// Shared byte and address helpers of the emulator (nes/src/tools.rs).
///
/// Data bytes are 8-bit bit-vectors; 16-bit addresses are integers in
/// 0..0xFFFF so that address arithmetic can be stated without bit-vector
/// conversions.  `a & 0xFF00` is therefore written `a / 256` (the high byte)
/// and `a & 0xFF` is written `a % 256`.
module Tools {

  /// An 8-bit data value (Rust `u8` used as data).
  type byte = bv8

  /// A Rust `u8` used as a number (opcode bytes, tile numbers).
  type u8 = x: int | 0 <= x < 0x100

  /// A Rust `u16` address.
  type u16 = x: int | 0 <= x < 0x1_0000

  datatype Option<T> = None | Some(value: T)

  /// `bytes_to_u16`: the little-endian word made of two bytes.
  function BytesToU16(bytes: seq<byte>): (w: u16)
    requires |bytes| == 2
    ensures w % 256 == bytes[0] as int && w / 256 == bytes[1] as int
  {
    bytes[1] as int * 256 + bytes[0] as int
  }

  /// The inverse of `BytesToU16`: low byte first.
  function U16ToBytes(w: u16): (bytes: seq<byte>)
    ensures |bytes| == 2
    ensures bytes[0] as int == w % 256 && bytes[1] as int == w / 256
  {
    [ToByte(w % 256), ToByte(w / 256)]
  }

  /// A number below 256 as a data byte (`as u8` on a value that fits),
  /// assembled from its two hexadecimal digits.
  function ToByte(x: int): (b: byte)
    requires 0 <= x < 0x100
    ensures b as int == x
  {
    HexDigit(x / 16) * 16 + HexDigit(x % 16)
  }

  /// A data byte as a number (`u8` read as an integer).
  function ByteValue(b: byte): u8 {
    b as int
  }

  /// A number below 16 as a data byte.
  function HexDigit(x: int): (b: byte)
    requires 0 <= x < 16
    ensures b as int == x
  {
    if x == 0 then 0 else if x == 1 then 1 else if x == 2 then 2 else if x == 3 then 3 else
    if x == 4 then 4 else if x == 5 then 5 else if x == 6 then 6 else if x == 7 then 7 else
    if x == 8 then 8 else if x == 9 then 9 else if x == 10 then 10 else if x == 11 then 11 else
    if x == 12 then 12 else if x == 13 then 13 else if x == 14 then 14 else 15
  }

  /// Splitting a word into bytes and joining them again gives the word.
  lemma WordRoundTrip(w: u16)
    ensures BytesToU16(U16ToBytes(w)) == w
  {
  }

  /// Joining two bytes into a word and splitting it again gives the bytes.
  lemma BytesRoundTrip(bytes: seq<byte>)
    requires |bytes| == 2
    ensures U16ToBytes(BytesToU16(bytes)) == bytes
  {
    var b := U16ToBytes(BytesToU16(bytes));
    SameValue(b[0], bytes[0]);
    SameValue(b[1], bytes[1]);
    assert b == [bytes[0], bytes[1]];
  }

  /// Two bytes with the same numeric value are the same byte.
  lemma SameValue(a: byte, b: byte)
    requires a as int == b as int
    ensures a == b
  {
  }

  /// `vec_to_u16`: a vector converts only when it holds exactly two bytes;
  /// any other length makes the `try_into().unwrap()` panic, modelled as None.
  function VecToU16(bytes: seq<byte>): (r: Option<u16>)
    ensures r.Some? <==> |bytes| == 2
    ensures r.Some? ==> r.value == BytesToU16(bytes)
  {
    if |bytes| == 2 then Some(BytesToU16(bytes)) else None
  }

  /// `page_cross`: the two addresses lie on different 256-byte pages
  /// (their `& 0xFF00` parts differ).
  function PageCross(addr1: u16, addr2: u16): (r: bool)
    ensures r <==> addr1 - addr1 % 256 != addr2 - addr2 % 256
  {
    addr1 / 256 != addr2 / 256
  }

  lemma PageCrossSymmetric(a: u16, b: u16)
    ensures PageCross(a, b) == PageCross(b, a)
    ensures !PageCross(a, a)
  {
  }

  /// Adding an 8-bit index to a base crosses a page exactly when the low
  /// byte of the base plus the index overflows 0xFF.
  lemma PageCrossIndexed(base: u16, i: int)
    requires 0 <= i <= 255
    ensures PageCross(base, (base + i) % 0x1_0000) <==> base % 256 + i >= 256
  {
    if base + i >= 0x1_0000 {
      assert (base + i) % 0x1_0000 == base + i - 0x1_0000;
      assert base / 256 == 255;
    }
  }

  /// Wrapping 16-bit addition (`u16::wrapping_add`).
  function WrapAdd16(a: u16, b: int): (r: u16)
    ensures (a + b - r) % 0x1_0000 == 0
  {
    (a + b) % 0x1_0000
  }

  /// Bit `n` of a byte, as 0 or 1.
  function NthBit(v: byte, n: nat): (b: byte)
    requires n < 8
    ensures b == 0 || b == 1
    ensures b == 1 <==> v & (1 << n) != 0
  {
    (v >> n) & 1
  }

  /// A 16-bit quantity stored as separate high and low bytes.
  datatype BitPlane = BitPlane(hi: byte, lo: byte)
}

/// The PPU's internal VRAM address register ("loopy" register) of
/// nes/src/ppu/registers/addr.rs, held as a high and a low byte.  Read as
/// one 15-bit word, bits 0-4 are coarse X, bits 5-9 coarse Y, bits 10-11
/// the nametable and bits 12-14 fine Y.
module PpuAddr {
  import opened Tools

  /// The register read as one word (`get_all`).
  type word = bv16

  function Join(hi: byte, lo: byte): word {
    ((hi as word) << 8) | (lo as word)
  }

  function HiByte(data: word): byte {
    (data >> 8) as byte
  }

  function LoByte(data: word): byte {
    (data & 0xFF) as byte
  }

  /// `set` stores the two bytes of a word; joining them gives it back.
  lemma JoinSplit(data: word)
    ensures Join(HiByte(data), LoByte(data)) == data
  {
  }

  /// `get_coarse_x`.
  function CoarseX(v: word): byte {
    (v & 0x001F) as byte
  }

  /// `get_coarse_y`.
  function CoarseY(v: word): byte {
    ((v & 0x03E0) >> 5) as byte
  }

  /// `get_nametable`.
  function Nametable(v: word): byte {
    ((v & 0x0C00) >> 10) as byte
  }

  /// `get_fine_y`.
  function FineY(v: word): byte {
    ((v & 0x7000) >> 12) as byte
  }

  /// Bit 15, which no field covers.
  function TopBit(v: word): word {
    v & 0x8000
  }

  /// The word after `set_coarse_x(value)`.
  function WithCoarseX(v: word, value: byte): word {
    (v & 0xFFE0) | ((value as word) & 0x001F)
  }

  /// The word after `set_coarse_y(value)`.
  function WithCoarseY(v: word, value: byte): word {
    (v & 0xFC1F) | (((value as word) << 5) & 0x03E0)
  }

  /// The word after `set_nametable(value)`.
  function WithNametable(v: word, value: byte): word {
    (v & 0xF3FF) | (((value as word) << 10) & 0x0C00)
  }

  /// The word after `set_fine_y(value)`.
  function WithFineY(v: word, value: byte): word {
    (v & 0x8FFF) | (((value as word) << 12) & 0x7000)
  }

  /// Each setter stores its value cut to the field's width, which its
  /// getter then returns, and leaves the other fields and bit 15 alone.
  lemma SetCoarseXOnly(v: word, value: byte)
    ensures var r := WithCoarseX(v, value);
      CoarseX(r) == value & 0x1F && CoarseY(r) == CoarseY(v) && Nametable(r) == Nametable(v) &&
      FineY(r) == FineY(v) && TopBit(r) == TopBit(v)
  {
  }

  lemma SetCoarseYOnly(v: word, value: byte)
    ensures var r := WithCoarseY(v, value);
      CoarseY(r) == value & 0x1F && CoarseX(r) == CoarseX(v) && Nametable(r) == Nametable(v) &&
      FineY(r) == FineY(v) && TopBit(r) == TopBit(v)
  {
  }

  lemma SetNametableOnly(v: word, value: byte)
    ensures var r := WithNametable(v, value);
      Nametable(r) == value & 0x3 && CoarseX(r) == CoarseX(v) && CoarseY(r) == CoarseY(v) &&
      FineY(r) == FineY(v) && TopBit(r) == TopBit(v)
  {
  }

  lemma SetFineYOnly(v: word, value: byte)
    ensures var r := WithFineY(v, value);
      FineY(r) == value & 0x7 && CoarseX(r) == CoarseX(v) && CoarseY(r) == CoarseY(v) &&
      Nametable(r) == Nametable(v) && TopBit(r) == TopBit(v)
  {
  }

  /// `get`: the word restricted to 0x0000-0x3FFF.
  function Get(v: word): (r: word)
    ensures r <= 0x3FFF
    ensures r & 0x3FFF == v & 0x3FFF
  {
    v & 0x3FFF
  }

  /// `get_nametable_addr`: the tile's byte in the nametables, fine Y
  /// dropped.
  function NametableAddr(v: word): (r: word)
    ensures 0x2000 <= r <= 0x2FFF
    ensures r & 0x0FFF == v & 0x0FFF
  {
    (v & 0x0FFF) | 0x2000
  }

  /// `get_attribute_addr`.
  function AttributeAddr(v: word): word {
    ((Nametable(v) as word) << 10) | (((CoarseY(v) as word) / 4) << 3) | ((CoarseX(v) as word) / 4) | 0x23C0
  }

  /// The attribute byte lies in the attribute table (the last 64 bytes) of
  /// the register's nametable, at row coarse Y / 4 and column coarse X / 4.
  lemma AttributeAddrLayout(v: word)
    ensures var r := AttributeAddr(v);
      r & 0xFC00 == 0x2000 | ((v & 0x0C00)) &&
      r & 0x03C0 == 0x03C0 &&
      (r & 0x38) >> 3 == ((v & 0x03E0) >> 5) / 4 &&
      r & 0x7 == (v & 0x1F) / 4
  {
  }

  /// `get_tile_offset`: tile number × 16 plus fine Y.
  function TileOffset(v: word, tileNumber: byte): word {
    ((tileNumber as word) << 4) | (FineY(v) as word)
  }

  lemma TileOffsetValue(v: word, tileNumber: byte)
    ensures TileOffset(v, tileNumber) == (tileNumber as word) * 16 + (FineY(v) as word)
    ensures FineY(v) < 8
  {
  }

  /// The word after `copy_x(other)`.
  function CopyX(v: word, other: word): word {
    (v & 0xFBE0) | (other & 0x041F)
  }

  /// The word after `copy_y(other)`.
  function CopyY(v: word, other: word): word {
    (v & 0x841F) | (other & 0x7BE0)
  }

  /// `copy_x` takes coarse X and the horizontal nametable bit (bit 10) from
  /// `other`; `copy_y` takes coarse Y, the vertical nametable bit (bit 11)
  /// and fine Y.  Each keeps every other bit, and together they copy the
  /// whole of bits 0-14.
  lemma CopyXFields(v: word, other: word)
    ensures var x := CopyX(v, other);
      CoarseX(x) == CoarseX(other) && x & 0x0400 == other & 0x0400 &&
      CoarseY(x) == CoarseY(v) && x & 0x0800 == v & 0x0800 && FineY(x) == FineY(v) && TopBit(x) == TopBit(v)
  {
  }

  lemma CopyYFields(v: word, other: word)
    ensures var y := CopyY(v, other);
      CoarseY(y) == CoarseY(other) && y & 0x0800 == other & 0x0800 && FineY(y) == FineY(other) &&
      CoarseX(y) == CoarseX(v) && y & 0x0400 == v & 0x0400 && TopBit(y) == TopBit(v)
  {
  }

  lemma CopyBoth(v: word, other: word)
    ensures CopyY(CopyX(v, other), other) == TopBit(v) | (other & 0x7FFF)
  {
    assert CopyX(v, other) & 0x841F == (v & 0x8000) | (other & 0x041F);
  }

  /// The word after `scroll_x`.
  function ScrollX(v: word): word {
    if CoarseX(v) == 0x1F then WithCoarseX(v, 0) ^ 0x0400
    else WithCoarseX(v, CoarseX(v) + 1)
  }

  /// `scroll_x` moves to the next tile column: coarse X counts up, and from
  /// 31 it returns to 0 and switches to the horizontally adjacent
  /// nametable.  Nothing else changes.
  lemma ScrollXFields(v: word)
    ensures var r := ScrollX(v);
      (if CoarseX(v) == 31 then CoarseX(r) == 0 && r & 0x0400 != v & 0x0400
       else CoarseX(r) == CoarseX(v) + 1 && r & 0x0400 == v & 0x0400) &&
      CoarseY(r) == CoarseY(v) && r & 0x0800 == v & 0x0800 && FineY(r) == FineY(v) && TopBit(r) == TopBit(v)
  {
  }

  /// The word after `scroll_y`.
  function ScrollY(v: word): word {
    if FineY(v) < 7 then WithFineY(v, FineY(v) + 1)
    else
      var u := WithFineY(v, 0);
      if CoarseY(u) == 29 then WithCoarseY(u, 0) ^ 0x0800
      else if CoarseY(u) == 31 then WithCoarseY(u, 0)
      else WithCoarseY(u, CoarseY(u) + 1)
  }

  /// `scroll_y` moves to the next pixel row: fine Y counts up to 7; past it
  /// fine Y returns to 0 and coarse Y counts up, except that row 29 (the
  /// last row of tiles) wraps to 0 and switches to the vertically adjacent
  /// nametable, and the out-of-range row 31 wraps to 0 without switching.
  /// Coarse X, bit 10 and bit 15 never change.
  lemma ScrollYFields(v: word)
    ensures var r := ScrollY(v);
      CoarseX(r) == CoarseX(v) && r & 0x0400 == v & 0x0400 && TopBit(r) == TopBit(v) &&
      (FineY(v) < 7 ==> FineY(r) == FineY(v) + 1 && CoarseY(r) == CoarseY(v) && r & 0x0800 == v & 0x0800) &&
      (FineY(v) == 7 ==>
         FineY(r) == 0 &&
         (if CoarseY(v) == 29 then CoarseY(r) == 0 && r & 0x0800 != v & 0x0800
          else if CoarseY(v) == 31 then CoarseY(r) == 0 && r & 0x0800 == v & 0x0800
          else CoarseY(r) == CoarseY(v) + 1 && r & 0x0800 == v & 0x0800))
  {
  }

  /// The value after `increment(inc)`: the word plus `inc`, wrapping at
  /// 16 bits.
  function Incremented(v: word, inc: byte): word {
    v + (inc as word)
  }

  /// `AddrRegister`, its `BitPlane` as the two bytes.
  class AddrRegister {
    var hi: byte
    var lo: byte

    /// `get_all`.
    function GetAll(): word
      reads this
    {
      Join(hi, lo)
    }

    /// `new`: the power-up value 0.
    constructor ()
      ensures GetAll() == 0
    {
      hi, lo := 0, 0;
    }

    /// `set`: high byte from bits 8-15, low byte from bits 0-7.
    method Set(data: word)
      modifies this
      ensures GetAll() == data
    {
      hi := HiByte(data);
      lo := LoByte(data);
      JoinSplit(data);
    }

    /// `increment`: add to the low byte, and carry into the high byte when
    /// the low byte wraps.
    method Increment(inc: byte)
      modifies this
      ensures GetAll() == Incremented(old(GetAll()), inc)
    {
      var newHi, newLo := IncrementBytes(hi, lo, inc);
      hi, lo := newHi, newLo;
    }

    method SetHiByte(value: byte)
      modifies this
      ensures hi == value && lo == old(lo)
    {
      hi := value;
    }

    method SetLoByte(value: byte)
      modifies this
      ensures lo == value && hi == old(hi)
    {
      lo := value;
    }

    method SetCoarseX(value: byte)
      modifies this
      ensures GetAll() == WithCoarseX(old(GetAll()), value)
    {
      Set(WithCoarseX(GetAll(), value));
    }

    method SetCoarseY(value: byte)
      modifies this
      ensures GetAll() == WithCoarseY(old(GetAll()), value)
    {
      Set(WithCoarseY(GetAll(), value));
    }

    method SetNametable(value: byte)
      modifies this
      ensures GetAll() == WithNametable(old(GetAll()), value)
    {
      Set(WithNametable(GetAll(), value));
    }

    method SetFineY(value: byte)
      modifies this
      ensures GetAll() == WithFineY(old(GetAll()), value)
    {
      Set(WithFineY(GetAll(), value));
    }

    method CopyXFrom(other: AddrRegister)
      modifies this
      ensures GetAll() == CopyX(old(GetAll()), old(other.GetAll()))
    {
      Set(CopyX(GetAll(), other.GetAll()));
    }

    method CopyYFrom(other: AddrRegister)
      modifies this
      ensures GetAll() == CopyY(old(GetAll()), old(other.GetAll()))
    {
      Set(CopyY(GetAll(), other.GetAll()));
    }

    /// `scroll_x`, step by step as the source does it.
    method DoScrollX()
      modifies this
      ensures GetAll() == ScrollX(old(GetAll()))
    {
      if CoarseX(GetAll()) == 0x1F {
        SetCoarseX(0);
        Set(GetAll() ^ 0x0400);
      } else {
        var coarseX := CoarseX(GetAll());
        SetCoarseX(coarseX + 1);
      }
    }

    /// `scroll_y`, step by step as the source does it.
    method DoScrollY()
      modifies this
      ensures GetAll() == ScrollY(old(GetAll()))
    {
      var fineY := FineY(GetAll());
      if fineY < 7 {
        SetFineY(fineY + 1);
      } else {
        SetFineY(0);
        var coarseY := CoarseY(GetAll());
        if coarseY == 29 {
          SetCoarseY(0);
          Set(GetAll() ^ 0x0800);
        } else if coarseY == 31 {
          SetCoarseY(0);
        } else {
          SetCoarseY(coarseY + 1);
        }
      }
    }
  }

  /// The byte-wise carry of `increment`: add to the low byte and carry
  /// into the high byte when the low byte wraps, which adds `inc` to the
  /// whole word.
  method IncrementBytes(hi: byte, lo: byte, inc: byte) returns (hi': byte, lo': byte)
    ensures Join(hi', lo') == Incremented(Join(hi, lo), inc)
  {
    IncrementCarry(hi, lo, inc);
    lo' := lo + inc;
    hi' := if lo > lo' then hi + 1 else hi;
  }

  lemma IncrementCarry(hi: byte, lo: byte, inc: byte)
    ensures var lo' := lo + inc;
      var hi' := if lo > lo' then hi + 1 else hi;
      Join(hi', lo') == Join(hi, lo) + (inc as word)
  {
  }
}

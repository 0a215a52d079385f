/// The flat 64 KiB memory of the first-generation emulator (src/memory.rs):
/// one byte array written in place, with single-byte and bulk access.
module FlatMemory {
  import opened Tools

  const MEMORY_SIZE: nat := 0xFFFF + 1

  /// The number of bytes `read_n_bytes(base, num)` returns: it first takes
  /// one off the request, then cuts the run so that it ends at 0xFFFF, and
  /// reads the exclusive range from `base`.
  function ReadCount(base: u16, num: u16): (n: nat)
    requires num >= 1
    ensures n <= num - 1 && base + n <= 0xFFFF
    ensures n == num - 1 || base + n == 0xFFFF
  {
    if base + (num - 1) > 0xFFFF then 0xFFFF - base else num - 1
  }

  /// The number of bytes `write_n_bytes(base, bytes)` stores: the whole
  /// vector unless it would pass 0xFFFF, in which case it is cut to end
  /// just before 0xFFFF.
  function WriteCount(base: u16, len: nat): (n: nat)
    ensures n <= len && base + n <= 0xFFFF
    ensures n == len || base + n == 0xFFFF
  {
    if base + len > 0xFFFF then 0xFFFF - base else len
  }

  class Memory {
    var data: array<byte>

    ghost predicate Valid()
      reads this
    {
      data.Length == MEMORY_SIZE
    }

    /// `new`: 65536 zero bytes.
    constructor ()
      ensures Valid() && fresh(data)
      ensures forall a | 0 <= a < MEMORY_SIZE :: data[a] == 0
    {
      data := new byte[MEMORY_SIZE](_ => 0);
    }

    /// `read_byte`.
    function ReadByte(address: u16): byte
      requires Valid()
      reads this, data
    {
      data[address]
    }

    /// `write_byte`: one cell changes, every other cell keeps its value.
    method WriteByte(address: u16, byte: byte)
      requires Valid()
      modifies data
      ensures Valid()
      ensures data[..] == old(data[..])[address := byte]
    {
      data[address] := byte;
    }

    /// `modify`: one cell becomes `f` of its old value.
    method Modify(address: u16, f: byte -> byte)
      requires Valid()
      modifies data
      ensures Valid()
      ensures data[..] == old(data[..])[address := f(old(data[address]))]
    {
      data[address] := f(data[address]);
    }

    /// `read_n_bytes`: the cells from `base` on, `ReadCount` of them.  A
    /// request of zero bytes underflows and panics.
    method ReadNBytes(base: u16, num: u16) returns (buffer: seq<byte>)
      requires Valid() && num >= 1
      ensures buffer == data[base..base + ReadCount(base, num)]
    {
      var n := num - 1;
      if base + n > 0xFFFF {
        n := 0xFFFF - base;
      }
      buffer := [];
      for address := base to base + n
        invariant buffer == data[base..address]
      {
        buffer := buffer + [data[address]];
      }
    }

    /// `write_n_bytes`: `bytes[i]` goes to `base + i` for the first
    /// `WriteCount` bytes; every other cell keeps its value.
    method WriteNBytes(base: u16, bytes: seq<byte>)
      requires Valid()
      modifies data
      ensures Valid()
      ensures data[..] == Written(old(data[..]), base, bytes)
    {
      var kept := bytes;
      if base + |kept| > 0xFFFF {
        kept := kept[..0xFFFF - base];
      }
      for address := base to base + |kept|
        invariant data[..] == old(data[..])[..base] + kept[..address - base] + old(data[..])[address..]
      {
        data[address] := kept[address - base];
        assert kept[..address + 1 - base] == kept[..address - base] + [kept[address - base]];
      }
      assert kept[..|kept|] == kept;
    }
  }

  /// The memory image `write_n_bytes` leaves.
  function Written(mem: seq<byte>, base: u16, bytes: seq<byte>): (r: seq<byte>)
    requires |mem| == MEMORY_SIZE
    ensures |r| == MEMORY_SIZE
  {
    var n := WriteCount(base, |bytes|);
    mem[..base] + bytes[..n] + mem[base + n..]
  }

  /// After a bulk write, the cell at `base + i` holds `bytes[i]` for every
  /// stored byte, every other cell is unchanged, and 0xFFFF is never
  /// written.
  lemma WrittenCells(mem: seq<byte>, base: u16, bytes: seq<byte>, a: u16)
    requires |mem| == MEMORY_SIZE
    ensures var n := WriteCount(base, |bytes|);
      Written(mem, base, bytes)[a] == if base <= a < base + n then bytes[a - base] else mem[a]
    ensures Written(mem, base, bytes)[0xFFFF] == mem[0xFFFF]
  {
  }

  /// A bulk read returns exactly the stored cells: `ReadCount(base, num)`
  /// bytes starting at `base`, one fewer than requested when the run fits.
  lemma ReadCells(mem: seq<byte>, base: u16, num: u16)
    requires |mem| == MEMORY_SIZE && num >= 1
    ensures var r := mem[base..base + ReadCount(base, num)];
      |r| == ReadCount(base, num) &&
      (base + num <= 0x1_0000 ==> |r| == num - 1) &&
      forall i | 0 <= i < |r| :: r[i] == mem[base + i]
  {
  }

  /// Writing a run and reading it back: when the run ends before 0xFFFF,
  /// reading `|bytes| + 1` bytes from `base` returns the bytes written.
  lemma WriteThenRead(mem: seq<byte>, base: u16, bytes: seq<byte>)
    requires |mem| == MEMORY_SIZE
    requires base + |bytes| < 0xFFFF
    ensures var w := Written(mem, base, bytes);
      w[base..base + ReadCount(base, |bytes| + 1)] == bytes
  {
    var w := Written(mem, base, bytes);
    assert ReadCount(base, |bytes| + 1) == |bytes|;
    assert |mem[..base]| == base;
  }
}

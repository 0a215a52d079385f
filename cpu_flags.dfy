/// The status register `Flags` of nes/src/cpu/mod.rs: a set of eight flags,
/// held as one boolean per flag, with its byte encoding
/// (`bits`/`from_bits_truncate`) for the stack.
module CpuFlags {
  import opened Tools

  datatype Flag =
    | Carry | Zero | InterruptDisable | DecimalMode | Break | Unused | Overflow | Negative

  /// The bit of each flag in the status byte.
  function Mask(f: Flag): (m: byte)
    ensures m != 0 && m & (m - 1) == 0
  {
    match f
    case Carry => 0x01
    case Zero => 0x02
    case InterruptDisable => 0x04
    case DecimalMode => 0x08
    case Break => 0x10
    case Unused => 0x20
    case Overflow => 0x40
    case Negative => 0x80
  }

  datatype Flags = Flags(
    carry: bool,
    zero: bool,
    interruptDisable: bool,
    decimalMode: bool,
    brk: bool,
    unused: bool,
    overflow: bool,
    negative: bool)
  {
    /// `contains`.
    predicate Contains(f: Flag) {
      match f
      case Carry => carry
      case Zero => zero
      case InterruptDisable => interruptDisable
      case DecimalMode => decimalMode
      case Break => brk
      case Unused => unused
      case Overflow => overflow
      case Negative => negative
    }

    /// `set(f, value)`.
    function Set(f: Flag, value: bool): Flags {
      match f
      case Carry => this.(carry := value)
      case Zero => this.(zero := value)
      case InterruptDisable => this.(interruptDisable := value)
      case DecimalMode => this.(decimalMode := value)
      case Break => this.(brk := value)
      case Unused => this.(unused := value)
      case Overflow => this.(overflow := value)
      case Negative => this.(negative := value)
    }

    /// `insert(f)`.
    function Insert(f: Flag): Flags {
      Set(f, true)
    }

    /// `remove(f)`.
    function Remove(f: Flag): Flags {
      Set(f, false)
    }

    /// `bits()`: bit i of the byte is set exactly when the flag at bit i is.
    function Bits(): byte {
      (if carry then 0x01 else 0) | (if zero then 0x02 else 0) |
      (if interruptDisable then 0x04 else 0) | (if decimalMode then 0x08 else 0) |
      (if brk then 0x10 else 0) | (if unused then 0x20 else 0) |
      (if overflow then 0x40 else 0) | (if negative then 0x80 else 0)
    }
  }

  /// `Flags::from_bits_truncate`: every bit of a byte names a flag, so
  /// nothing is truncated.
  function FromBitsTruncate(b: byte): Flags {
    Flags(b & 0x01 != 0, b & 0x02 != 0, b & 0x04 != 0, b & 0x08 != 0,
          b & 0x10 != 0, b & 0x20 != 0, b & 0x40 != 0, b & 0x80 != 0)
  }

  /// `Set` decides the named flag and keeps every other flag.
  lemma SetOnly(fl: Flags, f: Flag, value: bool, g: Flag)
    ensures fl.Set(f, value).Contains(g) == if g == f then value else fl.Contains(g)
  {
  }

  /// A flag is in the set exactly when its bit is in the byte.
  lemma BitsAgree(fl: Flags, f: Flag)
    ensures fl.Contains(f) <==> fl.Bits() & Mask(f) != 0
  {
  }

  /// The byte encoding is a bijection between flag sets and bytes.
  lemma BitsRoundTrip(fl: Flags, b: byte)
    ensures FromBitsTruncate(fl.Bits()) == fl
    ensures FromBitsTruncate(b).Bits() == b
  {
  }

  /// The power-on status 0x24 holds exactly UNUSED and INTERRUPT_DISABLE.
  lemma PowerOnStatus()
    ensures FromBitsTruncate(0x24) == Flags(false, false, true, false, false, true, false, false)
  {
  }
}

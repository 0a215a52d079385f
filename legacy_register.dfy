/// The register file of the first-generation CPU (src/cpu/register.rs):
/// the status byte as a set of bit flags built from eight booleans, and the
/// six registers.
module LegacyRegister {
  import opened Tools

  /// `FlagArgs`: one boolean per status flag.
  datatype FlagArgs = FlagArgs(
    negativeResult: bool,
    overflow: bool,
    unused: bool,
    breakCommand: bool,
    decimalMode: bool,
    interruptDisable: bool,
    zeroResult: bool,
    carry: bool)

  datatype Flag =
    | NegativeResult | Overflow | Unused | BreakCommand
    | DecimalMode | InterruptDisable | ZeroResult | Carry

  /// The bit of each flag in the status byte.
  function Mask(f: Flag): byte {
    match f
    case NegativeResult => 0x80
    case Overflow => 0x40
    case Unused => 0x20
    case BreakCommand => 0x10
    case DecimalMode => 0x08
    case InterruptDisable => 0x04
    case ZeroResult => 0x02
    case Carry => 0x01
  }

  /// The argument that decides a flag.
  predicate Has(args: FlagArgs, f: Flag) {
    match f
    case NegativeResult => args.negativeResult
    case Overflow => args.overflow
    case Unused => args.unused
    case BreakCommand => args.breakCommand
    case DecimalMode => args.decimalMode
    case InterruptDisable => args.interruptDisable
    case ZeroResult => args.zeroResult
    case Carry => args.carry
  }

  /// `FlagArgs::none`: every argument false.
  function NoFlagArgs(): (args: FlagArgs)
    ensures forall f: Flag :: !Has(args, f)
  {
    FlagArgs(false, false, false, false, false, false, false, false)
  }

  /// The status byte `Flags::new` builds: each flag's bit or-ed in when its
  /// argument is set.
  function Encode(args: FlagArgs): byte {
    (if args.negativeResult then 0x80 else 0) | (if args.overflow then 0x40 else 0) |
    (if args.unused then 0x20 else 0) | (if args.breakCommand then 0x10 else 0) |
    (if args.decimalMode then 0x08 else 0) | (if args.interruptDisable then 0x04 else 0) |
    (if args.zeroResult then 0x02 else 0) | (if args.carry then 0x01 else 0)
  }

  /// The arguments a status byte was built from.
  function Decode(b: byte): FlagArgs {
    FlagArgs(b & 0x80 != 0, b & 0x40 != 0, b & 0x20 != 0, b & 0x10 != 0,
             b & 0x08 != 0, b & 0x04 != 0, b & 0x02 != 0, b & 0x01 != 0)
  }

  /// `Flags::new`: start from the empty set and or in each requested flag.
  method New(args: FlagArgs) returns (out: byte)
    ensures out == Encode(args)
  {
    out := 0;
    if args.negativeResult { out := out | 0x80; }
    if args.overflow { out := out | 0x40; }
    if args.unused { out := out | 0x20; }
    if args.breakCommand { out := out | 0x10; }
    if args.decimalMode { out := out | 0x08; }
    if args.interruptDisable { out := out | 0x04; }
    if args.zeroResult { out := out | 0x02; }
    if args.carry { out := out | 0x01; }
  }

  /// A flag's bit is set in the built byte exactly when its argument is.
  lemma EncodeBits(args: FlagArgs, f: Flag)
    ensures Encode(args) & Mask(f) != 0 <==> Has(args, f)
  {
  }

  /// Building a byte and reading its flags back gives the arguments, and
  /// every byte is built from the flags it holds.
  lemma EncodeRoundTrip(args: FlagArgs, b: byte)
    ensures Decode(Encode(args)) == args
    ensures Encode(Decode(b)) == b
  {
  }

  /// `Flags::new(FlagArgs::none())` is the empty set.
  lemma NoFlagsEmpty()
    ensures Encode(NoFlagArgs()) == 0
  {
  }

  /// `Flags::default`: UNUSED and INTERRUPT_DISABLE.
  function Default(): (b: byte)
    ensures b == Mask(Unused) | Mask(InterruptDisable) == 0x24
  {
    Encode(FlagArgs(false, false, true, false, false, true, false, false))
  }

  /// The status register as an object whose byte `and`, `or` and
  /// `set_with_mask` change in place.
  class StatusFlags {
    var bits: byte

    constructor (args: FlagArgs)
      ensures bits == Encode(args)
    {
      bits := Encode(args);
    }

    /// `and`: keep only the flags also in `rhs`.
    method And(rhs: byte)
      modifies this
      ensures bits == old(bits) & rhs
    {
      bits := bits & rhs;
    }

    /// `or`: add the flags of `rhs`.
    method Or(rhs: byte)
      modifies this
      ensures bits == old(bits) | rhs
    {
      bits := bits | rhs;
    }

    /// `set_with_mask`: clear the flags of `mask`, then add those of `rhs`.
    method SetWithMask(mask: byte, rhs: byte)
      modifies this
      ensures bits == MaskedSet(old(bits), mask, rhs)
    {
      bits := (bits & !mask) | rhs;
    }
  }

  /// The byte `set_with_mask` leaves.
  function MaskedSet(current: byte, mask: byte, rhs: byte): byte {
    (current & !mask) | rhs
  }

  /// Bit by bit: a bit of `rhs` is set; otherwise a bit of the mask is
  /// cleared and any other bit keeps its old value.  When `rhs` lies within
  /// the mask, the masked bits become exactly those of `rhs`.
  lemma MaskedSetBits(current: byte, mask: byte, rhs: byte, f: Flag)
    ensures var r := MaskedSet(current, mask, rhs);
      r & Mask(f) == (if rhs & Mask(f) != 0 then Mask(f)
                      else if mask & Mask(f) != 0 then 0
                      else current & Mask(f))
    ensures rhs & !mask == 0 ==> MaskedSet(current, mask, rhs) & mask == rhs
    ensures MaskedSet(current, mask, rhs) & !mask == (current & !mask) | (rhs & !mask)
  {
  }

  /// `Registers`.
  datatype Registers = Registers(
    accumulator: byte,
    indexX: byte,
    indexY: byte,
    stackPointer: byte,
    programCounter: u16,
    flags: byte)

  /// `Registers::new`: every register zero, the stack pointer included, and
  /// the default flags.
  function NewRegisters(): (r: Registers)
    ensures r.accumulator == r.indexX == r.indexY == r.stackPointer == 0
    ensures r.programCounter == 0
    ensures Decode(r.flags) == FlagArgs(false, false, true, false, false, true, false, false)
  {
    Registers(0, 0, 0, 0, 0, Default())
  }
}

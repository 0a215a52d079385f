/// The CPU's architectural state and the helpers of nes/src/cpu/common.rs
/// (stack, registers, arithmetic and status flags), each stated as a
/// function from the state before the call to the state after it.  The
/// class in module CpuMachine updates its fields exactly as these functions
/// say.
module CpuCommon {
  import opened Tools
  import opened CpuBus
  import opened CpuFlags
  import opened Opcode

  /// Base of the stack page and the stack pointer after power-on.
  const STACK: u16 := 0x0100
  const STACK_RESET: u8 := 0xFD

  /// The registers of `CPU` together with the bus it reads and writes: the
  /// bus is the flat memory image and its cycle counter.  The stack pointer
  /// is kept as a number so that stack addresses are plain sums; its
  /// wrap-around is written out by `Dec8` and `Inc8`.
  datatype State = State(
    running: bool,
    a: byte,
    x: byte,
    y: byte,
    sp: u8,
    pc: u16,
    status: Flags,
    isFresh: bool,
    mem: Memory,
    cycles: nat)

  // ---------------------------------------------------------------------
  // Cycles and memory
  // ---------------------------------------------------------------------

  /// `bus.tick(n)`.
  function Tick(s: State, n: nat): State {
    s.(cycles := s.cycles + n)
  }

  /// The extra cycle an instruction pays when forming its address crossed
  /// a page.
  function TickIf(s: State, cross: bool): State {
    if cross then Tick(s, 1) else s
  }

  /// `bus.write(addr, data)`.
  function Write(s: State, addr: u16, data: byte): State {
    s.(mem := s.mem[addr := data])
  }

  /// `opcode.get_operand_address(cpu)` at the current program counter.
  function Operand(s: State, op: OpCode): (u16, bool)
    requires op.mode != Implicit && op.mode != Accumulator
  {
    OperandAddress(op.mode, s.pc, s.x, s.y, s.mem)
  }

  // ---------------------------------------------------------------------
  // Stack
  // ---------------------------------------------------------------------

  /// `u8::wrapping_sub(1)`.
  function Dec8(v: u8): (r: u8)
    ensures r == (v - 1) % 256
  {
    if v == 0 then 0xFF else v - 1
  }

  /// `u8::wrapping_add(1)`.
  function Inc8(v: u8): (r: u8)
    ensures r == (v + 1) % 256
  {
    if v == 0xFF then 0 else v + 1
  }

  /// The wrapping decrement and increment undo each other.
  lemma IncDecInverse(v: u8)
    ensures Inc8(Dec8(v)) == v && Dec8(Inc8(v)) == v
  {
  }

  /// `stack_push`: store at 0x0100 + SP, then decrement SP with wrap.
  function StackPush(s: State, data: byte): State {
    s.(mem := s.mem[STACK + s.sp := data], sp := Dec8(s.sp))
  }

  /// `stack_push_u16`: the high byte first, then the low byte.
  function StackPushU16(s: State, data: u16): State {
    var bytes := U16ToBytes(data);
    StackPush(StackPush(s, bytes[1]), bytes[0])
  }

  /// `stack_pop`: increment SP with wrap, then read at 0x0100 + SP.
  function StackPop(s: State): (byte, State) {
    var sp := Inc8(s.sp);
    (s.mem[STACK + sp], s.(sp := sp))
  }

  /// `stack_pop_u16`: the low byte first, then the high byte.
  function StackPopU16(s: State): (u16, State) {
    var (lo, s1) := StackPop(s);
    var (hi, s2) := StackPop(s1);
    (BytesToU16([lo, hi]), s2)
  }

  /// A pop right after a push returns the pushed byte and restores SP; only
  /// the stack cell written by the push differs from the original state.
  lemma PushThenPop(s: State, data: byte)
    ensures StackPop(StackPush(s, data)).0 == data
    ensures StackPop(StackPush(s, data)).1 == s.(mem := s.mem[STACK + s.sp := data])
  {
  }

  /// A 16-bit value pushed and popped comes back whole, and SP is restored,
  /// whatever else changed in between outside the stack (the program counter
  /// after a JSR, say): `u` is any state with the memory and SP of the push.
  lemma PushThenPopU16(s: State, data: u16, u: State)
    requires u.mem == StackPushU16(s, data).mem && u.sp == StackPushU16(s, data).sp
    ensures StackPopU16(u) == (data, u.(sp := s.sp))
  {
    PushU16Layout(s, data);
    IncDecInverse(s.sp);
    IncDecInverse(Dec8(s.sp));
    var lo, hi := u.mem[STACK + Dec8(s.sp)], u.mem[STACK + s.sp];
    assert StackPop(u) == (lo, u.(sp := Dec8(s.sp)));
    assert StackPop(u.(sp := Dec8(s.sp))) == (hi, u.(sp := s.sp));
    assert lo as int == data % 256 && hi as int == data / 256;
    assert BytesToU16([lo, hi]) == data;
  }

  /// The bytes a push of a 16-bit value leaves on the stack page: the high
  /// byte at SP, the low byte just below it, and nothing else changes.
  lemma PushU16Layout(s: State, data: u16)
    ensures var t := StackPushU16(s, data);
      t.sp == Dec8(Dec8(s.sp)) &&
      t.mem[STACK + s.sp] as int == data / 256 &&
      t.mem[STACK + Dec8(s.sp)] as int == data % 256 &&
      (forall i | 0 <= i < 0x1_0000 && i != STACK + s.sp && i != STACK + Dec8(s.sp) ::
        t.mem[i] == s.mem[i]) &&
      t == s.(mem := t.mem, sp := t.sp)
  {
  }

  // ---------------------------------------------------------------------
  // Status-flag updaters
  // ---------------------------------------------------------------------

  /// `update_flag_if`.
  function UpdateFlagIf(s: State, flag: Flag, condition: bool): State {
    s.(status := s.status.Set(flag, condition))
  }

  /// `update_flags_z`.
  function UpdateFlagsZ(s: State, value: byte): State {
    UpdateFlagIf(s, Zero, value == 0)
  }

  /// `update_flags_n`: bit 7 of the value.
  function UpdateFlagsN(s: State, value: byte): State {
    UpdateFlagIf(s, Negative, value >> 7 == 1)
  }

  /// `update_flags_zn`.
  function UpdateFlagsZN(s: State, value: byte): State {
    UpdateFlagsN(UpdateFlagsZ(s, value), value)
  }

  /// `status` is `before` with Z and N describing `value`.
  predicate ZNOf(status: Flags, before: Flags, value: byte) {
    status == before.(zero := value == 0, negative := value >= 0x80)
  }

  /// Z reports a zero value and N reports bit 7; nothing else changes.
  lemma FlagsZN(s: State, value: byte)
    ensures var t := UpdateFlagsZN(s, value);
      ZNOf(t.status, s.status, value) && t == s.(status := t.status)
  {
    assert value >> 7 == 1 <==> value >= 0x80;
  }

  // ---------------------------------------------------------------------
  // Registers
  // ---------------------------------------------------------------------

  /// `set_accumulator`.
  function SetAccumulator(s: State, value: byte): State {
    UpdateFlagsZN(s.(a := value), value)
  }

  /// `set_index_x`.
  function SetIndexX(s: State, value: byte): State {
    UpdateFlagsZN(s.(x := value), value)
  }

  /// `set_index_y`.
  function SetIndexY(s: State, value: byte): State {
    UpdateFlagsZN(s.(y := value), value)
  }

  /// Each register setter stores the value, reports it in Z and N, and
  /// changes no other register, flag or memory cell.
  lemma SettersChangeOnlyZN(s: State, value: byte)
    ensures var t := SetAccumulator(s, value);
      t == s.(a := value, status := t.status) && ZNOf(t.status, s.status, value)
    ensures var t := SetIndexX(s, value);
      t == s.(x := value, status := t.status) && ZNOf(t.status, s.status, value)
    ensures var t := SetIndexY(s, value);
      t == s.(y := value, status := t.status) && ZNOf(t.status, s.status, value)
  {
    FlagsZN(s.(a := value), value);
    FlagsZN(s.(x := value), value);
    FlagsZN(s.(y := value), value);
  }

  // ---------------------------------------------------------------------
  // Arithmetic
  // ---------------------------------------------------------------------

  /// The carry flag as the number added by ADC.
  function CarryIn(s: State): int {
    if s.status.carry then 1 else 0
  }

  /// `add_to_accumulator`: the 9-bit sum of A, the operand and the carry;
  /// C is its ninth bit, V the overflow test of the source, and the low byte
  /// goes to A through `set_accumulator`.
  function AddToAccumulator(s: State, data: byte): State {
    var sum := s.a as int + data as int + CarryIn(s);
    var result := ToByte(sum % 256);
    var s1 := UpdateFlagIf(s, Carry, sum > 0xFF);
    var s2 := UpdateFlagIf(s1, Overflow, (data ^ result) & (result ^ s.a) & 0x80 != 0);
    SetAccumulator(s2, result)
  }

  /// The signed value of a byte read as `i8`.
  function I8(b: byte): int {
    if b as int < 128 then b as int else b as int - 256
  }

  /// `i8` wrapping arithmetic: the representative of `v` in -128..127.
  function WrapI8(v: int): int {
    (v + 128) % 256 - 128
  }

  /// `((data as i8).wrapping_neg().wrapping_sub(1)) as u8`.
  function NegMinusOne(data: byte): byte {
    var v := WrapI8(WrapI8(-I8(data)) - 1);
    ToByte(v % 256)
  }

  lemma NegMinusOneValue(data: byte)
    ensures WrapI8(WrapI8(-I8(data)) - 1) % 256 == 255 - data as int
  {
  }

  lemma ComplementValue(data: byte)
    ensures (!data) as int == 255 - data as int
  {
  }

  lemma ByteInjective(a: byte, b: byte)
    requires a as int == b as int
    ensures a == b
  {
  }

  /// The source's negate-and-decrement is the one's complement 255 - data.
  lemma NegMinusOneIsComplement(data: byte)
    ensures NegMinusOne(data) as int == 255 - data as int
    ensures NegMinusOne(data) == !data
  {
    NegMinusOneValue(data);
    assert NegMinusOne(data) == ToByte(WrapI8(WrapI8(-I8(data)) - 1) % 256);
    ComplementValue(data);
    ByteInjective(NegMinusOne(data), !data);
  }

  /// `sub_from_accumulator`: ADC of the transformed operand.
  function SubFromAccumulator(s: State, data: byte): State {
    AddToAccumulator(s, NegMinusOne(data))
  }

  /// ADC: A is the sum modulo 256, C reports an unsigned carry out, V the
  /// source's overflow test, Z and N the result; X, Y, SP, PC, memory and
  /// the flags I, D, B and the unused bit do not change.
  lemma AddProperties(s: State, data: byte)
    ensures var t := AddToAccumulator(s, data);
      var sum := s.a as int + data as int + CarryIn(s);
      t.a as int == sum % 256 &&
      t.status == s.status.(carry := sum > 0xFF,
                            overflow := (data ^ t.a) & (t.a ^ s.a) & 0x80 != 0,
                            zero := t.a == 0, negative := t.a >= 0x80) &&
      t == s.(a := t.a, status := t.status)
  {
    AddSum(s, data);
    AddFrame(s, data);
    AddFlags(s, data);
  }

  lemma AddSum(s: State, data: byte)
    ensures AddToAccumulator(s, data).a as int == (s.a as int + data as int + CarryIn(s)) % 256
  {
  }

  lemma AddFrame(s: State, data: byte)
    ensures var t := AddToAccumulator(s, data);
      t == s.(a := t.a, status := t.status) &&
      t.status == s.status.(carry := t.status.carry, overflow := t.status.overflow,
                            zero := t.status.zero, negative := t.status.negative)
  {
  }

  lemma AddFlags(s: State, data: byte)
    ensures var t := AddToAccumulator(s, data);
      t.status.carry == (s.a as int + data as int + CarryIn(s) > 0xFF) &&
      t.status.overflow == ((data ^ t.a) & (t.a ^ s.a) & 0x80 != 0) &&
      t.status.zero == (t.a == 0) && t.status.negative == (t.a >= 0x80)
  {
  }

  /// The bit formula of the overflow flag in terms of sign bits.
  lemma SignBits(a: byte, d: byte, r: byte)
    ensures (d ^ r) & (r ^ a) & 0x80 != 0 <==> ((d >= 0x80) != (r >= 0x80) && (r >= 0x80) != (a >= 0x80))
  {
  }

  lemma SignBridge(a: byte)
    ensures a >= 0x80 <==> a as int >= 128
  {
  }

  /// Two operands of equal sign overflow when the sum's sign differs.
  lemma SignedSum(A: int, D: int, R: int, c: int)
    requires 0 <= A < 256 && 0 <= D < 256 && 0 <= c <= 1 && R == (A + D + c) % 256
    ensures ((D >= 128) != (R >= 128) && (R >= 128) != (A >= 128)) <==>
      !(-128 <= (if A < 128 then A else A - 256) + (if D < 128 then D else D - 256) + c <= 127)
  {
  }

  /// The bit formula of the overflow flag in terms of the operands'
  /// values.
  lemma SignValues(a: byte, d: byte, r: byte)
    ensures (d ^ r) & (r ^ a) & 0x80 != 0 <==>
      ((d as int >= 128) != (r as int >= 128) && (r as int >= 128) != (a as int >= 128))
  {
    SignBits(a, d, r);
    SignBridge(a); SignBridge(d); SignBridge(r);
  }

  /// The overflow formula of the source against the signed sum.
  lemma OverflowBit(a: byte, d: byte, c: int, r: byte)
    requires 0 <= c <= 1
    requires r as int == (a as int + d as int + c) % 256
    ensures (d ^ r) & (r ^ a) & 0x80 != 0 <==> !(-128 <= I8(a) + I8(d) + c <= 127)
  {
    SignValues(a, d, r);
    SignedSum(a as int, d as int, r as int, c);
  }

  /// The overflow flag of ADC is the signed overflow of the 6502: it is set
  /// exactly when the sum of A, the operand and the carry, all read as
  /// signed, falls outside -128..127.
  lemma AddOverflowIsSigned(s: State, data: byte)
    ensures var t := AddToAccumulator(s, data);
      var signed := I8(s.a) + I8(data) + CarryIn(s);
      t.status.overflow <==> !(-128 <= signed <= 127)
  {
    AddProperties(s, data);
    var t := AddToAccumulator(s, data);
    OverflowBit(s.a, data, CarryIn(s), t.a);
  }

  /// SBC subtracts the operand and the borrow (the clear carry): A becomes
  /// A - data - (1 - C) modulo 256 and C reports that no borrow occurred.
  lemma SubProperties(s: State, data: byte)
    ensures var t := SubFromAccumulator(s, data);
      var diff := s.a as int - data as int - (1 - CarryIn(s));
      t.a as int == diff % 256 &&
      (t.status.carry <==> diff >= 0) &&
      t == s.(a := t.a, status := t.status)
  {
    NegMinusOneIsComplement(data);
    AddProperties(s, NegMinusOne(data));
  }

  // ---------------------------------------------------------------------
  // Instruction logic shared by several opcodes
  // ---------------------------------------------------------------------

  /// `branch`: when taken, one cycle, the jump to the relative target and
  /// one more cycle on a page cross; otherwise nothing happens.
  function Branch(s: State, op: OpCode, condition: bool): State
    requires op.mode != Implicit && op.mode != Accumulator
  {
    if condition then
      var s1 := Tick(s, 1);
      var (addr, cross) := Operand(s1, op);
      TickIf(s1, cross).(pc := addr)
    else
      s
  }

  lemma BranchEffect(s: State, op: OpCode, condition: bool)
    requires op.mode != Implicit && op.mode != Accumulator
    ensures !condition ==> Branch(s, op, condition) == s
    ensures condition ==>
      var (addr, cross) := Operand(s, op);
      Branch(s, op, condition) ==
        s.(pc := addr, cycles := s.cycles + 1 + (if cross then 1 else 0))
  {
  }

  /// `compare`: C reports operand <= register, Z and N describe
  /// register - operand, and a page cross costs one cycle.
  function Compare(s: State, op: OpCode, compareWith: byte): State
    requires op.mode != Implicit && op.mode != Accumulator
  {
    var (addr, cross) := Operand(s, op);
    var data := s.mem[addr];
    CompareSteps(s, data, compareWith, cross)
  }

  /// Compare leaves A, X, Y and memory alone; Z is set exactly on equality
  /// and C exactly when the register is not below the operand.
  lemma CompareProperties(s: State, op: OpCode, reg: byte)
    requires op.mode != Implicit && op.mode != Accumulator
    ensures var (addr, cross) := Operand(s, op);
      var data := s.mem[addr];
      var t := Compare(s, op, reg);
      t.status == s.status.(carry := data <= reg, zero := data == reg,
                            negative := reg - data >= 0x80) &&
      t == s.(status := t.status, cycles := s.cycles + (if cross then 1 else 0))
  {
    var (addr, cross) := Operand(s, op);
    CompareStepsProperties(s, s.mem[addr], reg, cross);
  }

  /// The updater chain of `compare` once the operand is fetched.
  function CompareSteps(s: State, data: byte, reg: byte, cross: bool): State {
    TickIf(CompareFlags(s, data, reg), cross)
  }

  /// The flag updates of `compare`: C when the operand is at most the
  /// register, then Z and N of the register minus the operand.
  function CompareFlags(s: State, data: byte, reg: byte): State {
    UpdateFlagsN(UpdateFlagsZ(UpdateFlagIf(s, Carry, data <= reg), reg - data), reg - data)
  }

  lemma CompareStepsProperties(s: State, data: byte, reg: byte, cross: bool)
    ensures var t := CompareSteps(s, data, reg, cross);
      t.status == s.status.(carry := data <= reg, zero := data == reg,
                            negative := reg - data >= 0x80) &&
      t == s.(status := t.status, cycles := s.cycles + (if cross then 1 else 0))
  {
    CompareStepsFrame(s, data, reg, cross);
    CompareStepsStatus(s, data, reg, cross);
    DifferenceSign(data, reg);
    DifferenceZero(reg, data);
  }

  lemma CompareStepsFrame(s: State, data: byte, reg: byte, cross: bool)
    ensures var t := CompareSteps(s, data, reg, cross);
      t == s.(status := t.status, cycles := s.cycles + (if cross then 1 else 0))
  {
  }

  lemma CompareStepsStatus(s: State, data: byte, reg: byte, cross: bool)
    ensures CompareSteps(s, data, reg, cross).status ==
      s.status.(carry := data <= reg, zero := reg - data == 0, negative := (reg - data) >> 7 == 1)
  {
  }

  lemma DifferenceSign(data: byte, reg: byte)
    ensures (reg - data) >> 7 == 1 <==> reg - data >= 0x80
  {
  }

  lemma DifferenceZero(a: byte, b: byte)
    ensures a - b == 0 <==> a == b
  {
  }
}

/// Properties of the instruction arms of `execute_instruction`
/// (nes/src/cpu/mod.rs): each instruction against its partner (its inverse,
/// the official instructions an unofficial one combines, or a reference
/// description of its result).
module CpuProperties {
  import opened Tools
  import opened CpuBus
  import opened CpuFlags
  import opened Opcode
  import opened CpuCommon
  import opened CpuExecute

  /// An operand given by its own bytes (zero page or absolute) whose
  /// address is not one of those bytes, so that a write to it leaves the
  /// address of a following instruction with the same operand bytes alone.
  predicate DirectOperand(s: State, op: OpCode)
  {
    (op.mode == ZeroPage || op.mode == Absolute) &&
    var addr := OperandAddr(s, op);
    addr != s.pc && addr != (s.pc + 1) % 0x1_0000
  }

  /// After a write to a direct operand's address (and any change of
  /// registers other than PC, X and Y), an instruction with the same
  /// operand bytes and mode designates the same address and reads the
  /// written byte, without a page cross.
  lemma OperandAfterWrite(s: State, op: OpCode, t: State, op2: OpCode)
    requires DirectOperand(s, op) && op2.mode == op.mode
    requires t.pc == s.pc
    requires t.mem == s.mem[OperandAddr(s, op) := t.mem[OperandAddr(s, op)]]
    ensures OperandAddr(t, op2) == OperandAddr(s, op)
    ensures ReadOperand(t, op2) == (t.mem[OperandAddr(s, op)], false)
  {
    if op.mode == Absolute {
      ReadU16Frame(t.mem, s.mem, s.pc);
    }
  }

  // ---------------------------------------------------------------------
  // Unofficial read-modify-write opcodes: an official shift or step on
  // memory followed by an official operation on the result.  First on the
  // address, then instruction against instruction.
  // ---------------------------------------------------------------------

  /// SLO is ASL on memory, then ORA of the new byte.
  lemma SloSteps(s: State, addr: u16)
    ensures var u := ShiftMemory(s, addr, true, false);
      ShiftLeftOr(s, addr) == SetAccumulator(u, u.mem[addr] | u.a)
  {
  }

  /// RLA is ROL on memory, then AND of the new byte.
  lemma RlaSteps(s: State, addr: u16)
    ensures var u := ShiftMemory(s, addr, true, true);
      RotateLeftAnd(s, addr) == SetAccumulator(u, u.mem[addr] & u.a)
  {
  }

  /// SRE is LSR on memory, then EOR of the new byte.
  lemma SreSteps(s: State, addr: u16)
    ensures var u := ShiftMemory(s, addr, false, false);
      ShiftRightEor(s, addr) == SetAccumulator(u, u.mem[addr] ^ u.a)
  {
  }

  /// RRA is ROR on memory, then ADC of the new byte with the carry the
  /// rotate produced.
  lemma RraSteps(s: State, addr: u16)
    ensures var u := ShiftMemory(s, addr, false, true);
      RotateRightAdd(s, addr) == AddToAccumulator(u, u.mem[addr])
  {
  }

  /// DCP is DEC on memory, then CMP of A with the new byte; the flags DEC
  /// sets are all overwritten by the comparison.
  lemma DcpSteps(s: State, addr: u16)
    ensures var u := IncDecMemory(s, addr, false);
      DecrementCompare(s, addr) == CompareSteps(u, u.mem[addr], u.a, false)
  {
    var d := s.mem[addr] - 1;
    var w := Write(s, addr, d);
    DecrementedMemory(s, addr);
    CompareFlagsIgnoreZN(w, d == 0, d >> 7 == 1, d, s.a);
  }

  /// DEC on memory: the decremented byte is written, A is kept, and Z and N
  /// describe the new byte.
  lemma DecrementedMemory(s: State, addr: u16)
    ensures var d := s.mem[addr] - 1;
      var u := IncDecMemory(s, addr, false);
      u == UpdateFlagIf(UpdateFlagIf(Write(s, addr, d), Zero, d == 0), Negative, d >> 7 == 1) &&
      u.mem[addr] == d && u.a == s.a
  {
  }

  /// INC on memory: the incremented byte is written and nothing else in
  /// memory changes, registers are kept, and Z and N describe the new byte.
  lemma IncrementedMemory(s: State, addr: u16)
    ensures var d := s.mem[addr] + 1;
      var u := IncDecMemory(s, addr, true);
      ByteValue(d) == (ByteValue(s.mem[addr]) + 1) % 256 &&
      u == s.(mem := s.mem[addr := d], status := u.status) && ZNOf(u.status, s.status, d)
  {
    ByteSucc(s.mem[addr]);
    FlagsZN(Write(s, addr, s.mem[addr] + 1), s.mem[addr] + 1);
  }

  lemma ByteSucc(b: byte)
    ensures ByteValue(b + 1) == (ByteValue(b) + 1) % 256
  {
  }

  /// INC, DEC, INX, INY, DEX and DEY: the memory cell or index register
  /// named moves by one with wrap-around, Z and N describe the new byte, no
  /// cycle is paid for a page cross, and nothing else changes.
  lemma IncDecEffect(s: State, op: OpCode)
    requires op.instruction in {INC, DEC, INX, INY, DEX, DEY}
    requires op.instruction in {INC, DEC} ==> op.mode != Implicit && op.mode != Accumulator
    ensures var t := IncDec(s, op);
      op.instruction in {INC, DEC} ==>
        var addr := OperandAddr(s, op);
        var d := if op.instruction == INC then s.mem[addr] + 1 else s.mem[addr] - 1;
        t == s.(mem := s.mem[addr := d], status := t.status) && ZNOf(t.status, s.status, d)
    ensures var t := IncDec(s, op);
      op.instruction in {INX, DEX} ==>
        var d := if op.instruction == INX then s.x + 1 else s.x - 1;
        t == s.(x := d, status := t.status) && ZNOf(t.status, s.status, d)
    ensures var t := IncDec(s, op);
      op.instruction in {INY, DEY} ==>
        var d := if op.instruction == INY then s.y + 1 else s.y - 1;
        t == s.(y := d, status := t.status) && ZNOf(t.status, s.status, d)
  {
    match op.instruction
    case INC => IncrementedMemory(s, OperandAddr(s, op));
    case DEC =>
      var addr := OperandAddr(s, op);
      FlagsZN(Write(s, addr, s.mem[addr] - 1), s.mem[addr] - 1);
    case INX => SettersChangeOnlyZN(s, s.x + 1);
    case DEX => SettersChangeOnlyZN(s, s.x - 1);
    case INY => SettersChangeOnlyZN(s, s.y + 1);
    case DEY => SettersChangeOnlyZN(s, s.y - 1);
  }

  /// Z and N set before a comparison do not survive it.
  lemma CompareFlagsIgnoreZN(w: State, z: bool, n: bool, data: byte, reg: byte)
    ensures CompareFlags(UpdateFlagIf(UpdateFlagIf(w, Zero, z), Negative, n), data, reg) ==
      CompareFlags(w, data, reg)
  {
    FlagsOverwritten(w.status, data <= reg, z, n, reg - data == 0, (reg - data) >> 7 == 1);
  }

  lemma FlagsOverwritten(f: Flags, c: bool, z: bool, n: bool, z2: bool, n2: bool)
    ensures f.Set(Zero, z).Set(Negative, n).Set(Carry, c).Set(Zero, z2).Set(Negative, n2) ==
      f.Set(Carry, c).Set(Zero, z2).Set(Negative, n2)
  {
  }

  /// ISC is INC on memory, then SBC of the new byte.
  lemma IscSteps(s: State, addr: u16)
    ensures var u := IncDecMemory(s, addr, true);
      IncrementSubtract(s, addr) == SubFromAccumulator(u, u.mem[addr])
  {
  }

  // ---------------------------------------------------------------------
  // The read, shift and unofficial arms against a description of their
  // result in numbers: what each register, flag and memory cell becomes,
  // and that nothing else changes.
  // ---------------------------------------------------------------------

  /// The byte a shift or rotate leaves, in byte arithmetic (modulo 256):
  /// doubled or halved, with the filled-in bit worth 1 on the right or 0x80
  /// on the left; the bit moved out is bit 7 going left and bit 0 going
  /// right.
  lemma ShiftedValue(data: byte, left: bool, fill: bool)
    ensures Shifted(data, left, fill) ==
      if left then data * 2 + (if fill then 1 else 0) else data / 2 + (if fill then 0x80 else 0)
    ensures ShiftedOut(data, left) == if left then data >= 0x80 else data % 2 == 1
  {
  }

  /// ASL, LSR, ROL and ROR on A: C gets the bit shifted out, the rotates
  /// fill the vacated bit with the old C, Z and N describe the new A, and
  /// nothing else changes.
  lemma ShiftAccumulatorEffect(s: State, left: bool, rotate: bool)
    ensures var r := Shifted(s.a, left, rotate && s.status.carry);
      ShiftAccumulator(s, left, rotate) ==
        s.(a := r, status := s.status.(carry := ShiftedOut(s.a, left), zero := r == 0, negative := r >= 0x80))
  {
    var r := Shifted(s.a, left, rotate && s.status.carry);
    FlagsZN(UpdateFlagIf(s, Carry, ShiftedOut(s.a, left)).(a := r), r);
  }

  /// ASL and LSR on memory: the byte at `addr` is shifted, C gets the bit
  /// moved out, Z and N describe the new byte, and A and the other cells
  /// do not change.
  lemma ShiftMemoryEffect(s: State, addr: u16, left: bool)
    ensures var data := s.mem[addr];
      var r := Shifted(data, left, false);
      ShiftMemory(s, addr, left, false) ==
        s.(mem := s.mem[addr := r],
           status := s.status.(carry := ShiftedOut(data, left), zero := r == 0, negative := r >= 0x80))
  {
    var data := s.mem[addr];
    ShiftWritten(s, addr, Shifted(data, left, false), ShiftedOut(data, left));
  }

  /// ROL and ROR on memory: the byte at `addr` is rotated through C, so
  /// the old C fills the vacated bit and C gets the bit moved out; N
  /// describes the new byte but Z is kept, and A and the other cells do
  /// not change.
  lemma RotateMemoryEffect(s: State, addr: u16, left: bool)
    ensures var data := s.mem[addr];
      var r := Shifted(data, left, s.status.carry);
      ShiftMemory(s, addr, left, true) ==
        s.(mem := s.mem[addr := r],
           status := s.status.(carry := ShiftedOut(data, left), negative := r >= 0x80))
  {
    var data := s.mem[addr];
    RotateWritten(s, addr, Shifted(data, left, s.status.carry), ShiftedOut(data, left));
  }

  /// ROL and ROR on memory after the byte is shifted: C gets the bit moved
  /// out, the new byte `r` is written, N describes it and Z is kept.
  lemma RotateWritten(s: State, addr: u16, r: byte, out: bool)
    ensures var t := UpdateFlagsN(Write(UpdateFlagIf(s, Carry, out), addr, r), r);
      t.mem == s.mem[addr := r] &&
      t.status == s.status.(carry := out, negative := r >= 0x80) &&
      t == s.(mem := t.mem, status := t.status)
  {
    assert r >> 7 == 1 <==> r >= 0x80;
  }

  /// ASL and LSR on memory after the byte is shifted: C gets the bit moved
  /// out, the new byte `r` is written and Z and N describe it.
  lemma ShiftWritten(s: State, addr: u16, r: byte, out: bool)
    ensures var t := UpdateFlagsZN(Write(UpdateFlagIf(s, Carry, out), addr, r), r);
      t.mem == s.mem[addr := r] &&
      t.status == s.status.(carry := out, zero := r == 0, negative := r >= 0x80) &&
      t == s.(mem := t.mem, status := t.status)
  {
    FlagsZN(Write(UpdateFlagIf(s, Carry, out), addr, r), r);
  }

  /// A rotate left then right by one gives the byte back, and the bit the
  /// second moves out is the carry the first shifted in.
  lemma RotateBack(a: byte, c: bool)
    ensures var r := Shifted(a, true, c);
      Shifted(r, false, ShiftedOut(a, true)) == a && ShiftedOut(r, false) == c
  {
  }

  /// ROR on A undoes ROL on A: A and C come back, and Z and N describe A.
  lemma RotateAccumulatorRoundTrip(s: State)
    ensures var t := ShiftAccumulator(ShiftAccumulator(s, true, true), false, true);
      t == s.(status := s.status.(zero := s.a == 0, negative := s.a >= 0x80))
  {
    var u := ShiftAccumulator(s, true, true);
    ShiftAccumulatorEffect(s, true, true);
    ShiftAccumulatorEffect(u, false, true);
    RotateBack(s.a, s.status.carry);
  }

  /// ROR on memory undoes ROL on memory: the byte and C come back, N
  /// describes the byte and Z is left as it was.
  lemma RotateMemoryRoundTrip(s: State, addr: u16)
    ensures var t := ShiftMemory(ShiftMemory(s, addr, true, true), addr, false, true);
      t == s.(status := s.status.(negative := s.mem[addr] >= 0x80))
  {
    var u := ShiftMemory(s, addr, true, true);
    RotateMemoryEffect(s, addr, true);
    RotateMemoryEffect(u, addr, false);
    RotateBack(s.mem[addr], s.status.carry);
    assert u.mem[addr := s.mem[addr]] == s.mem;
  }

  /// ADC and SBC (and the unofficial SBC_NOP, which is SBC) on the byte at
  /// the operand's address: A is the sum with the carry, or the difference
  /// with the borrow, modulo 256; C reports the carry out, or that no borrow
  /// occurred; X, Y, SP, the program counter and memory are kept; ADC and
  /// SBC pay one cycle exactly on a page cross, SBC_NOP never.
  lemma ArithmeticEffect(s: State, op: OpCode)
    requires op.mode != Implicit && op.mode != Accumulator
    requires op.instruction in {ADC, SBC, SBC_NOP}
    ensures var (data, cross) := ReadOperand(s, op);
      var t := Arithmetic(s, op);
      t == s.(a := t.a, status := t.status,
              cycles := s.cycles + if cross && op.instruction != SBC_NOP then 1 else 0) &&
      SumOrDifference(s, data, op.instruction == ADC, t.a, t.status.carry)
  {
    var (data, cross) := ReadOperand(s, op);
    var add := op.instruction == ADC;
    var core := if add then AddToAccumulator(s, data) else SubFromAccumulator(s, data);
    ArithmeticCore(s, data, add, core);
    assert Arithmetic(s, op) == TickIf(core, cross && op.instruction != SBC_NOP);
  }

  /// A and C after ADC (`add`) or SBC of `data`: the sum with the carry
  /// modulo 256 and its carry out, or the difference with the borrow modulo
  /// 256 and whether no borrow occurred.
  predicate SumOrDifference(s: State, data: byte, add: bool, a: byte, carry: bool) {
    var sum := s.a as int + data as int + CarryIn(s);
    var diff := s.a as int - data as int - (1 - CarryIn(s));
    if add then a as int == sum % 256 && (carry <==> sum > 0xFF)
    else a as int == diff % 256 && (carry <==> diff >= 0)
  }

  lemma ArithmeticCore(s: State, data: byte, add: bool, core: State)
    requires core == if add then AddToAccumulator(s, data) else SubFromAccumulator(s, data)
    ensures core == s.(a := core.a, status := core.status)
    ensures SumOrDifference(s, data, add, core.a, core.status.carry)
  {
    if add {
      AddProperties(s, data);
    } else {
      SubProperties(s, data);
    }
  }

  /// LDA, LDX, LDY and LAX: the operand goes to A, X, Y, or to both A and
  /// X for LAX, Z and N describe it, a page cross costs one cycle, and
  /// nothing else changes.
  lemma LoadEffect(s: State, op: OpCode)
    requires op.mode != Implicit && op.mode != Accumulator
    requires op.instruction in {LDA, LDX, LDY, LAX}
    ensures var (data, cross) := ReadOperand(s, op);
      var t := Load(s, op);
      t == s.(a := if op.instruction in {LDA, LAX} then data else s.a,
              x := if op.instruction in {LDX, LAX} then data else s.x,
              y := if op.instruction == LDY then data else s.y,
              status := t.status, cycles := s.cycles + if cross then 1 else 0) &&
      ZNOf(t.status, s.status, data)
  {
    var (data, cross) := ReadOperand(s, op);
    LoadStepsEffect(s, op.instruction, data, cross);
  }

  /// A load once the operand is read: the register or registers it names
  /// get the byte and Z and N describe it.
  lemma LoadStepsEffect(s: State, instruction: Instruction, data: byte, cross: bool)
    requires instruction in {LDA, LDX, LDY, LAX}
    ensures var t := LoadSteps(s, instruction, data, cross);
      t == s.(a := if instruction in {LDA, LAX} then data else s.a,
              x := if instruction in {LDX, LAX} then data else s.x,
              y := if instruction == LDY then data else s.y,
              status := t.status, cycles := s.cycles + if cross then 1 else 0) &&
      ZNOf(t.status, s.status, data)
  {
    SettersChangeOnlyZN(s, data);
  }

  /// AND, EOR and ORA: A becomes the operand ANDed, XORed or ORed with A
  /// (`LogicResult`), Z and N describe it, a page cross costs one cycle,
  /// and nothing else changes.
  lemma LogicEffect(s: State, op: OpCode)
    requires op.mode != Implicit && op.mode != Accumulator
    requires op.instruction in {AND, EOR, ORA}
    ensures var (data, cross) := ReadOperand(s, op);
      var r := LogicResult(op.instruction, data, s.a);
      var t := Logic(s, op);
      t == s.(a := r, status := t.status, cycles := s.cycles + if cross then 1 else 0) &&
      ZNOf(t.status, s.status, r)
  {
    var (data, cross) := ReadOperand(s, op);
    AccumulatorThenTick(s, LogicResult(op.instruction, data, s.a), cross);
  }

  /// Setting A and then paying for a page cross.
  lemma AccumulatorThenTick(s: State, r: byte, cross: bool)
    ensures var t := TickIf(SetAccumulator(s, r), cross);
      t == s.(a := r, status := t.status, cycles := s.cycles + if cross then 1 else 0) &&
      ZNOf(t.status, s.status, r)
  {
    SettersChangeOnlyZN(s, r);
  }

  /// A second AND or ORA with the same operand leaves A as the first left
  /// it, and a second EOR gives the original A back: the operand is read
  /// from the same address, which the first did not change.
  lemma LogicTwice(s: State, op: OpCode)
    requires op.mode != Implicit && op.mode != Accumulator
    requires op.instruction in {AND, EOR, ORA}
    ensures var u := Logic(s, op);
      Logic(u, op).a == if op.instruction == EOR then s.a else u.a
  {
    var u := Logic(s, op);
    LogicEffect(s, op);
    LogicEffect(u, op);
    assert Operand(u, op) == Operand(s, op);
  }

  /// BIT: Z reports whether A and the operand share no set bit, N and V
  /// copy bits 7 and 6 of the operand, and nothing else changes: no
  /// register, no memory and no cycle for a page cross.
  lemma BitEffect(s: State, op: OpCode)
    requires op.mode != Implicit && op.mode != Accumulator
    ensures var data := ReadOperand(s, op).0;
      Bit(s, op) ==
        s.(status := s.status.(zero := s.a & data == 0, negative := data >= 0x80,
                               overflow := data & 0x40 != 0))
  {
  }

  /// NOP, and NOP_ALT without an operand, change nothing; NOP_ALT with an
  /// operand changes only the cycle count, by one exactly on a page cross.
  lemma NoOperationEffect(s: State, op: OpCode)
    requires op.instruction in {NOP, NOP_ALT}
    requires op.instruction == NOP_ALT ==> op.mode != Accumulator
    ensures var t := NoOperation(s, op);
      t == s.(cycles := t.cycles) &&
      (t.cycles == s.cycles + 1 <==>
        op.instruction == NOP_ALT && op.mode != Implicit && Operand(s, op).1) &&
      s.cycles <= t.cycles <= s.cycles + 1
  {
  }

  /// ANC, ALR, ARR, XAA and AXS: what each does with the operand is
  /// `ImmediateStepsEffect`; they pay nothing for a page cross.
  lemma ImmediateUnofficialEffect(s: State, op: OpCode)
    requires op.mode != Implicit && op.mode != Accumulator
    requires op.instruction in {ANC, ALR, ARR, XAA, AXS}
    ensures ImmediateUnofficial(s, op) == ImmediateSteps(s, op.instruction, ReadOperand(s, op).0)
    ensures ImmediateUnofficial(s, op).cycles == s.cycles
  {
    ImmediateStepsEffect(s, op.instruction, ReadOperand(s, op).0);
  }

  /// ANC: A becomes the operand AND A, Z and N describe it and C copies N.
  /// ALR: the operand AND A, halved, goes to A; C gets the bit shifted out,
  /// Z describes the result and N is clear.  ARR: the operand AND A is
  /// rotated right through the old C into A; C then copies bit 6 of A and
  /// V reports whether bits 6 and 5 differ.  XAA: A becomes the operand
  /// AND X.  AXS: X becomes A AND X minus the operand, wrapping, so that
  /// adding the operand back gives A AND X; C reports that the subtraction
  /// did not borrow.  Z and N describe the register written, and nothing
  /// else changes.
  lemma ImmediateStepsEffect(s: State, instruction: Instruction, data: byte)
    requires instruction in {ANC, ALR, ARR, XAA, AXS}
    ensures var t := ImmediateSteps(s, instruction, data);
      match instruction
      case ANC =>
        var r := data & s.a;
        t == s.(a := r, status := s.status.(carry := r >= 0x80, zero := r == 0, negative := r >= 0x80))
      case ALR =>
        var d := data & s.a;
        var r := d / 2;
        t == s.(a := r, status := s.status.(carry := d % 2 == 1, zero := r == 0, negative := false))
      case ARR =>
        var r := RotateRight(data & s.a, s.status.carry);
        t == s.(a := r, status := s.status.(carry := r & 0x40 != 0,
                                            overflow := (r & 0x40 != 0) != (r & 0x20 != 0),
                                            zero := r == 0, negative := r >= 0x80))
      case XAA =>
        var r := data & s.x;
        t == s.(a := r, status := s.status.(zero := r == 0, negative := r >= 0x80))
      case AXS =>
        var m := s.a & s.x;
        var r := m - data;
        r + data == m &&
        t == s.(x := r, status := s.status.(carry := data <= m, zero := r == 0, negative := r >= 0x80))
  {
    match instruction
    case ANC => AncSteps(s, data);
    case ALR => AlrSteps(s, data);
    case ARR => ArrSteps(s, data);
    case XAA => SettersChangeOnlyZN(s, data & s.x);
    case AXS => AxsSteps(s, data);
  }

  /// ANC in full: C copies the N that the new A sets.
  lemma AncSteps(s: State, data: byte)
    ensures var r := data & s.a;
      AndCarry(s, data) ==
        s.(a := r, status := s.status.(carry := r >= 0x80, zero := r == 0, negative := r >= 0x80))
  {
    var r := data & s.a;
    var s1 := SetAccumulator(s, r);
    SettersChangeOnlyZN(s, r);
    var t := UpdateFlagIf(s1, Carry, s1.status.negative);
    assert t.status == s1.status.(carry := r >= 0x80);
  }

  /// ALR in full: the masked byte halved, C the bit shifted out, N clear.
  lemma AlrSteps(s: State, data: byte)
    ensures var d := data & s.a;
      var r := d / 2;
      AndShiftRight(s, data) ==
        s.(a := r, status := s.status.(carry := d % 2 == 1, zero := r == 0, negative := false))
  {
    var d := data & s.a;
    assert (d & 1 == 1) == (d % 2 == 1);
    assert d >> 1 == d / 2 && d / 2 < 0x80;
    CarryThenAccumulator(s, d % 2 == 1, d / 2);
  }

  /// Setting C and then A: Z and N describe the new A.
  lemma CarryThenAccumulator(s: State, c: bool, r: byte)
    ensures SetAccumulator(UpdateFlagIf(s, Carry, c), r) ==
      s.(a := r, status := s.status.(carry := c, zero := r == 0, negative := r >= 0x80))
  {
    var u := UpdateFlagIf(s, Carry, c);
    assert u == s.(status := s.status.(carry := c));
    FlagsZN(u.(a := r), r);
  }

  /// ARR in full: the masked byte rotated right through C into A.
  lemma ArrSteps(s: State, data: byte)
    ensures var r := RotateRight(data & s.a, s.status.carry);
      AndRotateRight(s, data) ==
        s.(a := r, status := s.status.(carry := r & 0x40 != 0,
                                       overflow := (r & 0x40 != 0) != (r & 0x20 != 0),
                                       zero := r == 0, negative := r >= 0x80))
  {
    RotateRightIntoAEffect(s, data & s.a);
  }

  /// ARR after the mask: the rotate sets C from bit 0 first, then the
  /// ARR flag rule overwrites C and V from bits 6 and 5 of the result.
  lemma RotateRightIntoAEffect(s: State, d: byte)
    ensures var r := RotateRight(d, s.status.carry);
      RotateRightIntoA(s, d) ==
        s.(a := r, status := s.status.(carry := r & 0x40 != 0,
                                       overflow := (r & 0x40 != 0) != (r & 0x20 != 0),
                                       zero := r == 0, negative := r >= 0x80))
  {
    var r := RotateRight(d, s.status.carry);
    CarryThenAccumulator(s, d & 1 == 1, r);
    ArrFlagsEffect(SetAccumulator(UpdateFlagIf(s, Carry, d & 1 == 1), r), r);
  }

  /// `RotateRight` moves every bit down one place and puts the carry in
  /// bit 7; the bit that falls out is bit 0.
  lemma RotateRightValue(d: byte, c: bool)
    ensures RotateRight(d, c) == d / 2 + (if c then 0x80 else 0)
    ensures (d & 1 == 1) == (d % 2 == 1)
  {
  }

  /// The ARR flag rule: C is bit 6 and V is bit 6 XOR bit 5.
  lemma ArrFlagsEffect(s: State, r: byte)
    ensures ArrFlags(s, r) ==
      s.(status := s.status.(carry := r & 0x40 != 0, overflow := (r & 0x40 != 0) != (r & 0x20 != 0)))
  {
    assert ((r >> 6) & 1 == 1) == (r & 0x40 != 0);
    assert (((r >> 5) & 1) ^ ((r >> 6) & 1) == 1) == ((r & 0x40 != 0) != (r & 0x20 != 0));
    CarryThenOverflow(s, r & 0x40 != 0, (r & 0x40 != 0) != (r & 0x20 != 0));
  }

  /// Setting C and then V touches nothing else.
  lemma CarryThenOverflow(s: State, c: bool, v: bool)
    ensures UpdateFlagIf(UpdateFlagIf(s, Carry, c), Overflow, v) ==
      s.(status := s.status.(carry := c, overflow := v))
  {
  }

  /// AXS in full: X gets (A AND X) minus the operand.
  lemma AxsSteps(s: State, data: byte)
    ensures var m := s.x & s.a;
      var r := m - data;
      r + data == m &&
      AndSubtractX(s, data) ==
        s.(x := r, status := s.status.(carry := data <= m, zero := r == 0, negative := r >= 0x80))
  {
    SubtractIntoXEffect(s, s.x & s.a, data);
  }

  /// Subtracting `data` from `m` into X without borrow-in: C reports
  /// that no borrow happened and Z and N describe X.
  lemma SubtractIntoXEffect(s: State, m: byte, data: byte)
    ensures var r := m - data;
      r + data == m &&
      SubtractIntoX(s, m, data) ==
        s.(x := r, status := s.status.(carry := data <= m, zero := r == 0, negative := r >= 0x80))
  {
    CarryThenIndexX(s, data <= m, m - data);
  }

  /// Setting C and then X as AXS does: Z and N describe the new X.
  lemma CarryThenIndexX(s: State, c: bool, r: byte)
    ensures UpdateFlagsZN(UpdateFlagIf(s, Carry, c), r).(x := r) ==
      s.(x := r, status := s.status.(carry := c, zero := r == 0, negative := r >= 0x80))
  {
    var u := UpdateFlagIf(s, Carry, c);
    assert u == s.(status := s.status.(carry := c));
    FlagsZN(u, r);
  }

  /// SHY: Y masked with the operand's high byte plus one is stored, so the
  /// byte is never above Y; no register, flag or other cell changes.
  lemma ShyEffect(s: State, op: OpCode)
    requires op.mode != Implicit && op.mode != Accumulator
    requires op.instruction == SHY
    requires OperandAddr(s, op) / 256 < 0xFF
    ensures s.y & HighPlusOne(OperandAddr(s, op)) <= s.y
    ensures StoreHigh(s, op) == s.(mem := s.mem[OperandAddr(s, op) := s.y & HighPlusOne(OperandAddr(s, op))])
  {
    assert StoreHigh(s, op) == Write(s, OperandAddr(s, op), s.y & HighPlusOne(OperandAddr(s, op)));
    StoreMaskedEffect(s, s.y, OperandAddr(s, op));
  }

  /// SHX: as SHY with X.
  lemma ShxEffect(s: State, op: OpCode)
    requires op.mode != Implicit && op.mode != Accumulator
    requires op.instruction == SHX
    requires OperandAddr(s, op) / 256 < 0xFF
    ensures s.x & HighPlusOne(OperandAddr(s, op)) <= s.x
    ensures StoreHigh(s, op) == s.(mem := s.mem[OperandAddr(s, op) := s.x & HighPlusOne(OperandAddr(s, op))])
  {
    assert StoreHigh(s, op) == Write(s, OperandAddr(s, op), s.x & HighPlusOne(OperandAddr(s, op)));
    StoreMaskedEffect(s, s.x, OperandAddr(s, op));
  }

  /// TAS: A AND X goes to SP and, masked with the operand's high byte plus
  /// one, to memory; no flag and no other cell changes.
  lemma TasEffect(s: State, op: OpCode)
    requires op.mode != Implicit && op.mode != Accumulator
    requires op.instruction == TAS
    requires OperandAddr(s, op) / 256 < 0xFF
    ensures StoreHigh(s, op) ==
      s.(sp := ByteValue(s.a & s.x),
         mem := s.mem[OperandAddr(s, op) := (s.a & s.x) & HighPlusOne(OperandAddr(s, op))])
  {
    var addr := OperandAddr(s, op);
    assert StoreHigh(s, op) == StoreHighAt(s, TAS, addr);
    assert StoreHighAt(s, TAS, addr) == StackThenStore(s, s.a & s.x, addr);
    StackThenStoreEffect(s, s.a & s.x, addr);
  }

  /// SHX and SHY after the address: the masked byte is stored and is
  /// never above the register it came from.
  lemma StoreMaskedEffect(s: State, reg: byte, addr: u16)
    requires addr / 256 < 0xFF
    ensures var v := reg & HighPlusOne(addr);
      v <= reg && Write(s, addr, v) == s.(mem := s.mem[addr := v])
  {
    MaskAtMost(reg, HighPlusOne(addr));
  }

  /// TAS after the address: SP gets the mask and memory the masked byte,
  /// which is never above it.
  lemma StackThenStoreEffect(s: State, m: byte, addr: u16)
    requires addr / 256 < 0xFF
    ensures var v := m & HighPlusOne(addr);
      v <= m && StackThenStore(s, m, addr) == s.(sp := ByteValue(m), mem := s.mem[addr := v])
  {
    MaskAtMost(m, HighPlusOne(addr));
    AndCommutes(HighPlusOne(addr), m);
  }

  /// Byte AND does not depend on the order of its operands.
  lemma AndCommutes(a: byte, b: byte)
    ensures a & b == b & a
  {
  }

  /// Masking a byte never makes it larger.
  lemma MaskAtMost(reg: byte, mask: byte)
    ensures reg & mask <= reg && reg & mask <= mask
  {
  }

  /// LAS: the operand AND SP goes to A, X and SP together, so SP never
  /// grows; Z and N describe it; no cycle is paid for a page cross.
  lemma LoadMaskedStackEffect(s: State, op: OpCode)
    requires op.mode != Implicit && op.mode != Accumulator
    ensures ReadOperand(s, op).0 & ToByte(s.sp) <= ToByte(s.sp)
    ensures LoadMaskedStack(s, op) ==
      s.(a := ReadOperand(s, op).0 & ToByte(s.sp), x := ReadOperand(s, op).0 & ToByte(s.sp),
         sp := ByteValue(ReadOperand(s, op).0 & ToByte(s.sp)),
         status := s.status.(zero := ReadOperand(s, op).0 & ToByte(s.sp) == 0,
                             negative := ReadOperand(s, op).0 & ToByte(s.sp) >= 0x80))
  {
    var v := ReadOperand(s, op).0 & ToByte(s.sp);
    assert LoadMaskedStack(s, op) == TransferToAXS(s, v);
    TransferToAXSEffect(s, v);
    MaskAtMost(ReadOperand(s, op).0, ToByte(s.sp));
  }

  /// One byte into A, X and SP, with Z and N describing it.
  lemma TransferToAXSEffect(s: State, v: byte)
    ensures TransferToAXS(s, v) ==
      s.(a := v, x := v, sp := ByteValue(v), status := s.status.(zero := v == 0, negative := v >= 0x80))
  {
    FlagsZN(s.(a := v, x := v, sp := ByteValue(v)), v);
  }

}

/// The instruction semantics of nes/src/cpu/mod.rs as functions on the CPU
/// state: power-on, reset, interrupt entry, every arm of
/// `execute_instruction` and one iteration of the run loop.  The class in
/// module CpuMachine performs these updates in place.
module CpuExecute {
  import opened Tools
  import opened CpuBus
  import opened CpuFlags
  import opened Opcode
  import opened CpuCommon

  // ---------------------------------------------------------------------
  // Interrupts (nes/src/cpu/interrupt.rs)
  // ---------------------------------------------------------------------

  datatype InterruptType = Nmi | Irq | Brk | Php

  /// An interrupt kind, the vector its handler address is read from and the
  /// cycles its entry costs.
  datatype Interrupt = Interrupt(itype: InterruptType, vectorAddr: u16, cpuCycles: nat)

  const NMI_INTERRUPT: Interrupt := Interrupt(Nmi, 0xFFFA, 2)
  const IRQ_INTERRUPT: Interrupt := Interrupt(Irq, 0xFFFE, 1)
  const BRK_INTERRUPT: Interrupt := Interrupt(Brk, 0xFFFA, 0)
  const PHP_INTERRUPT: Interrupt := Interrupt(Php, 0xFFFA, 0)

  /// The address of the stack cell SP designates.
  function StackCell(sp: u8): u16 {
    STACK + sp
  }

  // ---------------------------------------------------------------------
  // Power-on, reset and interrupt entry
  // ---------------------------------------------------------------------

  /// `CPU::new`: registers cleared, SP at 0xFD, status 0x24, the program
  /// counter from the reset vector, not running and not yet started.
  function PowerOn(mem: Memory, cycles: nat): (s: State)
    ensures s.a == 0 && s.x == 0 && s.y == 0 && s.sp == STACK_RESET
    ensures s.status == Flags(false, false, true, false, false, true, false, false)
    ensures s.pc == ReadU16(mem, 0xFFFC) && !s.running && s.isFresh
    ensures s.mem == mem && s.cycles == cycles
  {
    PowerOnStatus();
    State(false, 0, 0, 0, STACK_RESET, ReadU16(mem, 0xFFFC), FromBitsTruncate(0x24), true,
          mem, cycles)
  }

  /// `reset`: SP drops by three (the `-=` on a `u8` panics below 3, which
  /// callers must avoid), U and I are set, the program counter is reloaded
  /// from the reset vector and seven cycles pass.
  function Reset(s: State): State
    requires s.sp >= 3
  {
    var s1 := s.(sp := s.sp - 3, status := s.status.Insert(Unused).Insert(InterruptDisable));
    var s2 := s1.(pc := ReadU16(s1.mem, 0xFFFC), isFresh := false);
    Tick(s2, 7)
  }

  function SpMinus3(sp: u8): u8 { Dec8(Dec8(Dec8(sp))) }

  /// The status byte an interrupt pushes: the current flags with B set only
  /// for a BRK and U always set.
  function PushedStatus(status: Flags, itype: InterruptType): Flags {
    status.Set(Break, itype == Brk).Insert(Unused)
  }

  /// `interrupt`: push the program counter and the status byte, set I, pay
  /// the interrupt's cycles and jump through its vector.
  function EnterInterrupt(s: State, i: Interrupt): State {
    var s2 := PushReturnFrame(s, i.itype);
    var s3 := Tick(s2.(status := s2.status.Insert(InterruptDisable)), i.cpuCycles);
    s3.(pc := ReadU16(s3.mem, i.vectorAddr))
  }

  /// The two pushes of `interrupt`: the program counter, then the status.
  function PushReturnFrame(s: State, itype: InterruptType): State {
    var s1 := StackPushU16(s, s.pc);
    StackPush(s1, PushedStatus(s1.status, itype).Bits())
  }

  // ---------------------------------------------------------------------
  // Operand helpers shared by the arms of `execute_instruction`
  // ---------------------------------------------------------------------

  /// The operand's address.
  function OperandAddr(s: State, op: OpCode): u16
    requires op.mode != Implicit && op.mode != Accumulator
  {
    Operand(s, op).0
  }

  /// The byte at the operand's address and whether forming it crossed a page.
  function ReadOperand(s: State, op: OpCode): (byte, bool)
    requires op.mode != Implicit && op.mode != Accumulator
  {
    var (addr, cross) := Operand(s, op);
    (s.mem[addr], cross)
  }

  /// `data << 1`, `data >> 1`, and the rotates that shift the old carry in.
  function RotateLeft(data: byte, carry: bool): byte {
    if carry then (data << 1) | 1 else data << 1
  }

  function RotateRight(data: byte, carry: bool): byte {
    if carry then (data >> 1) | 0x80 else data >> 1
  }

  /// The high byte of an address plus one, as the `(addr >> 8) as u8 + 1`
  /// of SHY, SHX and TAS; the `u8` addition panics for a high byte of 0xFF.
  function HighPlusOne(addr: u16): byte
    requires addr / 256 < 0xFF
  {
    ToByte(addr / 256 + 1)
  }

  /// `pull status`: the byte popped into the flags, B cleared and U set, as
  /// PLP and RTI do it.
  function PulledStatus(b: byte): Flags {
    FromBitsTruncate(b).Remove(Break).Insert(Unused)
  }

  // ---------------------------------------------------------------------
  // The arms of `execute_instruction`
  // ---------------------------------------------------------------------

  /// What the source needs to execute `op` without panicking: an addressing
  /// mode its arm can form an operand in, and no `u16`/`u8` overflow in the
  /// additions of JSR, RTS, SHY, SHX and TAS.
  predicate ExecuteDefined(s: State, op: OpCode) {
    ModeFits(op) &&
    if op.instruction == JSR then s.pc < 0xFFFF
    else if op.instruction == RTS then StackPopU16(s).0 < 0xFFFF
    else if op.instruction in {SHY, SHX, TAS} then OperandAddr(s, op) / 256 < 0xFF
    else true
  }

  /// Loads: LDA, LDX, LDY and LAX read the operand, pay a page cross.
  function Load(s: State, op: OpCode): State
    requires op.mode != Implicit && op.mode != Accumulator
    requires op.instruction in {LDA, LDX, LDY, LAX}
  {
    var (data, cross) := ReadOperand(s, op);
    LoadSteps(s, op.instruction, data, cross)
  }

  /// A load once the operand is read.
  function LoadSteps(s: State, instruction: Instruction, data: byte, cross: bool): State
    requires instruction in {LDA, LDX, LDY, LAX}
  {
    var t :=
      match instruction
      case LDA => SetAccumulator(s, data)
      case LDX => SetIndexX(s, data)
      case LDY => SetIndexY(s, data)
      case LAX => var s1 := SetAccumulator(s, data); s1.(x := s1.a);
    TickIf(t, cross)
  }

  /// Stores: STA, STX, STY, SAX and AHX write a register combination.
  function Store(s: State, op: OpCode): State
    requires op.mode != Implicit && op.mode != Accumulator
    requires op.instruction in {STA, STX, STY, SAX, AHX}
  {
    var addr := OperandAddr(s, op);
    var data :=
      match op.instruction
      case STA => s.a
      case STX => s.x
      case STY => s.y
      case SAX => s.a & s.x
      case AHX => s.a & s.x & ToByte(addr / 256);
    Write(s, addr, data)
  }

  /// AND, EOR, ORA: combine the operand into A, paying a page cross.
  function Logic(s: State, op: OpCode): State
    requires op.mode != Implicit && op.mode != Accumulator
    requires op.instruction in {AND, EOR, ORA}
  {
    var (data, cross) := ReadOperand(s, op);
    LogicSteps(s, op.instruction, data, cross)
  }

  /// AND, EOR or ORA once the operand is read.
  function LogicSteps(s: State, instruction: Instruction, data: byte, cross: bool): State
    requires instruction in {AND, EOR, ORA}
  {
    TickIf(SetAccumulator(s, LogicResult(instruction, data, s.a)), cross)
  }

  /// The byte AND, EOR or ORA leaves in A.
  function LogicResult(instruction: Instruction, data: byte, a: byte): byte
    requires instruction in {AND, EOR, ORA}
  {
    match instruction
    case AND => data & a
    case EOR => data ^ a
    case ORA => data | a
  }

  /// BIT: Z from A & operand, N and V copied from bits 7 and 6 of the operand.
  function Bit(s: State, op: OpCode): State
    requires op.mode != Implicit && op.mode != Accumulator
  {
    var (data, _) := ReadOperand(s, op);
    var s1 := UpdateFlagsZ(s, s.a & data);
    s1.(status := s1.status.Set(Negative, data & 0x80 > 0).Set(Overflow, data & 0x40 > 0))
  }

  /// INC and DEC: read-modify-write of the operand by one with wrap.
  function IncDecMemory(s: State, addr: u16, up: bool): State {
    var data := if up then s.mem[addr] + 1 else s.mem[addr] - 1;
    UpdateFlagsZN(Write(s, addr, data), data)
  }

  /// The byte a shift or rotate produces: left or right by one, with
  /// `shiftIn` entering the vacated bit.
  function Shifted(data: byte, left: bool, shiftIn: bool): byte {
    if left then RotateLeft(data, shiftIn) else RotateRight(data, shiftIn)
  }

  /// The bit a shift or rotate moves out, which becomes the carry.
  function ShiftedOut(data: byte, left: bool): bool {
    if left then data >> 7 == 1 else data & 1 == 1
  }

  /// ASL, LSR, ROL and ROR on A: C gets the bit shifted out, and the
  /// result is reported in Z and N.
  function ShiftAccumulator(s: State, left: bool, rotate: bool): State {
    var s1 := UpdateFlagIf(s, Carry, ShiftedOut(s.a, left));
    SetAccumulator(s1, Shifted(s.a, left, rotate && s.status.carry))
  }

  /// ASL, LSR, ROL and ROR on the byte at `addr`: C gets the bit shifted
  /// out; ASL and LSR report the result in Z and N, ROL and ROR only in N.
  function ShiftMemory(s: State, addr: u16, left: bool, rotate: bool): State {
    var data := s.mem[addr];
    var result := Shifted(data, left, rotate && s.status.carry);
    var s1 := UpdateFlagIf(s, Carry, ShiftedOut(data, left));
    var s2 := Write(s1, addr, result);
    if rotate then UpdateFlagsN(s2, result) else UpdateFlagsZN(s2, result)
  }

  /// ASL, LSR, ROL and ROR: the rotates shift the old carry in.
  function Shift(s: State, op: OpCode): State
    requires op.mode != Implicit
    requires op.instruction in {ASL, LSR, ROL, ROR}
  {
    var left := op.instruction == ASL || op.instruction == ROL;
    var rotate := op.instruction == ROL || op.instruction == ROR;
    if op.mode == Accumulator then ShiftAccumulator(s, left, rotate)
    else ShiftMemory(s, OperandAddr(s, op), left, rotate)
  }

  /// The condition each branch instruction tests.
  function BranchCondition(status: Flags, instruction: Instruction): bool
    requires instruction in {BCC, BCS, BEQ, BMI, BNE, BPL, BVC, BVS}
  {
    match instruction
    case BCC => !status.carry
    case BCS => status.carry
    case BEQ => status.zero
    case BMI => status.negative
    case BNE => !status.zero
    case BPL => !status.negative
    case BVC => !status.overflow
    case BVS => status.overflow
  }

  /// The flag instructions CLC, CLD, CLI, CLV, SEC, SED, SEI.
  function FlagInstruction(s: State, instruction: Instruction): State
    requires instruction in {CLC, CLD, CLI, CLV, SEC, SED, SEI}
  {
    match instruction
    case CLC => s.(status := s.status.Remove(Carry))
    case CLD => s.(status := s.status.Remove(DecimalMode))
    case CLI => s.(status := s.status.Remove(InterruptDisable))
    case CLV => s.(status := s.status.Remove(Overflow))
    case SEC => s.(status := s.status.Insert(Carry))
    case SED => s.(status := s.status.Insert(DecimalMode))
    case SEI => s.(status := s.status.Insert(InterruptDisable))
  }

  /// SLO: shift memory left, then OR the result into A.
  function ShiftLeftOr(s: State, addr: u16): State {
    var data := s.mem[addr];
    var s1 := UpdateFlagIf(s, Carry, data >> 7 == 1);
    var d := data << 1;
    var s2 := UpdateFlagsZN(Write(s1, addr, d), d);
    SetAccumulator(s2, d | s2.a)
  }

  /// RLA: rotate memory left (N only), then AND the result into A.
  function RotateLeftAnd(s: State, addr: u16): State {
    var data := s.mem[addr];
    var s1 := UpdateFlagIf(s, Carry, data >> 7 == 1);
    var d := RotateLeft(data, s.status.carry);
    var s2 := UpdateFlagsN(Write(s1, addr, d), d);
    SetAccumulator(s2, d & s2.a)
  }

  /// SRE: shift memory right, then EOR the result into A.
  function ShiftRightEor(s: State, addr: u16): State {
    var data := s.mem[addr];
    var s1 := UpdateFlagIf(s, Carry, data & 1 == 1);
    var d := data >> 1;
    var s2 := UpdateFlagsZN(Write(s1, addr, d), d);
    SetAccumulator(s2, d ^ s2.a)
  }

  /// RRA: rotate memory right (N only), then add the result to A with the
  /// carry the rotate produced.
  function RotateRightAdd(s: State, addr: u16): State {
    var data := s.mem[addr];
    var s1 := UpdateFlagIf(s, Carry, data & 1 == 1);
    var d := RotateRight(data, s.status.carry);
    var s2 := UpdateFlagsN(Write(s1, addr, d), d);
    AddToAccumulator(s2, d)
  }

  /// DCP: decrement memory, then the flag updates of `compare` against A
  /// (C when the new byte is at most A, then Z and N of A minus it).
  function DecrementCompare(s: State, addr: u16): State {
    var d := s.mem[addr] - 1;
    CompareFlags(Write(s, addr, d), d, s.a)
  }

  /// ISC: increment memory, then subtract the result from A.
  function IncrementSubtract(s: State, addr: u16): State {
    var d := s.mem[addr] + 1;
    var s1 := UpdateFlagsZN(Write(s, addr, d), d);
    SubFromAccumulator(s1, d)
  }

  /// The immediate-class unofficial opcodes ANC, ALR, ARR, XAA, AXS.
  function ImmediateUnofficial(s: State, op: OpCode): State
    requires op.mode != Implicit && op.mode != Accumulator
    requires op.instruction in {ANC, ALR, ARR, XAA, AXS}
  {
    var (data, _) := ReadOperand(s, op);
    ImmediateSteps(s, op.instruction, data)
  }

  /// ANC, ALR, ARR, XAA or AXS once the operand is read.
  function ImmediateSteps(s: State, instruction: Instruction, data: byte): State
    requires instruction in {ANC, ALR, ARR, XAA, AXS}
  {
    match instruction
    case ANC => AndCarry(s, data)
    case ALR => AndShiftRight(s, data)
    case ARR => AndRotateRight(s, data)
    case XAA => SetAccumulator(s, data & s.x)
    case AXS => AndSubtractX(s, data)
  }

  /// ANC.
  function AndCarry(s: State, data: byte): State {
    var s1 := SetAccumulator(s, data & s.a);
    UpdateFlagIf(s1, Carry, s1.status.negative)
  }

  /// ALR.
  function AndShiftRight(s: State, data: byte): State {
    var d := data & s.a;
    SetAccumulator(UpdateFlagIf(s, Carry, d & 1 == 1), d >> 1)
  }

  /// ARR.
  function AndRotateRight(s: State, data: byte): State {
    RotateRightIntoA(s, data & s.a)
  }

  /// ARR once the operand is ANDed with A: rotate right through C into A,
  /// then C and V from bits 6 and 5 of the result.
  function RotateRightIntoA(s: State, d: byte): State {
    var s2 := SetAccumulator(UpdateFlagIf(s, Carry, d & 1 == 1), RotateRight(d, s.status.carry));
    ArrFlags(s2, s2.a)
  }

  /// C := bit 6 and V := bit 5 XOR bit 6 of `r`.
  function ArrFlags(s: State, r: byte): State {
    var bit5 := (r >> 5) & 1;
    var bit6 := (r >> 6) & 1;
    UpdateFlagIf(UpdateFlagIf(s, Carry, bit6 == 1), Overflow, bit5 ^ bit6 == 1)
  }

  /// AXS.
  function AndSubtractX(s: State, data: byte): State {
    SubtractIntoX(s, s.x & s.a, data)
  }

  /// X := m - data, with C set when the subtraction does not borrow.
  function SubtractIntoX(s: State, m: byte, data: byte): State {
    var result := m - data;
    var s1 := UpdateFlagIf(s, Carry, data <= m);
    UpdateFlagsZN(s1, result).(x := result)
  }

  /// SHY, SHX and TAS: store a register (TAS first sets SP to A & X) masked
  /// with the operand's high byte plus one.
  function StoreHigh(s: State, op: OpCode): State
    requires op.mode != Implicit && op.mode != Accumulator
    requires op.instruction in {SHY, SHX, TAS}
    requires OperandAddr(s, op) / 256 < 0xFF
  {
    StoreHighAt(s, op.instruction, OperandAddr(s, op))
  }

  /// SHY, SHX or TAS once the operand address is formed.
  function StoreHighAt(s: State, instruction: Instruction, addr: u16): State
    requires instruction in {SHY, SHX, TAS}
    requires addr / 256 < 0xFF
  {
    match instruction
    case SHY => Write(s, addr, s.y & HighPlusOne(addr))
    case SHX => Write(s, addr, s.x & HighPlusOne(addr))
    case TAS => StackThenStore(s, s.a & s.x, addr)
  }

  /// TAS once A AND X is formed: SP takes it, then it is stored masked
  /// with the address's high byte plus one.
  function StackThenStore(s: State, m: byte, addr: u16): State
    requires addr / 256 < 0xFF
  {
    Write(s.(sp := ByteValue(m)), addr, HighPlusOne(addr) & m)
  }

  /// RTI: pull the status (B cleared, U set), then the program counter.
  function ReturnFromInterrupt(s: State): State {
    var (data, s1) := StackPop(s);
    var (ret, s2) := StackPopU16(s1.(status := PulledStatus(data)));
    s2.(pc := ret)
  }

  /// TAX, TAY, TXA, TYA, TSX (reported in Z and N) and TXS (not reported).
  function Transfer(s: State, op: OpCode): State
    requires op.instruction in {TAX, TAY, TXA, TYA, TSX, TXS}
  {
    match op.instruction
    case TAX => SetIndexX(s, s.a)
    case TAY => SetIndexY(s, s.a)
    case TXA => SetAccumulator(s, s.x)
    case TYA => SetAccumulator(s, s.y)
    case TSX => SetIndexX(s, ToByte(s.sp))
    case TXS => s.(sp := ByteValue(s.x))
  }

  /// PHP: push the flags with B and U set.
  function PushStatus(s: State): State {
    StackPush(s, s.status.Insert(Break).Insert(Unused).Bits())
  }

  /// PLA: pull A, reported in Z and N.
  function PullAccumulator(s: State): State {
    var (data, s1) := StackPop(s);
    SetAccumulator(s1, data)
  }

  /// PLP: pull the flags, B cleared and U set.
  function PullStatus(s: State): State {
    var (data, s1) := StackPop(s);
    s1.(status := PulledStatus(data))
  }

  /// PHA, PHP, PLA and PLP.
  function StackInstruction(s: State, op: OpCode): State
    requires op.instruction in {PHA, PHP, PLA, PLP}
  {
    match op.instruction
    case PHA => StackPush(s, s.a)
    case PHP => PushStatus(s)
    case PLA => PullAccumulator(s)
    case PLP => PullStatus(s)
  }

  /// ADC and SBC pay a page cross; the unofficial SBC_NOP does not.
  function Arithmetic(s: State, op: OpCode): State
    requires op.mode != Implicit && op.mode != Accumulator
    requires op.instruction in {ADC, SBC, SBC_NOP}
  {
    var (data, cross) := ReadOperand(s, op);
    match op.instruction
    case ADC => TickIf(AddToAccumulator(s, data), cross)
    case SBC => TickIf(SubFromAccumulator(s, data), cross)
    case SBC_NOP => SubFromAccumulator(s, data)
  }

  /// CMP, CPX and CPY compare A, X or Y with the operand.
  function CompareInstruction(s: State, op: OpCode): State
    requires op.mode != Implicit && op.mode != Accumulator
    requires op.instruction in {CMP, CPX, CPY}
  {
    match op.instruction
    case CMP => Compare(s, op, s.a)
    case CPX => Compare(s, op, s.x)
    case CPY => Compare(s, op, s.y)
  }

  /// INC and DEC on memory, INX, INY, DEX and DEY on the index registers,
  /// all wrapping.
  function IncDec(s: State, op: OpCode): State
    requires op.instruction in {INC, DEC, INX, INY, DEX, DEY}
    requires op.instruction in {INC, DEC} ==> op.mode != Implicit && op.mode != Accumulator
  {
    match op.instruction
    case INC => IncDecMemory(s, OperandAddr(s, op), true)
    case DEC => IncDecMemory(s, OperandAddr(s, op), false)
    case INX => SetIndexX(s, s.x + 1)
    case INY => SetIndexY(s, s.y + 1)
    case DEX => SetIndexX(s, s.x - 1)
    case DEY => SetIndexY(s, s.y - 1)
  }

  /// JSR: push the address of the instruction's last byte and jump.
  function JumpToSubroutine(s: State, op: OpCode): State
    requires op.mode != Implicit && op.mode != Accumulator && s.pc < 0xFFFF
  {
    var addr := OperandAddr(s, op);
    StackPushU16(s, s.pc + 1).(pc := addr)
  }

  /// RTS: resume one past the popped address.
  function ReturnFromSubroutine(s: State): State
    requires StackPopU16(s).0 < 0xFFFF
  {
    var (ret, s1) := StackPopU16(s);
    s1.(pc := ret + 1)
  }

  /// BRK: an interrupt through the BRK vector, unless I is set.
  function BreakInstruction(s: State): State {
    if !s.status.interruptDisable then EnterInterrupt(s, BRK_INTERRUPT) else s
  }

  /// JMP, JSR, RTS, RTI and BRK.
  function ControlFlow(s: State, op: OpCode): State
    requires op.instruction in {JMP, JSR, RTS, RTI, BRK}
    requires op.instruction in {JMP, JSR} ==> op.mode != Implicit && op.mode != Accumulator
    requires op.instruction == JSR ==> s.pc < 0xFFFF
    requires op.instruction == RTS ==> StackPopU16(s).0 < 0xFFFF
  {
    match op.instruction
    case JMP => s.(pc := OperandAddr(s, op))
    case JSR => JumpToSubroutine(s, op)
    case RTS => ReturnFromSubroutine(s)
    case RTI => ReturnFromInterrupt(s)
    case BRK => BreakInstruction(s)
  }

  /// NOP does nothing; NOP_ALT with an operand reads it and pays a cross.
  function NoOperation(s: State, op: OpCode): State
    requires op.instruction in {NOP, NOP_ALT}
    requires op.instruction == NOP_ALT ==> op.mode != Accumulator
  {
    if op.instruction == NOP || op.mode == Implicit then s
    else
      var (_, cross) := ReadOperand(s, op);
      TickIf(s, cross)
  }

  /// LAS: A, X and SP all become the operand masked with SP.
  function LoadMaskedStack(s: State, op: OpCode): State
    requires op.mode != Implicit && op.mode != Accumulator
  {
    var (data, _) := ReadOperand(s, op);
    TransferToAXS(s, data & ToByte(s.sp))
  }

  /// A, X and SP all take the value `v`; Z and N describe it.
  function TransferToAXS(s: State, v: byte): State {
    UpdateFlagsZN(s.(a := v, x := v, sp := ByteValue(v)), v)
  }

  /// `execute_instruction`: the effect of one instruction, after its opcode
  /// byte has been fetched (the program counter designates its operand).
  function Execute(s: State, op: OpCode): State
    requires ExecuteDefined(s, op)
  {
    match op.instruction
    case LDA | LDX | LDY | LAX => Load(s, op)
    case STA | STX | STY | SAX | AHX => Store(s, op)
    case TAX | TAY | TXA | TYA | TSX | TXS => Transfer(s, op)
    case PHA | PHP | PLA | PLP => StackInstruction(s, op)
    case AND | EOR | ORA => Logic(s, op)
    case BIT => Bit(s, op)
    case ADC | SBC | SBC_NOP => Arithmetic(s, op)
    case CMP | CPX | CPY => CompareInstruction(s, op)
    case INC | DEC | INX | INY | DEX | DEY => IncDec(s, op)
    case ASL | LSR | ROL | ROR => Shift(s, op)
    case JMP | JSR | RTS | RTI | BRK => ControlFlow(s, op)
    case BCC | BCS | BEQ | BMI | BNE | BPL | BVC | BVS =>
      Branch(s, op, BranchCondition(s.status, op.instruction))
    case CLC | CLD | CLI | CLV | SEC | SED | SEI => FlagInstruction(s, op.instruction)
    case NOP | NOP_ALT => NoOperation(s, op)
    case SLO => ShiftLeftOr(s, OperandAddr(s, op))
    case RLA => RotateLeftAnd(s, OperandAddr(s, op))
    case SRE => ShiftRightEor(s, OperandAddr(s, op))
    case RRA => RotateRightAdd(s, OperandAddr(s, op))
    case DCP => DecrementCompare(s, OperandAddr(s, op))
    case ISC => IncrementSubtract(s, OperandAddr(s, op))
    case ANC | ALR | ARR | XAA | AXS => ImmediateUnofficial(s, op)
    case SHY | SHX | TAS => StoreHigh(s, op)
    case LAS => LoadMaskedStack(s, op)
    case KIL => s.(running := false)
  }

  // ---------------------------------------------------------------------
  // The run loop (`run_with_callback`)
  // ---------------------------------------------------------------------

  /// The state after the pending interrupt, if any, is taken.
  function TakeInterrupt(s: State, pending: Option<Interrupt>): State {
    if pending.Some? then EnterInterrupt(s, pending.value) else s
  }

  /// The opcode byte at the program counter is decoded and the program
  /// counter moves past it.
  function FetchOpcode(s: State): (State, OpCode) {
    (s.(pc := WrapAdd16(s.pc, 1)), DecodeOpcode(s.mem[s.pc] as int))
  }

  /// The state after the pending interrupt is taken and the opcode byte is
  /// fetched: the program counter has moved past the opcode byte.
  function Fetch(s: State, pending: Option<Interrupt>): (State, OpCode) {
    FetchOpcode(TakeInterrupt(s, pending))
  }

  /// What follows the instruction: its base cycles are paid and, when it
  /// left the program counter at `pcState`, the operand bytes are stepped
  /// over.
  function Finish(s: State, pcState: u16, op: OpCode): State
    requires op.len >= 1 && (s.pc == pcState ==> s.pc + op.len - 1 <= 0xFFFF)
  {
    var s1 := Tick(s, op.cycles);
    if s1.pc == pcState then s1.(pc := s1.pc + op.len - 1) else s1
  }

  /// One iteration needs the `+= 1` after the fetch, the instruction and
  /// the final `+= len - 1` to stay within `u16`.
  predicate StepDefined(s: State, pending: Option<Interrupt>) {
    TakeInterrupt(s, pending).pc < 0xFFFF &&
    var (s2, op) := Fetch(s, pending);
    ExecuteDefined(s2, op) &&
    var s3 := Execute(s2, op);
    (s3.pc == s2.pc ==> s3.pc + op.len - 1 <= 0xFFFF)
  }

  /// One iteration of the loop of `run_with_callback`: take the pending
  /// interrupt, fetch and decode, execute, pay the opcode's base cycles and,
  /// when the instruction left the program counter where the fetch put it,
  /// step over the operand bytes.
  function Step(s: State, pending: Option<Interrupt>): State
    requires StepDefined(s, pending)
  {
    var (s2, op) := Fetch(s, pending);
    Finish(Execute(s2, op), s2.pc, op)
  }

  /// The start of `run_with_callback`: running is set and a fresh CPU pays
  /// the seven power-up cycles once.
  function Start(s: State): State {
    var s1 := s.(running := true);
    if s1.isFresh then Tick(s1, 7).(isFresh := false) else s1
  }

  /// Whether every iteration over the polled interrupts `polls` is
  /// defined, up to the point where the CPU stops running.
  predicate RunDefined(s: State, polls: seq<Option<Interrupt>>)
    decreases |polls|
  {
    !s.running || |polls| == 0 ||
    (StepDefined(s, polls[0]) && RunDefined(Step(s, polls[0]), polls[1..]))
  }

  /// The loop of `run_with_callback` over a finite sequence of interrupt
  /// polls: iterate while the CPU runs and polls remain.
  function Run(s: State, polls: seq<Option<Interrupt>>): State
    requires RunDefined(s, polls)
    decreases |polls|
  {
    if !s.running || |polls| == 0 then s else Run(Step(s, polls[0]), polls[1..])
  }

  /// A running CPU with polls left takes one step on the first poll and
  /// runs on over the rest.
  lemma RunUnroll(s: State, polls: seq<Option<Interrupt>>)
    requires RunDefined(s, polls) && s.running && |polls| > 0
    ensures StepDefined(s, polls[0]) && RunDefined(Step(s, polls[0]), polls[1..])
    ensures Run(s, polls) == Run(Step(s, polls[0]), polls[1..])
  {
  }

  /// A stopped CPU, or one without polls left, is where the run ends.
  lemma RunDone(s: State, polls: seq<Option<Interrupt>>)
    requires !s.running || |polls| == 0
    ensures RunDefined(s, polls) && Run(s, polls) == s
  {
  }

  // ---------------------------------------------------------------------
  // Properties: power-on, reset and interrupts
  // ---------------------------------------------------------------------

  /// Reset keeps A, X, Y, the other flags and memory, lowers SP by three,
  /// sets U and I, reloads the program counter from the reset vector and
  /// costs seven cycles.
  lemma ResetEffect(s: State)
    requires s.sp >= 3
    ensures var t := Reset(s);
      t.sp == s.sp - 3 &&
      t.status == s.status.(unused := true, interruptDisable := true) &&
      t.pc == ReadU16(s.mem, 0xFFFC) && !t.isFresh && t.cycles == s.cycles + 7 &&
      t == s.(sp := t.sp, status := t.status, pc := t.pc, isFresh := false, cycles := t.cycles)
  {
  }

  /// Interrupt entry leaves the return address (high byte first) and the
  /// status byte on the stack, in the three cells from SP down, and changes
  /// nothing else but SP.
  lemma ReturnFrameLayout(s: State, itype: InterruptType)
    ensures PushReturnFrame(s, itype) ==
      s.(mem := s.mem[StackCell(s.sp) := ToByte(s.pc / 256)]
                     [StackCell(Dec8(s.sp)) := ToByte(s.pc % 256)]
                     [StackCell(Dec8(Dec8(s.sp))) := PushedStatus(s.status, itype).Bits()],
         sp := SpMinus3(s.sp))
  {
    var bytes := U16ToBytes(s.pc);
    assert bytes[0] == ToByte(s.pc % 256) && bytes[1] == ToByte(s.pc / 256);
  }

  /// The three cells of a return frame are distinct, and none is a vector
  /// address outside the stack page.
  lemma ReturnFrameCells(sp: u8, v: u16)
    requires v / 256 != 1
    ensures StackCell(sp) != StackCell(Dec8(sp)) && StackCell(sp) != StackCell(Dec8(Dec8(sp)))
    ensures StackCell(Dec8(sp)) != StackCell(Dec8(Dec8(sp)))
    ensures v != StackCell(sp) && v != StackCell(Dec8(sp)) && v != StackCell(Dec8(Dec8(sp)))
  {
  }

  /// Entering an interrupt sets I, keeps every other flag and register and
  /// jumps through the vector, which lies outside the stack page, so the
  /// pushes do not disturb it.
  lemma InterruptLayout(s: State, i: Interrupt)
    requires 0x200 <= i.vectorAddr < 0xFFFF
    ensures var t := EnterInterrupt(s, i);
      var f := PushReturnFrame(s, i.itype);
      t.status == s.status.(interruptDisable := true) &&
      t.pc == ReadU16(s.mem, i.vectorAddr) &&
      t == f.(status := t.status, pc := t.pc, cycles := s.cycles + i.cpuCycles)
  {
    InterruptVector(s, i);
    InterruptStatus(s, i);
  }

  lemma InterruptVector(s: State, i: Interrupt)
    requires 0x200 <= i.vectorAddr < 0xFFFF
    ensures EnterInterrupt(s, i).pc == ReadU16(s.mem, i.vectorAddr)
  {
    var f := PushReturnFrame(s, i.itype);
    assert EnterInterrupt(s, i).pc == ReadU16(f.mem, i.vectorAddr);
    FrameOutsideStack(s, i.itype, i.vectorAddr);
    FrameOutsideStack(s, i.itype, i.vectorAddr + 1);
    ReadU16Frame(f.mem, s.mem, i.vectorAddr);
  }

  /// The return frame touches only the stack page.
  lemma FrameOutsideStack(s: State, itype: InterruptType, v: u16)
    requires v / 256 != 1
    ensures PushReturnFrame(s, itype).mem[v] == s.mem[v]
  {
    ReturnFrameLayout(s, itype);
    ReturnFrameCells(s.sp, v);
  }

  lemma InterruptStatus(s: State, i: Interrupt)
    ensures var t := EnterInterrupt(s, i);
      t.status == s.status.(interruptDisable := true) &&
      t == PushReturnFrame(s, i.itype).(status := t.status, pc := t.pc,
                                        cycles := s.cycles + i.cpuCycles)
  {
  }

  /// A word read sees only its two bytes.
  lemma ReadU16Frame(m1: Memory, m2: Memory, pos: u16)
    requires m1[pos] == m2[pos] && m1[(pos + 1) % 0x1_0000] == m2[(pos + 1) % 0x1_0000]
    ensures ReadU16(m1, pos) == ReadU16(m2, pos)
  {
  }

  /// The pushed status byte records B exactly for a BRK and always has U.
  lemma PushedStatusBits(status: Flags, itype: InterruptType)
    ensures PushedStatus(status, itype).Bits() & 0x10 != 0 <==> itype == Brk
    ensures PushedStatus(status, itype).Bits() & 0x20 != 0
  {
    BitsAgree(PushedStatus(status, itype), Break);
    BitsAgree(PushedStatus(status, itype), Unused);
  }

  /// Pulling a byte pushed from a flag set restores every flag but B and U.
  lemma PullPushed(status: Flags)
    ensures PulledStatus(status.Bits()) == status.(brk := false, unused := true)
  {
    BitsRoundTrip(status, 0);
  }

  /// RTI right after an interrupt entry returns to the interrupted program
  /// counter with the stack pointer and every flag but B and U restored:
  /// the I set on entry is undone because the pushed status predates it.
  lemma InterruptThenRti(s: State, i: Interrupt)
    ensures var t := ReturnFromInterrupt(EnterInterrupt(s, i));
      t.pc == s.pc && t.sp == s.sp && t.status == s.status.(brk := false, unused := true) &&
      t.a == s.a && t.x == s.x && t.y == s.y
  {
    var u := EnterInterrupt(s, i);
    var pushed := PushedStatus(s.status, i.itype);
    assert u.sp == SpMinus3(s.sp) && u.a == s.a && u.x == s.x && u.y == s.y &&
      u.mem[StackCell(s.sp)] as int == s.pc / 256 &&
      u.mem[StackCell(Dec8(s.sp))] as int == s.pc % 256 &&
      u.mem[StackCell(Dec8(Dec8(s.sp)))] == pushed.Bits() by {
      InterruptStatus(s, i);
      FrameCells(s, i.itype);
    }
    var t := ReturnFromInterrupt(u);
    assert t == u.(sp := s.sp, status := PulledStatus(pushed.Bits()), pc := s.pc) by {
      ReturnFromFrame(u, s.sp, s.pc, pushed);
    }
    PushedThenPulled(s.status, i.itype);
  }

  /// Whatever the interrupt, pulling its pushed status gives back the flags
  /// with B clear and U set.
  lemma PushedThenPulled(status: Flags, itype: InterruptType)
    ensures PulledStatus(PushedStatus(status, itype).Bits()) == status.(brk := false, unused := true)
  {
    PullPushed(PushedStatus(status, itype));
  }

  /// The three bytes a return frame holds, read back from the stack.
  lemma FrameCells(s: State, itype: InterruptType)
    ensures var f := PushReturnFrame(s, itype);
      f.sp == SpMinus3(s.sp) &&
      f.mem[StackCell(s.sp)] as int == s.pc / 256 &&
      f.mem[StackCell(Dec8(s.sp))] as int == s.pc % 256 &&
      f.mem[StackCell(Dec8(Dec8(s.sp)))] == PushedStatus(s.status, itype).Bits() &&
      f == s.(mem := f.mem, sp := f.sp)
  {
    ReturnFrameLayout(s, itype);
    ReturnFrameCells(s.sp, 0);
  }

  /// RTI over a frame of status byte, low and high return byte pulls them
  /// back: SP rises by three and nothing but SP, the flags and the program
  /// counter changes.
  lemma ReturnFromFrame(u: State, sp: u8, pc: u16, pushed: Flags)
    requires u.sp == SpMinus3(sp)
    requires u.mem[StackCell(sp)] as int == pc / 256
    requires u.mem[StackCell(Dec8(sp))] as int == pc % 256
    requires u.mem[StackCell(Dec8(Dec8(sp)))] == pushed.Bits()
    ensures var t := ReturnFromInterrupt(u);
      t == u.(sp := sp, status := PulledStatus(pushed.Bits()), pc := pc)
  {
    var (data, u1) := StackPop(u);
    var u2 := u1.(status := PulledStatus(data));
    var (ret, u3) := StackPopU16(u2);
    assert ret % 256 == pc % 256 && ret / 256 == pc / 256;
  }

  // ---------------------------------------------------------------------
  // Properties: stack instructions
  // ---------------------------------------------------------------------

  /// PLP right after PHP restores every flag but B (cleared) and U (set),
  /// and the stack pointer; registers and the program counter stay.
  lemma PhpThenPlp(s: State)
    ensures var t := PullStatus(PushStatus(s));
      t.status == s.status.(brk := false, unused := true) && t.sp == s.sp &&
      t.a == s.a && t.x == s.x && t.y == s.y && t.pc == s.pc && t.cycles == s.cycles
  {
    var pushed := s.status.Insert(Break).Insert(Unused);
    PushThenPop(s, pushed.Bits());
    PullPushed(pushed);
  }

  /// PLA right after PHA gives back A, reported in Z and N, with the stack
  /// pointer restored.
  lemma PhaThenPla(s: State)
    ensures var t := PullAccumulator(StackPush(s, s.a));
      t.a == s.a && t.sp == s.sp && ZNOf(t.status, s.status, s.a) &&
      t.x == s.x && t.y == s.y && t.pc == s.pc && t.cycles == s.cycles
  {
    PushThenPop(s, s.a);
    var (v, u1) := StackPop(StackPush(s, s.a));
    SettersChangeOnlyZN(u1, v);
  }

  /// JSR pushes the address of its own last byte and jumps; the RTS that
  /// follows resumes right after the three-byte JSR with the stack pointer
  /// and the registers restored.
  lemma JsrThenRts(s: State, jsr: OpCode)
    requires jsr.instruction == JSR && jsr.mode == Absolute
    requires s.pc < 0xFFFE
    ensures var u := JumpToSubroutine(s, jsr);
      u.pc == ReadU16(s.mem, s.pc) && StackPopU16(u).0 == s.pc + 1 &&
      var t := ReturnFromSubroutine(u);
      t.pc == s.pc + 2 && t.sp == s.sp && t.a == s.a && t.x == s.x && t.y == s.y &&
      t.status == s.status && t.cycles == s.cycles
  {
    var u := JumpToSubroutine(s, jsr);
    PushThenPopU16(s, s.pc + 1, u);
  }


}

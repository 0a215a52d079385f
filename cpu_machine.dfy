/// The `CPU` object of nes/src/cpu/mod.rs, whose registers are fields
/// updated in place, and the stack and flag helpers of nes/src/cpu/common.rs
/// that mutate it.  Every method is proved to leave the CPU and its bus in
/// the state the functions of CpuCommon and CpuExecute compute.
module CpuMachine {
  import opened Tools
  import opened CpuBus
  import opened CpuFlags
  import opened Opcode
  import opened CpuCommon
  import opened CpuExecute

  /// Below 0xFFFF the wrapping increment is the plain one.
  lemma NoWrap(pc: u16)
    requires pc < 0xFFFF
    ensures WrapAdd16(pc, 1) == pc + 1
  {
  }

  class Cpu {
    var running: bool
    var a: byte
    var x: byte
    var y: byte
    var sp: u8
    var pc: u16
    var status: Flags
    var isFresh: bool
    const bus: Bus

    /// The registers together with the bus's memory and cycle count.
    function View(): State
      reads this, bus
    {
      State(running, a, x, y, sp, pc, status, isFresh, bus.mem, bus.cycles)
    }

    /// `CPU::new`: the power-on state over the bus as it stands.
    constructor (bus: Bus)
      ensures this.bus == bus && View() == PowerOn(bus.mem, bus.cycles)
    {
      this.bus := bus;
      running := false;
      a, x, y := 0, 0, 0;
      sp := STACK_RESET;
      pc := ReadU16(bus.mem, 0xFFFC);
      status := FromBitsTruncate(0x24);
      isFresh := true;
    }

    /// `stack_push`: store at 0x0100 + SP, then decrement SP with wrap.
    method StackPush(data: byte)
      modifies this, bus
      ensures View() == CpuCommon.StackPush(old(View()), data)
    {
      bus.Write(STACK + sp, data);
      sp := Dec8(sp);
    }

    /// `stack_push_u16`: the high byte, then the low byte.
    method StackPushU16(data: u16)
      modifies this, bus
      ensures View() == CpuCommon.StackPushU16(old(View()), data)
    {
      var bytes := U16ToBytes(data);
      StackPush(bytes[1]);
      StackPush(bytes[0]);
    }

    /// `stack_pop`: increment SP with wrap, then read the cell.
    method StackPop() returns (data: byte)
      modifies this
      ensures (data, View()) == CpuCommon.StackPop(old(View()))
    {
      sp := Inc8(sp);
      data := bus.mem[STACK + sp];
    }

    /// `stack_pop_u16`: the low byte, then the high byte.
    method StackPopU16() returns (data: u16)
      modifies this
      ensures (data, View()) == CpuCommon.StackPopU16(old(View()))
    {
      var lo := StackPop();
      var hi := StackPop();
      data := BytesToU16([lo, hi]);
    }

    /// `update_flags_zn`: Z and N describe `value`.
    method UpdateFlagsZN(value: byte)
      modifies this
      ensures View() == CpuCommon.UpdateFlagsZN(old(View()), value)
    {
      status := status.Set(Zero, value == 0);
      status := status.Set(Negative, value >> 7 == 1);
    }

    /// `reset`; the `-= 3` on the `u8` stack pointer panics below 3.
    method Reset()
      requires sp >= 3
      modifies this, bus
      ensures View() == CpuExecute.Reset(old(View()))
    {
      sp := sp - 3;
      status := status.Insert(Unused);
      status := status.Insert(InterruptDisable);
      pc := ReadU16(bus.mem, 0xFFFC);
      isFresh := false;
      bus.Tick(7);
    }

    /// `interrupt`: push the return address and the status byte, set I,
    /// pay the interrupt's cycles and jump through its vector.
    method Interrupt(i: CpuExecute.Interrupt)
      modifies this, bus
      ensures View() == EnterInterrupt(old(View()), i)
    {
      ghost var s := View();
      StackPushU16(pc);
      var flag := status.Set(Break, i.itype == Brk);
      flag := flag.Insert(Unused);
      StackPush(flag.Bits());
      ghost var f := View();
      assert f == PushReturnFrame(s, i.itype);
      status := status.Insert(InterruptDisable);
      bus.Tick(i.cpuCycles);
      ghost var s3 := View();
      assert s3 == Tick(f.(status := f.status.Insert(InterruptDisable)), i.cpuCycles);
      pc := ReadU16(bus.mem, i.vectorAddr);
      assert View() == s3.(pc := ReadU16(s3.mem, i.vectorAddr));
    }

    /// `execute_instruction`: the arm of `op`'s instruction.
    method ExecuteInstruction(op: OpCode)
      requires ExecuteDefined(View(), op)
      modifies this, bus
      ensures View() == Execute(old(View()), op)
    {
      var t := Execute(View(), op);
      running, a, x, y, sp, pc, status, isFresh := t.running, t.a, t.x, t.y, t.sp, t.pc, t.status, t.isFresh;
      bus.mem, bus.cycles := t.mem, t.cycles;
    }

    /// Taking the pending interrupt, if any.
    method TakeInterrupt(pending: Option<CpuExecute.Interrupt>)
      modifies this, bus
      ensures View() == CpuExecute.TakeInterrupt(old(View()), pending)
    {
      if pending.Some? {
        Interrupt(pending.value);
      }
    }

    /// Fetching the opcode byte and moving past it.
    method FetchOpcode() returns (op: OpCode)
      requires pc < 0xFFFF
      modifies this
      ensures (View(), op) == CpuExecute.FetchOpcode(old(View()))
    {
      ghost var v := View();
      var opbyte := bus.mem[pc];
      pc := pc + 1;
      op := DecodeOpcode(opbyte as int);
      NoWrap(v.pc);
    }

    /// Paying the opcode's cycles and stepping over its operand bytes
    /// when the instruction left the program counter at `pcState`.
    method Finish(pcState: u16, op: OpCode)
      requires op.len >= 1 && (pc == pcState ==> pc + op.len - 1 <= 0xFFFF)
      modifies this, bus
      ensures View() == CpuExecute.Finish(old(View()), pcState, op)
    {
      bus.Tick(op.cycles);
      if pcState == pc {
        pc := pc + op.len - 1;
      }
    }

    /// One iteration of the loop of `run_with_callback`, given the
    /// interrupt the bus reports pending.
    method Step(pending: Option<CpuExecute.Interrupt>)
      requires StepDefined(View(), pending)
      modifies this, bus
      ensures View() == CpuExecute.Step(old(View()), pending)
    {
      TakeInterrupt(pending);
      var op := FetchOpcode();
      var pcState := pc;
      ExecuteInstruction(op);
      Finish(pcState, op);
    }

    /// `run_with_callback`, with the interrupt the bus reports on each
    /// iteration given in order by `polls`: start, then step while the CPU
    /// runs and polls remain.
    method RunWithCallback(polls: seq<Option<CpuExecute.Interrupt>>)
      requires RunDefined(Start(View()), polls)
      modifies this, bus
      ensures View() == Run(Start(old(View())), polls)
    {
      running := true;
      if isFresh {
        bus.Tick(7);
        isFresh := false;
      }
      ghost var s0 := View();
      assert s0 == Start(old(View()));
      var k := 0;
      while running && k < |polls|
        invariant 0 <= k <= |polls|
        invariant RunDefined(View(), polls[k..]) && Run(View(), polls[k..]) == Run(s0, polls)
      {
        RunUnroll(View(), polls[k..]);
        assert polls[k..][1..] == polls[k + 1..];
        Step(polls[k]);
        k := k + 1;
      }
      RunDone(View(), polls[k..]);
    }
  }
}

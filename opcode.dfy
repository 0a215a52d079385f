/// Opcode descriptors and operand addressing of the current CPU
/// (nes/src/cpu/opcode.rs).
module Opcode {
  import opened Tools
  import opened CpuBus

  datatype AddressingMode =
    | Implicit | Accumulator | Immediate | ZeroPage | ZeroPage_X | ZeroPage_Y | Relative
    | Absolute | Absolute_X | Absolute_Y | Indirect | Indirect_X | Indirect_Y

  /// The instructions generated by `define_opcodes!`, in declaration order.
  datatype Instruction =
    LDA | LDX | LDY | STA | STX | STY | TAX | TAY | TXA | TYA | TSX | TXS | PHA | PHP |
    PLA | PLP | AND | EOR | ORA | BIT | ADC | SBC | CMP | CPX | CPY | INC | INX | INY |
    DEC | DEX | DEY | ASL | LSR | ROL | ROR | JMP | JSR | RTS | BCC | BCS | BEQ | BMI |
    BNE | BPL | BVC | BVS | CLC | CLD | CLI | CLV | SEC | SED | SEI | BRK | NOP | RTI |
    NOP_ALT | SLO | RLA | SRE | RRA | SAX | LAX | DCP | ISC | ANC | ALR | ARR | XAA |
    AXS | SBC_NOP | AHX | SHY | SHX | TAS | LAS | KIL

  datatype OpCode = OpCode(
    byte: u8,
    instruction: Instruction,
    mnemonic: string,
    len: nat,
    cycles: nat,
    mode: AddressingMode)

  /// The instruction length `OpCode::new` derives from the addressing mode.
  function Len(mode: AddressingMode): (n: nat)
    ensures 1 <= n <= 3
  {
    match mode
    case Implicit | Accumulator => 1
    case Immediate | ZeroPage | ZeroPage_X | ZeroPage_Y | Relative => 2
    case Absolute | Absolute_X | Absolute_Y | Indirect => 3
    case Indirect_X | Indirect_Y => 2
  }

  /// The length is 1 for the operand-less modes, 3 for the modes carrying a
  /// full address and 2 for every other mode.
  lemma LenByMode(mode: AddressingMode)
    ensures Len(mode) == 1 <==> mode == Implicit || mode == Accumulator
    ensures Len(mode) == 3 <==>
      mode == Absolute || mode == Absolute_X || mode == Absolute_Y || mode == Indirect
    ensures Len(mode) == 2 <==>
      (mode == Immediate || mode == ZeroPage || mode == ZeroPage_X || mode == ZeroPage_Y ||
       mode == Relative || mode == Indirect_X || mode == Indirect_Y)
  {
  }

  /// `OpCode::new`: the given fields, with the length derived from the mode.
  function New(byte: u8, instruction: Instruction, mnemonic: string, cycles: nat,
               mode: AddressingMode): (op: OpCode)
    ensures op.byte == byte && op.instruction == instruction && op.mnemonic == mnemonic
    ensures op.cycles == cycles && op.mode == mode
    ensures op.len == Len(mode)
  {
    OpCode(byte, instruction, mnemonic, Len(mode), cycles, mode)
  }

  /// The `OPCODES` table: the entry stored under byte `b`.  The entries of
  /// nes/src/cpu/opcode.rs:192-716 are arranged here by the high nibble of
  /// their byte; no byte is listed twice in the source, so the order of the
  /// inserts that build the map does not matter.
  function Opcodes(b: u8): (r: Option<OpCode>)
  {
    var lo := b % 16;
    match b / 16
    case 0 => Row0(lo)
    case 1 => Row1(lo)
    case 2 => Row2(lo)
    case 3 => Row3(lo)
    case 4 => Row4(lo)
    case 5 => Row5(lo)
    case 6 => Row6(lo)
    case 7 => Row7(lo)
    case 8 => Row8(lo)
    case 9 => Row9(lo)
    case 10 => RowA(lo)
    case 11 => RowB(lo)
    case 12 => RowC(lo)
    case 13 => RowD(lo)
    case 14 => RowE(lo)
    case _ => RowF(lo)
  }

  function Row0(lo: int): Option<OpCode> {
    if lo == 0x0 then Some(New(0x00, BRK, "BRK", 7, Implicit)) else // nes/src/cpu/opcode.rs:523
    if lo == 0x1 then Some(New(0x01, ORA, "ORA", 6, Indirect_X)) else // nes/src/cpu/opcode.rs:319
    if lo == 0x2 then Some(New(0x02, KIL, "KIL", 0, Implicit)) else // nes/src/cpu/opcode.rs:703
    if lo == 0x3 then Some(New(0x03, SLO, "SLO", 8, Indirect_X)) else // nes/src/cpu/opcode.rs:580
    if lo == 0x4 then Some(New(0x04, NOP_ALT, "NOP", 3, ZeroPage)) else // nes/src/cpu/opcode.rs:550
    if lo == 0x5 then Some(New(0x05, ORA, "ORA", 3, ZeroPage)) else // nes/src/cpu/opcode.rs:314
    if lo == 0x6 then Some(New(0x06, ASL, "ASL", 5, ZeroPage)) else // nes/src/cpu/opcode.rs:411
    if lo == 0x7 then Some(New(0x07, SLO, "SLO", 5, ZeroPage)) else // nes/src/cpu/opcode.rs:575
    if lo == 0x8 then Some(New(0x08, PHP, "PHP", 3, Implicit)) else // nes/src/cpu/opcode.rs:277
    if lo == 0x9 then Some(New(0x09, ORA, "ORA", 2, Immediate)) else // nes/src/cpu/opcode.rs:313
    if lo == 0xA then Some(New(0x0A, ASL, "ASL", 2, Accumulator)) else // nes/src/cpu/opcode.rs:410
    if lo == 0xB then Some(New(0x0B, ANC, "ANC", 2, Immediate)) else // nes/src/cpu/opcode.rs:652
    if lo == 0xC then Some(New(0x0C, NOP_ALT, "NOP", 4, Absolute)) else // nes/src/cpu/opcode.rs:559
    if lo == 0xD then Some(New(0x0D, ORA, "ORA", 4, Absolute)) else // nes/src/cpu/opcode.rs:316
    if lo == 0xE then Some(New(0x0E, ASL, "ASL", 6, Absolute)) else // nes/src/cpu/opcode.rs:413
    if lo == 0xF then Some(New(0x0F, SLO, "SLO", 6, Absolute)) else // nes/src/cpu/opcode.rs:577
    None
  }

  function Row1(lo: int): Option<OpCode> {
    if lo == 0x0 then Some(New(0x10, BPL, "BPL", 2, Relative)) else // nes/src/cpu/opcode.rs:479
    if lo == 0x1 then Some(New(0x11, ORA, "ORA", 5, Indirect_Y)) else // nes/src/cpu/opcode.rs:320
    if lo == 0x2 then Some(New(0x12, KIL, "KIL", 0, Implicit)) else // nes/src/cpu/opcode.rs:704
    if lo == 0x3 then Some(New(0x13, SLO, "SLO", 8, Indirect_Y)) else // nes/src/cpu/opcode.rs:581
    if lo == 0x4 then Some(New(0x14, NOP_ALT, "NOP", 4, ZeroPage_X)) else // nes/src/cpu/opcode.rs:553
    if lo == 0x5 then Some(New(0x15, ORA, "ORA", 4, ZeroPage_X)) else // nes/src/cpu/opcode.rs:315
    if lo == 0x6 then Some(New(0x16, ASL, "ASL", 6, ZeroPage_X)) else // nes/src/cpu/opcode.rs:412
    if lo == 0x7 then Some(New(0x17, SLO, "SLO", 6, ZeroPage_X)) else // nes/src/cpu/opcode.rs:576
    if lo == 0x8 then Some(New(0x18, CLC, "CLC", 2, Implicit)) else // nes/src/cpu/opcode.rs:493
    if lo == 0x9 then Some(New(0x19, ORA, "ORA", 4, Absolute_Y)) else // nes/src/cpu/opcode.rs:318
    if lo == 0xA then Some(New(0x1A, NOP_ALT, "NOP", 2, Implicit)) else // nes/src/cpu/opcode.rs:539
    if lo == 0xB then Some(New(0x1B, SLO, "SLO", 7, Absolute_Y)) else // nes/src/cpu/opcode.rs:579
    if lo == 0xC then Some(New(0x1C, NOP_ALT, "NOP", 4, Absolute_X)) else // nes/src/cpu/opcode.rs:560
    if lo == 0xD then Some(New(0x1D, ORA, "ORA", 4, Absolute_X)) else // nes/src/cpu/opcode.rs:317
    if lo == 0xE then Some(New(0x1E, ASL, "ASL", 7, Absolute_X)) else // nes/src/cpu/opcode.rs:414
    if lo == 0xF then Some(New(0x1F, SLO, "SLO", 7, Absolute_X)) else // nes/src/cpu/opcode.rs:578
    None
  }

  function Row2(lo: int): Option<OpCode> {
    if lo == 0x0 then Some(New(0x20, JSR, "JSR", 6, Absolute)) else // nes/src/cpu/opcode.rs:449
    if lo == 0x1 then Some(New(0x21, AND, "AND", 6, Indirect_X)) else // nes/src/cpu/opcode.rs:297
    if lo == 0x2 then Some(New(0x22, KIL, "KIL", 0, Implicit)) else // nes/src/cpu/opcode.rs:705
    if lo == 0x3 then Some(New(0x23, RLA, "RLA", 8, Indirect_X)) else // nes/src/cpu/opcode.rs:590
    if lo == 0x4 then Some(New(0x24, BIT, "BIT", 3, ZeroPage)) else // nes/src/cpu/opcode.rs:324
    if lo == 0x5 then Some(New(0x25, AND, "AND", 3, ZeroPage)) else // nes/src/cpu/opcode.rs:292
    if lo == 0x6 then Some(New(0x26, ROL, "ROL", 5, ZeroPage)) else // nes/src/cpu/opcode.rs:427
    if lo == 0x7 then Some(New(0x27, RLA, "RLA", 5, ZeroPage)) else // nes/src/cpu/opcode.rs:585
    if lo == 0x8 then Some(New(0x28, PLP, "PLP", 4, Implicit)) else // nes/src/cpu/opcode.rs:285
    if lo == 0x9 then Some(New(0x29, AND, "AND", 2, Immediate)) else // nes/src/cpu/opcode.rs:291
    if lo == 0xA then Some(New(0x2A, ROL, "ROL", 2, Accumulator)) else // nes/src/cpu/opcode.rs:426
    if lo == 0xB then Some(New(0x2B, ANC, "ANC", 2, Immediate)) else // nes/src/cpu/opcode.rs:653
    if lo == 0xC then Some(New(0x2C, BIT, "BIT", 4, Absolute)) else // nes/src/cpu/opcode.rs:325
    if lo == 0xD then Some(New(0x2D, AND, "AND", 4, Absolute)) else // nes/src/cpu/opcode.rs:294
    if lo == 0xE then Some(New(0x2E, ROL, "ROL", 6, Absolute)) else // nes/src/cpu/opcode.rs:429
    if lo == 0xF then Some(New(0x2F, RLA, "RLA", 6, Absolute)) else // nes/src/cpu/opcode.rs:587
    None
  }

  function Row3(lo: int): Option<OpCode> {
    if lo == 0x0 then Some(New(0x30, BMI, "BMI", 2, Relative)) else // nes/src/cpu/opcode.rs:471
    if lo == 0x1 then Some(New(0x31, AND, "AND", 5, Indirect_Y)) else // nes/src/cpu/opcode.rs:298
    if lo == 0x2 then Some(New(0x32, KIL, "KIL", 0, Implicit)) else // nes/src/cpu/opcode.rs:706
    if lo == 0x3 then Some(New(0x33, RLA, "RLA", 8, Indirect_Y)) else // nes/src/cpu/opcode.rs:591
    if lo == 0x4 then Some(New(0x34, NOP_ALT, "NOP", 4, ZeroPage_X)) else // nes/src/cpu/opcode.rs:554
    if lo == 0x5 then Some(New(0x35, AND, "AND", 4, ZeroPage_X)) else // nes/src/cpu/opcode.rs:293
    if lo == 0x6 then Some(New(0x36, ROL, "ROL", 6, ZeroPage_X)) else // nes/src/cpu/opcode.rs:428
    if lo == 0x7 then Some(New(0x37, RLA, "RLA", 6, ZeroPage_X)) else // nes/src/cpu/opcode.rs:586
    if lo == 0x8 then Some(New(0x38, SEC, "SEC", 2, Implicit)) else // nes/src/cpu/opcode.rs:509
    if lo == 0x9 then Some(New(0x39, AND, "AND", 4, Absolute_Y)) else // nes/src/cpu/opcode.rs:296
    if lo == 0xA then Some(New(0x3A, NOP_ALT, "NOP", 2, Implicit)) else // nes/src/cpu/opcode.rs:540
    if lo == 0xB then Some(New(0x3B, RLA, "RLA", 7, Absolute_Y)) else // nes/src/cpu/opcode.rs:589
    if lo == 0xC then Some(New(0x3C, NOP_ALT, "NOP", 4, Absolute_X)) else // nes/src/cpu/opcode.rs:561
    if lo == 0xD then Some(New(0x3D, AND, "AND", 4, Absolute_X)) else // nes/src/cpu/opcode.rs:295
    if lo == 0xE then Some(New(0x3E, ROL, "ROL", 7, Absolute_X)) else // nes/src/cpu/opcode.rs:430
    if lo == 0xF then Some(New(0x3F, RLA, "RLA", 7, Absolute_X)) else // nes/src/cpu/opcode.rs:588
    None
  }

  function Row4(lo: int): Option<OpCode> {
    if lo == 0x0 then Some(New(0x40, RTI, "RTI", 6, Implicit)) else // nes/src/cpu/opcode.rs:531
    if lo == 0x1 then Some(New(0x41, EOR, "EOR", 6, Indirect_X)) else // nes/src/cpu/opcode.rs:308
    if lo == 0x2 then Some(New(0x42, KIL, "KIL", 0, Implicit)) else // nes/src/cpu/opcode.rs:707
    if lo == 0x3 then Some(New(0x43, SRE, "SRE", 8, Indirect_X)) else // nes/src/cpu/opcode.rs:600
    if lo == 0x4 then Some(New(0x44, NOP_ALT, "NOP", 3, ZeroPage)) else // nes/src/cpu/opcode.rs:551
    if lo == 0x5 then Some(New(0x45, EOR, "EOR", 3, ZeroPage)) else // nes/src/cpu/opcode.rs:303
    if lo == 0x6 then Some(New(0x46, LSR, "LSR", 5, ZeroPage)) else // nes/src/cpu/opcode.rs:419
    if lo == 0x7 then Some(New(0x47, SRE, "SRE", 5, ZeroPage)) else // nes/src/cpu/opcode.rs:595
    if lo == 0x8 then Some(New(0x48, PHA, "PHA", 3, Implicit)) else // nes/src/cpu/opcode.rs:273
    if lo == 0x9 then Some(New(0x49, EOR, "EOR", 2, Immediate)) else // nes/src/cpu/opcode.rs:302
    if lo == 0xA then Some(New(0x4A, LSR, "LSR", 2, Accumulator)) else // nes/src/cpu/opcode.rs:418
    if lo == 0xB then Some(New(0x4B, ALR, "ALR", 2, Immediate)) else // nes/src/cpu/opcode.rs:657
    if lo == 0xC then Some(New(0x4C, JMP, "JMP", 3, Absolute)) else // nes/src/cpu/opcode.rs:444
    if lo == 0xD then Some(New(0x4D, EOR, "EOR", 4, Absolute)) else // nes/src/cpu/opcode.rs:305
    if lo == 0xE then Some(New(0x4E, LSR, "LSR", 6, Absolute)) else // nes/src/cpu/opcode.rs:421
    if lo == 0xF then Some(New(0x4F, SRE, "SRE", 6, Absolute)) else // nes/src/cpu/opcode.rs:597
    None
  }

  function Row5(lo: int): Option<OpCode> {
    if lo == 0x0 then Some(New(0x50, BVC, "BVC", 2, Relative)) else // nes/src/cpu/opcode.rs:483
    if lo == 0x1 then Some(New(0x51, EOR, "EOR", 5, Indirect_Y)) else // nes/src/cpu/opcode.rs:309
    if lo == 0x2 then Some(New(0x52, KIL, "KIL", 0, Implicit)) else // nes/src/cpu/opcode.rs:708
    if lo == 0x3 then Some(New(0x53, SRE, "SRE", 8, Indirect_Y)) else // nes/src/cpu/opcode.rs:601
    if lo == 0x4 then Some(New(0x54, NOP_ALT, "NOP", 4, ZeroPage_X)) else // nes/src/cpu/opcode.rs:555
    if lo == 0x5 then Some(New(0x55, EOR, "EOR", 4, ZeroPage_X)) else // nes/src/cpu/opcode.rs:304
    if lo == 0x6 then Some(New(0x56, LSR, "LSR", 6, ZeroPage_X)) else // nes/src/cpu/opcode.rs:420
    if lo == 0x7 then Some(New(0x57, SRE, "SRE", 6, ZeroPage_X)) else // nes/src/cpu/opcode.rs:596
    if lo == 0x8 then Some(New(0x58, CLI, "CLI", 2, Implicit)) else // nes/src/cpu/opcode.rs:501
    if lo == 0x9 then Some(New(0x59, EOR, "EOR", 4, Absolute_Y)) else // nes/src/cpu/opcode.rs:307
    if lo == 0xA then Some(New(0x5A, NOP_ALT, "NOP", 2, Implicit)) else // nes/src/cpu/opcode.rs:541
    if lo == 0xB then Some(New(0x5B, SRE, "SRE", 7, Absolute_Y)) else // nes/src/cpu/opcode.rs:599
    if lo == 0xC then Some(New(0x5C, NOP_ALT, "NOP", 4, Absolute_X)) else // nes/src/cpu/opcode.rs:562
    if lo == 0xD then Some(New(0x5D, EOR, "EOR", 4, Absolute_X)) else // nes/src/cpu/opcode.rs:306
    if lo == 0xE then Some(New(0x5E, LSR, "LSR", 7, Absolute_X)) else // nes/src/cpu/opcode.rs:422
    if lo == 0xF then Some(New(0x5F, SRE, "SRE", 7, Absolute_X)) else // nes/src/cpu/opcode.rs:598
    None
  }

  function Row6(lo: int): Option<OpCode> {
    if lo == 0x0 then Some(New(0x60, RTS, "RTS", 6, Implicit)) else // nes/src/cpu/opcode.rs:453
    if lo == 0x1 then Some(New(0x61, ADC, "ADC", 6, Indirect_X)) else // nes/src/cpu/opcode.rs:337
    if lo == 0x2 then Some(New(0x62, KIL, "KIL", 0, Implicit)) else // nes/src/cpu/opcode.rs:709
    if lo == 0x3 then Some(New(0x63, RRA, "RRA", 8, Indirect_X)) else // nes/src/cpu/opcode.rs:610
    if lo == 0x4 then Some(New(0x64, NOP_ALT, "NOP", 3, ZeroPage)) else // nes/src/cpu/opcode.rs:552
    if lo == 0x5 then Some(New(0x65, ADC, "ADC", 3, ZeroPage)) else // nes/src/cpu/opcode.rs:332
    if lo == 0x6 then Some(New(0x66, ROR, "ROR", 5, ZeroPage)) else // nes/src/cpu/opcode.rs:435
    if lo == 0x7 then Some(New(0x67, RRA, "RRA", 5, ZeroPage)) else // nes/src/cpu/opcode.rs:605
    if lo == 0x8 then Some(New(0x68, PLA, "PLA", 4, Implicit)) else // nes/src/cpu/opcode.rs:281
    if lo == 0x9 then Some(New(0x69, ADC, "ADC", 2, Immediate)) else // nes/src/cpu/opcode.rs:331
    if lo == 0xA then Some(New(0x6A, ROR, "ROR", 2, Accumulator)) else // nes/src/cpu/opcode.rs:434
    if lo == 0xB then Some(New(0x6B, ARR, "ARR", 2, Immediate)) else // nes/src/cpu/opcode.rs:661
    if lo == 0xC then Some(New(0x6C, JMP, "JMP", 5, Indirect)) else // nes/src/cpu/opcode.rs:445
    if lo == 0xD then Some(New(0x6D, ADC, "ADC", 4, Absolute)) else // nes/src/cpu/opcode.rs:334
    if lo == 0xE then Some(New(0x6E, ROR, "ROR", 6, Absolute)) else // nes/src/cpu/opcode.rs:437
    if lo == 0xF then Some(New(0x6F, RRA, "RRA", 6, Absolute)) else // nes/src/cpu/opcode.rs:607
    None
  }

  function Row7(lo: int): Option<OpCode> {
    if lo == 0x0 then Some(New(0x70, BVS, "BVS", 2, Relative)) else // nes/src/cpu/opcode.rs:487
    if lo == 0x1 then Some(New(0x71, ADC, "ADC", 5, Indirect_Y)) else // nes/src/cpu/opcode.rs:338
    if lo == 0x2 then Some(New(0x72, KIL, "KIL", 0, Implicit)) else // nes/src/cpu/opcode.rs:710
    if lo == 0x3 then Some(New(0x73, RRA, "RRA", 8, Indirect_Y)) else // nes/src/cpu/opcode.rs:611
    if lo == 0x4 then Some(New(0x74, NOP_ALT, "NOP", 4, ZeroPage_X)) else // nes/src/cpu/opcode.rs:556
    if lo == 0x5 then Some(New(0x75, ADC, "ADC", 4, ZeroPage_X)) else // nes/src/cpu/opcode.rs:333
    if lo == 0x6 then Some(New(0x76, ROR, "ROR", 6, ZeroPage_X)) else // nes/src/cpu/opcode.rs:436
    if lo == 0x7 then Some(New(0x77, RRA, "RRA", 6, ZeroPage_X)) else // nes/src/cpu/opcode.rs:606
    if lo == 0x8 then Some(New(0x78, SEI, "SEI", 2, Implicit)) else // nes/src/cpu/opcode.rs:517
    if lo == 0x9 then Some(New(0x79, ADC, "ADC", 4, Absolute_Y)) else // nes/src/cpu/opcode.rs:336
    if lo == 0xA then Some(New(0x7A, NOP_ALT, "NOP", 2, Implicit)) else // nes/src/cpu/opcode.rs:542
    if lo == 0xB then Some(New(0x7B, RRA, "RRA", 7, Absolute_Y)) else // nes/src/cpu/opcode.rs:609
    if lo == 0xC then Some(New(0x7C, NOP_ALT, "NOP", 4, Absolute_X)) else // nes/src/cpu/opcode.rs:563
    if lo == 0xD then Some(New(0x7D, ADC, "ADC", 4, Absolute_X)) else // nes/src/cpu/opcode.rs:335
    if lo == 0xE then Some(New(0x7E, ROR, "ROR", 7, Absolute_X)) else // nes/src/cpu/opcode.rs:438
    if lo == 0xF then Some(New(0x7F, RRA, "RRA", 7, Absolute_X)) else // nes/src/cpu/opcode.rs:608
    None
  }

  function Row8(lo: int): Option<OpCode> {
    if lo == 0x0 then Some(New(0x80, NOP_ALT, "NOP", 2, Immediate)) else // nes/src/cpu/opcode.rs:545
    if lo == 0x1 then Some(New(0x81, STA, "STA", 6, Indirect_X)) else // nes/src/cpu/opcode.rs:228
    if lo == 0x2 then Some(New(0x82, NOP_ALT, "NOP", 2, Immediate)) else // nes/src/cpu/opcode.rs:546
    if lo == 0x3 then Some(New(0x83, SAX, "SAX", 6, Indirect_X)) else // nes/src/cpu/opcode.rs:618
    if lo == 0x4 then Some(New(0x84, STY, "STY", 3, ZeroPage)) else // nes/src/cpu/opcode.rs:239
    if lo == 0x5 then Some(New(0x85, STA, "STA", 3, ZeroPage)) else // nes/src/cpu/opcode.rs:223
    if lo == 0x6 then Some(New(0x86, STX, "STX", 3, ZeroPage)) else // nes/src/cpu/opcode.rs:233
    if lo == 0x7 then Some(New(0x87, SAX, "SAX", 3, ZeroPage)) else // nes/src/cpu/opcode.rs:615
    if lo == 0x8 then Some(New(0x88, DEY, "DEY", 2, Implicit)) else // nes/src/cpu/opcode.rs:404
    if lo == 0x9 then Some(New(0x89, NOP_ALT, "NOP", 2, Immediate)) else // nes/src/cpu/opcode.rs:547
    if lo == 0xA then Some(New(0x8A, TXA, "TXA", 2, Implicit)) else // nes/src/cpu/opcode.rs:255
    if lo == 0xB then Some(New(0x8B, XAA, "XAA", 2, Immediate)) else // nes/src/cpu/opcode.rs:666
    if lo == 0xC then Some(New(0x8C, STY, "STY", 4, Absolute)) else // nes/src/cpu/opcode.rs:241
    if lo == 0xD then Some(New(0x8D, STA, "STA", 4, Absolute)) else // nes/src/cpu/opcode.rs:225
    if lo == 0xE then Some(New(0x8E, STX, "STX", 4, Absolute)) else // nes/src/cpu/opcode.rs:235
    if lo == 0xF then Some(New(0x8F, SAX, "SAX", 4, Absolute)) else // nes/src/cpu/opcode.rs:617
    None
  }

  function Row9(lo: int): Option<OpCode> {
    if lo == 0x0 then Some(New(0x90, BCC, "BCC", 2, Relative)) else // nes/src/cpu/opcode.rs:459
    if lo == 0x1 then Some(New(0x91, STA, "STA", 6, Indirect_Y)) else // nes/src/cpu/opcode.rs:229
    if lo == 0x2 then Some(New(0x92, KIL, "KIL", 0, Implicit)) else // nes/src/cpu/opcode.rs:711
    if lo == 0x3 then Some(New(0x93, AHX, "AHX", 6, Indirect_Y)) else // nes/src/cpu/opcode.rs:680
    if lo == 0x4 then Some(New(0x94, STY, "STY", 4, ZeroPage_X)) else // nes/src/cpu/opcode.rs:240
    if lo == 0x5 then Some(New(0x95, STA, "STA", 4, ZeroPage_X)) else // nes/src/cpu/opcode.rs:224
    if lo == 0x6 then Some(New(0x96, STX, "STX", 4, ZeroPage_Y)) else // nes/src/cpu/opcode.rs:234
    if lo == 0x7 then Some(New(0x97, SAX, "SAX", 4, ZeroPage_Y)) else // nes/src/cpu/opcode.rs:616
    if lo == 0x8 then Some(New(0x98, TYA, "TYA", 2, Implicit)) else // nes/src/cpu/opcode.rs:259
    if lo == 0x9 then Some(New(0x99, STA, "STA", 5, Absolute_Y)) else // nes/src/cpu/opcode.rs:227
    if lo == 0xA then Some(New(0x9A, TXS, "TXS", 2, Implicit)) else // nes/src/cpu/opcode.rs:269
    if lo == 0xB then Some(New(0x9B, TAS, "TAS", 5, Absolute_Y)) else // nes/src/cpu/opcode.rs:695
    if lo == 0xC then Some(New(0x9C, SHY, "SHY", 5, Absolute_X)) else // nes/src/cpu/opcode.rs:685
    if lo == 0xD then Some(New(0x9D, STA, "STA", 5, Absolute_X)) else // nes/src/cpu/opcode.rs:226
    if lo == 0xE then Some(New(0x9E, SHX, "SHX", 5, Absolute_Y)) else // nes/src/cpu/opcode.rs:690
    if lo == 0xF then Some(New(0x9F, AHX, "AHX", 5, Absolute_Y)) else // nes/src/cpu/opcode.rs:679
    None
  }

  function RowA(lo: int): Option<OpCode> {
    if lo == 0x0 then Some(New(0xA0, LDY, "LDY", 2, Immediate)) else // nes/src/cpu/opcode.rs:215
    if lo == 0x1 then Some(New(0xA1, LDA, "LDA", 6, Indirect_X)) else // nes/src/cpu/opcode.rs:202
    if lo == 0x2 then Some(New(0xA2, LDX, "LDX", 2, Immediate)) else // nes/src/cpu/opcode.rs:207
    if lo == 0x3 then Some(New(0xA3, LAX, "LAX", 6, Indirect_X)) else // nes/src/cpu/opcode.rs:627
    if lo == 0x4 then Some(New(0xA4, LDY, "LDY", 3, ZeroPage)) else // nes/src/cpu/opcode.rs:216
    if lo == 0x5 then Some(New(0xA5, LDA, "LDA", 3, ZeroPage)) else // nes/src/cpu/opcode.rs:197
    if lo == 0x6 then Some(New(0xA6, LDX, "LDX", 3, ZeroPage)) else // nes/src/cpu/opcode.rs:208
    if lo == 0x7 then Some(New(0xA7, LAX, "LAX", 3, ZeroPage)) else // nes/src/cpu/opcode.rs:623
    if lo == 0x8 then Some(New(0xA8, TAY, "TAY", 2, Implicit)) else // nes/src/cpu/opcode.rs:251
    if lo == 0x9 then Some(New(0xA9, LDA, "LDA", 2, Immediate)) else // nes/src/cpu/opcode.rs:196
    if lo == 0xA then Some(New(0xAA, TAX, "TAX", 2, Implicit)) else // nes/src/cpu/opcode.rs:247
    if lo == 0xB then Some(New(0xAB, LAX, "LAX", 2, Immediate)) else // nes/src/cpu/opcode.rs:622
    if lo == 0xC then Some(New(0xAC, LDY, "LDY", 4, Absolute)) else // nes/src/cpu/opcode.rs:218
    if lo == 0xD then Some(New(0xAD, LDA, "LDA", 4, Absolute)) else // nes/src/cpu/opcode.rs:199
    if lo == 0xE then Some(New(0xAE, LDX, "LDX", 4, Absolute)) else // nes/src/cpu/opcode.rs:210
    if lo == 0xF then Some(New(0xAF, LAX, "LAX", 4, Absolute)) else // nes/src/cpu/opcode.rs:625
    None
  }

  function RowB(lo: int): Option<OpCode> {
    if lo == 0x0 then Some(New(0xB0, BCS, "BCS", 2, Relative)) else // nes/src/cpu/opcode.rs:463
    if lo == 0x1 then Some(New(0xB1, LDA, "LDA", 5, Indirect_Y)) else // nes/src/cpu/opcode.rs:203
    if lo == 0x2 then Some(New(0xB2, KIL, "KIL", 0, Implicit)) else // nes/src/cpu/opcode.rs:712
    if lo == 0x3 then Some(New(0xB3, LAX, "LAX", 5, Indirect_Y)) else // nes/src/cpu/opcode.rs:628
    if lo == 0x4 then Some(New(0xB4, LDY, "LDY", 4, ZeroPage_X)) else // nes/src/cpu/opcode.rs:217
    if lo == 0x5 then Some(New(0xB5, LDA, "LDA", 4, ZeroPage_X)) else // nes/src/cpu/opcode.rs:198
    if lo == 0x6 then Some(New(0xB6, LDX, "LDX", 4, ZeroPage_Y)) else // nes/src/cpu/opcode.rs:209
    if lo == 0x7 then Some(New(0xB7, LAX, "LAX", 4, ZeroPage_Y)) else // nes/src/cpu/opcode.rs:624
    if lo == 0x8 then Some(New(0xB8, CLV, "CLV", 2, Implicit)) else // nes/src/cpu/opcode.rs:505
    if lo == 0x9 then Some(New(0xB9, LDA, "LDA", 4, Absolute_Y)) else // nes/src/cpu/opcode.rs:201
    if lo == 0xA then Some(New(0xBA, TSX, "TSX", 2, Implicit)) else // nes/src/cpu/opcode.rs:265
    if lo == 0xB then Some(New(0xBB, LAS, "LAS", 4, Absolute_Y)) else // nes/src/cpu/opcode.rs:699
    if lo == 0xC then Some(New(0xBC, LDY, "LDY", 4, Absolute_X)) else // nes/src/cpu/opcode.rs:219
    if lo == 0xD then Some(New(0xBD, LDA, "LDA", 4, Absolute_X)) else // nes/src/cpu/opcode.rs:200
    if lo == 0xE then Some(New(0xBE, LDX, "LDX", 4, Absolute_Y)) else // nes/src/cpu/opcode.rs:211
    if lo == 0xF then Some(New(0xBF, LAX, "LAX", 4, Absolute_Y)) else // nes/src/cpu/opcode.rs:626
    None
  }

  function RowC(lo: int): Option<OpCode> {
    if lo == 0x0 then Some(New(0xC0, CPY, "CPY", 2, Immediate)) else // nes/src/cpu/opcode.rs:370
    if lo == 0x1 then Some(New(0xC1, CMP, "CMP", 6, Indirect_X)) else // nes/src/cpu/opcode.rs:359
    if lo == 0x2 then Some(New(0xC2, NOP_ALT, "NOP", 2, Immediate)) else // nes/src/cpu/opcode.rs:548
    if lo == 0x3 then Some(New(0xC3, DCP, "DCP", 8, Indirect_X)) else // nes/src/cpu/opcode.rs:637
    if lo == 0x4 then Some(New(0xC4, CPY, "CPY", 3, ZeroPage)) else // nes/src/cpu/opcode.rs:371
    if lo == 0x5 then Some(New(0xC5, CMP, "CMP", 3, ZeroPage)) else // nes/src/cpu/opcode.rs:354
    if lo == 0x6 then Some(New(0xC6, DEC, "DEC", 5, ZeroPage)) else // nes/src/cpu/opcode.rs:393
    if lo == 0x7 then Some(New(0xC7, DCP, "DCP", 5, ZeroPage)) else // nes/src/cpu/opcode.rs:632
    if lo == 0x8 then Some(New(0xC8, INY, "INY", 2, Implicit)) else // nes/src/cpu/opcode.rs:389
    if lo == 0x9 then Some(New(0xC9, CMP, "CMP", 2, Immediate)) else // nes/src/cpu/opcode.rs:353
    if lo == 0xA then Some(New(0xCA, DEX, "DEX", 2, Implicit)) else // nes/src/cpu/opcode.rs:400
    if lo == 0xB then Some(New(0xCB, AXS, "AXS", 2, Immediate)) else // nes/src/cpu/opcode.rs:670
    if lo == 0xC then Some(New(0xCC, CPY, "CPY", 4, Absolute)) else // nes/src/cpu/opcode.rs:372
    if lo == 0xD then Some(New(0xCD, CMP, "CMP", 4, Absolute)) else // nes/src/cpu/opcode.rs:356
    if lo == 0xE then Some(New(0xCE, DEC, "DEC", 6, Absolute)) else // nes/src/cpu/opcode.rs:395
    if lo == 0xF then Some(New(0xCF, DCP, "DCP", 6, Absolute)) else // nes/src/cpu/opcode.rs:634
    None
  }

  function RowD(lo: int): Option<OpCode> {
    if lo == 0x0 then Some(New(0xD0, BNE, "BNE", 2, Relative)) else // nes/src/cpu/opcode.rs:475
    if lo == 0x1 then Some(New(0xD1, CMP, "CMP", 5, Indirect_Y)) else // nes/src/cpu/opcode.rs:360
    if lo == 0x2 then Some(New(0xD2, KIL, "KIL", 0, Implicit)) else // nes/src/cpu/opcode.rs:713
    if lo == 0x3 then Some(New(0xD3, DCP, "DCP", 8, Indirect_Y)) else // nes/src/cpu/opcode.rs:638
    if lo == 0x4 then Some(New(0xD4, NOP_ALT, "NOP", 4, ZeroPage_X)) else // nes/src/cpu/opcode.rs:557
    if lo == 0x5 then Some(New(0xD5, CMP, "CMP", 4, ZeroPage_X)) else // nes/src/cpu/opcode.rs:355
    if lo == 0x6 then Some(New(0xD6, DEC, "DEC", 6, ZeroPage_X)) else // nes/src/cpu/opcode.rs:394
    if lo == 0x7 then Some(New(0xD7, DCP, "DCP", 6, ZeroPage_X)) else // nes/src/cpu/opcode.rs:633
    if lo == 0x8 then Some(New(0xD8, CLD, "CLD", 2, Implicit)) else // nes/src/cpu/opcode.rs:497
    if lo == 0x9 then Some(New(0xD9, CMP, "CMP", 4, Absolute_Y)) else // nes/src/cpu/opcode.rs:358
    if lo == 0xA then Some(New(0xDA, NOP_ALT, "NOP", 2, Implicit)) else // nes/src/cpu/opcode.rs:543
    if lo == 0xB then Some(New(0xDB, DCP, "DCP", 7, Absolute_Y)) else // nes/src/cpu/opcode.rs:636
    if lo == 0xC then Some(New(0xDC, NOP_ALT, "NOP", 4, Absolute_X)) else // nes/src/cpu/opcode.rs:564
    if lo == 0xD then Some(New(0xDD, CMP, "CMP", 4, Absolute_X)) else // nes/src/cpu/opcode.rs:357
    if lo == 0xE then Some(New(0xDE, DEC, "DEC", 7, Absolute_X)) else // nes/src/cpu/opcode.rs:396
    if lo == 0xF then Some(New(0xDF, DCP, "DCP", 7, Absolute_X)) else // nes/src/cpu/opcode.rs:635
    None
  }

  function RowE(lo: int): Option<OpCode> {
    if lo == 0x0 then Some(New(0xE0, CPX, "CPX", 2, Immediate)) else // nes/src/cpu/opcode.rs:364
    if lo == 0x1 then Some(New(0xE1, SBC, "SBC", 6, Indirect_X)) else // nes/src/cpu/opcode.rs:348
    if lo == 0x2 then Some(New(0xE2, NOP_ALT, "NOP", 2, Immediate)) else // nes/src/cpu/opcode.rs:549
    if lo == 0x3 then Some(New(0xE3, ISC, "ISC", 8, Indirect_X)) else // nes/src/cpu/opcode.rs:647
    if lo == 0x4 then Some(New(0xE4, CPX, "CPX", 3, ZeroPage)) else // nes/src/cpu/opcode.rs:365
    if lo == 0x5 then Some(New(0xE5, SBC, "SBC", 3, ZeroPage)) else // nes/src/cpu/opcode.rs:343
    if lo == 0x6 then Some(New(0xE6, INC, "INC", 5, ZeroPage)) else // nes/src/cpu/opcode.rs:378
    if lo == 0x7 then Some(New(0xE7, ISC, "ISC", 5, ZeroPage)) else // nes/src/cpu/opcode.rs:642
    if lo == 0x8 then Some(New(0xE8, INX, "INX", 2, Implicit)) else // nes/src/cpu/opcode.rs:385
    if lo == 0x9 then Some(New(0xE9, SBC, "SBC", 2, Immediate)) else // nes/src/cpu/opcode.rs:342
    if lo == 0xA then Some(New(0xEA, NOP, "NOP", 2, Implicit)) else // nes/src/cpu/opcode.rs:527
    if lo == 0xB then Some(New(0xEB, SBC_NOP, "SBC", 2, Immediate)) else // nes/src/cpu/opcode.rs:674
    if lo == 0xC then Some(New(0xEC, CPX, "CPX", 4, Absolute)) else // nes/src/cpu/opcode.rs:366
    if lo == 0xD then Some(New(0xED, SBC, "SBC", 4, Absolute)) else // nes/src/cpu/opcode.rs:345
    if lo == 0xE then Some(New(0xEE, INC, "INC", 6, Absolute)) else // nes/src/cpu/opcode.rs:380
    if lo == 0xF then Some(New(0xEF, ISC, "ISC", 6, Absolute)) else // nes/src/cpu/opcode.rs:644
    None
  }

  function RowF(lo: int): Option<OpCode> {
    if lo == 0x0 then Some(New(0xF0, BEQ, "BEQ", 2, Relative)) else // nes/src/cpu/opcode.rs:467
    if lo == 0x1 then Some(New(0xF1, SBC, "SBC", 5, Indirect_Y)) else // nes/src/cpu/opcode.rs:349
    if lo == 0x2 then Some(New(0xF2, KIL, "KIL", 0, Implicit)) else // nes/src/cpu/opcode.rs:714
    if lo == 0x3 then Some(New(0xF3, ISC, "ISC", 8, Indirect_Y)) else // nes/src/cpu/opcode.rs:648
    if lo == 0x4 then Some(New(0xF4, NOP_ALT, "NOP", 4, ZeroPage_X)) else // nes/src/cpu/opcode.rs:558
    if lo == 0x5 then Some(New(0xF5, SBC, "SBC", 4, ZeroPage_X)) else // nes/src/cpu/opcode.rs:344
    if lo == 0x6 then Some(New(0xF6, INC, "INC", 6, ZeroPage_X)) else // nes/src/cpu/opcode.rs:379
    if lo == 0x7 then Some(New(0xF7, ISC, "ISC", 6, ZeroPage_X)) else // nes/src/cpu/opcode.rs:643
    if lo == 0x8 then Some(New(0xF8, SED, "SED", 2, Implicit)) else // nes/src/cpu/opcode.rs:513
    if lo == 0x9 then Some(New(0xF9, SBC, "SBC", 4, Absolute_Y)) else // nes/src/cpu/opcode.rs:347
    if lo == 0xA then Some(New(0xFA, NOP_ALT, "NOP", 2, Implicit)) else // nes/src/cpu/opcode.rs:544
    if lo == 0xB then Some(New(0xFB, ISC, "ISC", 7, Absolute_Y)) else // nes/src/cpu/opcode.rs:646
    if lo == 0xC then Some(New(0xFC, NOP_ALT, "NOP", 4, Absolute_X)) else // nes/src/cpu/opcode.rs:565
    if lo == 0xD then Some(New(0xFD, SBC, "SBC", 4, Absolute_X)) else // nes/src/cpu/opcode.rs:346
    if lo == 0xE then Some(New(0xFE, INC, "INC", 7, Absolute_X)) else // nes/src/cpu/opcode.rs:381
    if lo == 0xF then Some(New(0xFF, ISC, "ISC", 7, Absolute_X)) else // nes/src/cpu/opcode.rs:645
    None
  }

  /// `decode_opcode`: the table entry for the byte.  The lookup panics on a
  /// missing entry, which the complete table rules out.
  function DecodeOpcode(opbyte: u8): (op: OpCode)
    ensures op.byte == opbyte && op.len == Len(op.mode) && ModeFits(op)
    ensures op.cycles == 0 <==> op.instruction == KIL
  {
    EntryAt(opbyte);
    Opcodes(opbyte).value
  }

  /// Whether the arm of `execute_instruction` for this instruction can form
  /// its operand in this mode: `get_operand_address` panics for Implicit and
  /// Accumulator, so only the arms that never form an operand accept those
  /// two modes, together with the shift/rotate arms (which handle
  /// Accumulator themselves) and NOP_ALT (which skips Implicit).
  predicate ModeFits(op: OpCode) {
    match op.mode
    case Implicit => WithoutOperand(op.instruction) || op.instruction == NOP_ALT
    case Accumulator => WithoutOperand(op.instruction) || IsShift(op.instruction)
    case _ => true
  }

  /// The instructions whose arm never forms an operand address.
  predicate WithoutOperand(i: Instruction) {
    i == TAX || i == TAY || i == TXA || i == TYA || i == TSX || i == TXS || i == PHA ||
    i == PHP || i == PLA || i == PLP || i == INX || i == INY || i == DEX || i == DEY ||
    i == RTS || i == CLC || i == CLD || i == CLI || i == CLV || i == SEC || i == SED ||
    i == SEI || i == BRK || i == NOP || i == RTI || i == KIL
  }

  /// ASL, LSR, ROL and ROR, which also work on the accumulator.
  predicate IsShift(i: Instruction) {
    i == ASL || i == LSR || i == ROL || i == ROR
  }

  // ---------------------------------------------------------------------
  // Table properties, checked four bytes at a time.
  // ---------------------------------------------------------------------

  /// The entry `r` found for byte `b` exists, is stored under its own
  /// byte, has zero base cycles exactly when it is a KIL, and has an
  /// addressing mode that the instruction's execution can use.
  predicate EntryOkAt(r: Option<OpCode>, b: int) {
    r.Some? && r.value.byte == b && r.value.len == Len(r.value.mode)
    && (r.value.cycles == 0 <==> r.value.instruction == KIL) && ModeFits(r.value)
  }

  predicate EntryOk(b: u8) {
    EntryOkAt(Opcodes(b), b)
  }

  lemma Row0Part0Checked() ensures forall lo | 0 <= lo < 4 :: EntryOkAt(Row0(lo), 0x00 + lo) {}
  lemma Row0Part1Checked() ensures forall lo | 4 <= lo < 8 :: EntryOkAt(Row0(lo), 0x00 + lo) {}
  lemma Row0Part2Checked() ensures forall lo | 8 <= lo < 12 :: EntryOkAt(Row0(lo), 0x00 + lo) {}
  lemma Row0Part3Checked() ensures forall lo | 12 <= lo < 16 :: EntryOkAt(Row0(lo), 0x00 + lo) {}
  lemma Row1Part0Checked() ensures forall lo | 0 <= lo < 4 :: EntryOkAt(Row1(lo), 0x10 + lo) {}
  lemma Row1Part1Checked() ensures forall lo | 4 <= lo < 8 :: EntryOkAt(Row1(lo), 0x10 + lo) {}
  lemma Row1Part2Checked() ensures forall lo | 8 <= lo < 12 :: EntryOkAt(Row1(lo), 0x10 + lo) {}
  lemma Row1Part3Checked() ensures forall lo | 12 <= lo < 16 :: EntryOkAt(Row1(lo), 0x10 + lo) {}
  lemma Row2Part0Checked() ensures forall lo | 0 <= lo < 4 :: EntryOkAt(Row2(lo), 0x20 + lo) {}
  lemma Row2Part1Checked() ensures forall lo | 4 <= lo < 8 :: EntryOkAt(Row2(lo), 0x20 + lo) {}
  lemma Row2Part2Checked() ensures forall lo | 8 <= lo < 12 :: EntryOkAt(Row2(lo), 0x20 + lo) {}
  lemma Row2Part3Checked() ensures forall lo | 12 <= lo < 16 :: EntryOkAt(Row2(lo), 0x20 + lo) {}
  lemma Row3Part0Checked() ensures forall lo | 0 <= lo < 4 :: EntryOkAt(Row3(lo), 0x30 + lo) {}
  lemma Row3Part1Checked() ensures forall lo | 4 <= lo < 8 :: EntryOkAt(Row3(lo), 0x30 + lo) {}
  lemma Row3Part2Checked() ensures forall lo | 8 <= lo < 12 :: EntryOkAt(Row3(lo), 0x30 + lo) {}
  lemma Row3Part3Checked() ensures forall lo | 12 <= lo < 16 :: EntryOkAt(Row3(lo), 0x30 + lo) {}
  lemma Row4Part0Checked() ensures forall lo | 0 <= lo < 4 :: EntryOkAt(Row4(lo), 0x40 + lo) {}
  lemma Row4Part1Checked() ensures forall lo | 4 <= lo < 8 :: EntryOkAt(Row4(lo), 0x40 + lo) {}
  lemma Row4Part2Checked() ensures forall lo | 8 <= lo < 12 :: EntryOkAt(Row4(lo), 0x40 + lo) {}
  lemma Row4Part3Checked() ensures forall lo | 12 <= lo < 16 :: EntryOkAt(Row4(lo), 0x40 + lo) {}
  lemma Row5Part0Checked() ensures forall lo | 0 <= lo < 4 :: EntryOkAt(Row5(lo), 0x50 + lo) {}
  lemma Row5Part1Checked() ensures forall lo | 4 <= lo < 8 :: EntryOkAt(Row5(lo), 0x50 + lo) {}
  lemma Row5Part2Checked() ensures forall lo | 8 <= lo < 12 :: EntryOkAt(Row5(lo), 0x50 + lo) {}
  lemma Row5Part3Checked() ensures forall lo | 12 <= lo < 16 :: EntryOkAt(Row5(lo), 0x50 + lo) {}
  lemma Row6Part0Checked() ensures forall lo | 0 <= lo < 4 :: EntryOkAt(Row6(lo), 0x60 + lo) {}
  lemma Row6Part1Checked() ensures forall lo | 4 <= lo < 8 :: EntryOkAt(Row6(lo), 0x60 + lo) {}
  lemma Row6Part2Checked() ensures forall lo | 8 <= lo < 12 :: EntryOkAt(Row6(lo), 0x60 + lo) {}
  lemma Row6Part3Checked() ensures forall lo | 12 <= lo < 16 :: EntryOkAt(Row6(lo), 0x60 + lo) {}
  lemma Row7Part0Checked() ensures forall lo | 0 <= lo < 4 :: EntryOkAt(Row7(lo), 0x70 + lo) {}
  lemma Row7Part1Checked() ensures forall lo | 4 <= lo < 8 :: EntryOkAt(Row7(lo), 0x70 + lo) {}
  lemma Row7Part2Checked() ensures forall lo | 8 <= lo < 12 :: EntryOkAt(Row7(lo), 0x70 + lo) {}
  lemma Row7Part3Checked() ensures forall lo | 12 <= lo < 16 :: EntryOkAt(Row7(lo), 0x70 + lo) {}
  lemma Row8Part0Checked() ensures forall lo | 0 <= lo < 4 :: EntryOkAt(Row8(lo), 0x80 + lo) {}
  lemma Row8Part1Checked() ensures forall lo | 4 <= lo < 8 :: EntryOkAt(Row8(lo), 0x80 + lo) {}
  lemma Row8Part2Checked() ensures forall lo | 8 <= lo < 12 :: EntryOkAt(Row8(lo), 0x80 + lo) {}
  lemma Row8Part3Checked() ensures forall lo | 12 <= lo < 16 :: EntryOkAt(Row8(lo), 0x80 + lo) {}
  lemma Row9Part0Checked() ensures forall lo | 0 <= lo < 4 :: EntryOkAt(Row9(lo), 0x90 + lo) {}
  lemma Row9Part1Checked() ensures forall lo | 4 <= lo < 8 :: EntryOkAt(Row9(lo), 0x90 + lo) {}
  lemma Row9Part2Checked() ensures forall lo | 8 <= lo < 12 :: EntryOkAt(Row9(lo), 0x90 + lo) {}
  lemma Row9Part3Checked() ensures forall lo | 12 <= lo < 16 :: EntryOkAt(Row9(lo), 0x90 + lo) {}
  lemma RowAPart0Checked() ensures forall lo | 0 <= lo < 4 :: EntryOkAt(RowA(lo), 0xA0 + lo) {}
  lemma RowAPart1Checked() ensures forall lo | 4 <= lo < 8 :: EntryOkAt(RowA(lo), 0xA0 + lo) {}
  lemma RowAPart2Checked() ensures forall lo | 8 <= lo < 12 :: EntryOkAt(RowA(lo), 0xA0 + lo) {}
  lemma RowAPart3Checked() ensures forall lo | 12 <= lo < 16 :: EntryOkAt(RowA(lo), 0xA0 + lo) {}
  lemma RowBPart0Checked() ensures forall lo | 0 <= lo < 4 :: EntryOkAt(RowB(lo), 0xB0 + lo) {}
  lemma RowBPart1Checked() ensures forall lo | 4 <= lo < 8 :: EntryOkAt(RowB(lo), 0xB0 + lo) {}
  lemma RowBPart2Checked() ensures forall lo | 8 <= lo < 12 :: EntryOkAt(RowB(lo), 0xB0 + lo) {}
  lemma RowBPart3Checked() ensures forall lo | 12 <= lo < 16 :: EntryOkAt(RowB(lo), 0xB0 + lo) {}
  lemma RowCPart0Checked() ensures forall lo | 0 <= lo < 4 :: EntryOkAt(RowC(lo), 0xC0 + lo) {}
  lemma RowCPart1Checked() ensures forall lo | 4 <= lo < 8 :: EntryOkAt(RowC(lo), 0xC0 + lo) {}
  lemma RowCPart2Checked() ensures forall lo | 8 <= lo < 12 :: EntryOkAt(RowC(lo), 0xC0 + lo) {}
  lemma RowCPart3Checked() ensures forall lo | 12 <= lo < 16 :: EntryOkAt(RowC(lo), 0xC0 + lo) {}
  lemma RowDPart0Checked() ensures forall lo | 0 <= lo < 4 :: EntryOkAt(RowD(lo), 0xD0 + lo) {}
  lemma RowDPart1Checked() ensures forall lo | 4 <= lo < 8 :: EntryOkAt(RowD(lo), 0xD0 + lo) {}
  lemma RowDPart2Checked() ensures forall lo | 8 <= lo < 12 :: EntryOkAt(RowD(lo), 0xD0 + lo) {}
  lemma RowDPart3Checked() ensures forall lo | 12 <= lo < 16 :: EntryOkAt(RowD(lo), 0xD0 + lo) {}
  lemma RowEPart0Checked() ensures forall lo | 0 <= lo < 4 :: EntryOkAt(RowE(lo), 0xE0 + lo) {}
  lemma RowEPart1Checked() ensures forall lo | 4 <= lo < 8 :: EntryOkAt(RowE(lo), 0xE0 + lo) {}
  lemma RowEPart2Checked() ensures forall lo | 8 <= lo < 12 :: EntryOkAt(RowE(lo), 0xE0 + lo) {}
  lemma RowEPart3Checked() ensures forall lo | 12 <= lo < 16 :: EntryOkAt(RowE(lo), 0xE0 + lo) {}
  lemma RowFPart0Checked() ensures forall lo | 0 <= lo < 4 :: EntryOkAt(RowF(lo), 0xF0 + lo) {}
  lemma RowFPart1Checked() ensures forall lo | 4 <= lo < 8 :: EntryOkAt(RowF(lo), 0xF0 + lo) {}
  lemma RowFPart2Checked() ensures forall lo | 8 <= lo < 12 :: EntryOkAt(RowF(lo), 0xF0 + lo) {}
  lemma RowFPart3Checked() ensures forall lo | 12 <= lo < 16 :: EntryOkAt(RowF(lo), 0xF0 + lo) {}

  /// Every byte 0x00-0xFF has an entry stored under that byte; the base
  /// cycle count is zero exactly for the KIL entries.
  lemma EntryAt(b: u8)
    ensures EntryOk(b)
  {
    var hi := b / 16;
    if hi == 0 {
      Row0Part0Checked(); Row0Part1Checked(); Row0Part2Checked(); Row0Part3Checked();
    } else if hi == 1 {
      Row1Part0Checked(); Row1Part1Checked(); Row1Part2Checked(); Row1Part3Checked();
    } else if hi == 2 {
      Row2Part0Checked(); Row2Part1Checked(); Row2Part2Checked(); Row2Part3Checked();
    } else if hi == 3 {
      Row3Part0Checked(); Row3Part1Checked(); Row3Part2Checked(); Row3Part3Checked();
    } else if hi == 4 {
      Row4Part0Checked(); Row4Part1Checked(); Row4Part2Checked(); Row4Part3Checked();
    } else if hi == 5 {
      Row5Part0Checked(); Row5Part1Checked(); Row5Part2Checked(); Row5Part3Checked();
    } else if hi == 6 {
      Row6Part0Checked(); Row6Part1Checked(); Row6Part2Checked(); Row6Part3Checked();
    } else if hi == 7 {
      Row7Part0Checked(); Row7Part1Checked(); Row7Part2Checked(); Row7Part3Checked();
    } else if hi == 8 {
      Row8Part0Checked(); Row8Part1Checked(); Row8Part2Checked(); Row8Part3Checked();
    } else if hi == 9 {
      Row9Part0Checked(); Row9Part1Checked(); Row9Part2Checked(); Row9Part3Checked();
    } else if hi == 10 {
      RowAPart0Checked(); RowAPart1Checked(); RowAPart2Checked(); RowAPart3Checked();
    } else if hi == 11 {
      RowBPart0Checked(); RowBPart1Checked(); RowBPart2Checked(); RowBPart3Checked();
    } else if hi == 12 {
      RowCPart0Checked(); RowCPart1Checked(); RowCPart2Checked(); RowCPart3Checked();
    } else if hi == 13 {
      RowDPart0Checked(); RowDPart1Checked(); RowDPart2Checked(); RowDPart3Checked();
    } else if hi == 14 {
      RowEPart0Checked(); RowEPart1Checked(); RowEPart2Checked(); RowEPart3Checked();
    } else {
      RowFPart0Checked(); RowFPart1Checked(); RowFPart2Checked(); RowFPart3Checked();
    }
  }

  lemma TableComplete()
    ensures forall b: u8 :: EntryOk(b)
  {
    forall b: u8
      ensures EntryOk(b)
    {
      EntryAt(b);
    }
  }

  /// Sample entries: LDA immediate and absolute-X.
  lemma SpotEntriesLoad()
    ensures Opcodes(0xA9) == Some(OpCode(0xA9, LDA, "LDA", 2, 2, Immediate))
    ensures Opcodes(0xBD) == Some(OpCode(0xBD, LDA, "LDA", 3, 4, Absolute_X))
  {
  }

  /// Sample entries: BRK and the official NOP.
  lemma SpotEntriesImplicit()
    ensures Opcodes(0x00) == Some(OpCode(0x00, BRK, "BRK", 1, 7, Implicit))
    ensures Opcodes(0xEA) == Some(OpCode(0xEA, NOP, "NOP", 1, 2, Implicit))
  {
  }

  /// Sample entry: the unofficial SLO on page zero.
  lemma SpotEntryUnofficial()
    ensures Opcodes(0x07) == Some(OpCode(0x07, SLO, "SLO", 2, 5, ZeroPage))
  {
  }

  // ---------------------------------------------------------------------
  // Operand addressing.
  // ---------------------------------------------------------------------

  /// An operand byte read as `i8` and widened to `u16` (`jump as u16`):
  /// values from 0x80 up are negative and sign-extend with 0xFF.
  function SignExtend(b: byte): u16 {
    if b < 0x80 then b as int else 0xFF00 + b as int
  }

  /// The signed value of an operand byte read as `i8`.
  function Signed(b: byte): int {
    if b < 0x80 then b as int else b as int - 256
  }

  /// `get_absolute_address`: the address designated by the operand at `addr`
  /// under the opcode's mode, and whether forming it crossed a page.  The
  /// modes without such an address (Implicit, Accumulator, Immediate) panic.
  function AbsoluteAddress(mode: AddressingMode, x: byte, y: byte, mem: Memory, addr: u16): (r: (u16, bool))
    requires mode != Implicit && mode != Accumulator && mode != Immediate
  {
    match mode
    case ZeroPage => (mem[addr] as int, false)
    case ZeroPage_X => ((mem[addr] as int + x as int) % 256, false)
    case ZeroPage_Y => ((mem[addr] as int + y as int) % 256, false)
    case Relative =>
      var next := WrapAdd16(addr, 1);
      var target := WrapAdd16(next, SignExtend(mem[addr]));
      (target, PageCross(next, target))
    case Absolute => (ReadU16(mem, addr), false)
    case Absolute_X =>
      var base := ReadU16(mem, addr);
      var target := WrapAdd16(base, x as int);
      (target, PageCross(base, target))
    case Absolute_Y =>
      var base := ReadU16(mem, addr);
      var target := WrapAdd16(base, y as int);
      (target, PageCross(base, target))
    case Indirect =>
      var base := ReadU16(mem, addr);
      var target :=
        if base % 256 == 0xFF then BytesToU16([mem[base], mem[base - base % 256]])
        else ReadU16(mem, base);
      (target, false)
    case Indirect_X =>
      var ptr := (mem[addr] as int + x as int) % 256;
      (BytesToU16([mem[ptr], mem[(ptr + 1) % 256]]), false)
    case Indirect_Y =>
      var base := mem[addr] as int;
      var derefBase := BytesToU16([mem[base], mem[(base + 1) % 256]]);
      var deref := WrapAdd16(derefBase, y as int);
      (deref, PageCross(deref, derefBase))
  }

  /// `get_operand_address`: Immediate designates the operand byte at the
  /// program counter itself; every other mode goes through
  /// `AbsoluteAddress` at the program counter.
  function OperandAddress(mode: AddressingMode, pc: u16, x: byte, y: byte, mem: Memory): (r: (u16, bool))
    requires mode != Implicit && mode != Accumulator
    ensures mode == Immediate ==> r == (pc, false)
  {
    if mode == Immediate then (pc, false) else AbsoluteAddress(mode, x, y, mem, pc)
  }

  /// Zero-page indexing wraps inside page zero and never reports a cross.
  lemma ZeroPageIndexed(mode: AddressingMode, x: byte, y: byte, mem: Memory, addr: u16)
    requires mode == ZeroPage_X || mode == ZeroPage_Y
    ensures var (a, cross) := AbsoluteAddress(mode, x, y, mem, addr);
      a < 0x100 && !cross &&
      a == (mem[addr] as int + (if mode == ZeroPage_X then x else y) as int) % 256
  {
  }

  /// Absolute indexing adds the index with 16-bit wrap and reports a cross
  /// exactly when the low byte of the base overflows.
  lemma AbsoluteIndexed(mode: AddressingMode, x: byte, y: byte, mem: Memory, addr: u16)
    requires mode == Absolute_X || mode == Absolute_Y
    ensures var base := ReadU16(mem, addr);
      var i := (if mode == Absolute_X then x else y) as int;
      var (a, cross) := AbsoluteAddress(mode, x, y, mem, addr);
      a == (base + i) % 0x1_0000 && (cross <==> base % 256 + i >= 256)
  {
    var base := ReadU16(mem, addr);
    var i := (if mode == Absolute_X then x else y) as int;
    var target := WrapAdd16(base, i);
    assert AbsoluteAddress(mode, x, y, mem, addr) == (target, PageCross(base, target));
    assert target == (base + i) % 0x1_0000;
    PageCrossIndexed(base, i);
  }

  /// A relative branch lands at the signed offset from the byte after the
  /// operand, and the cross is measured from that byte.
  lemma RelativeTarget(mode: AddressingMode, x: byte, y: byte, mem: Memory, addr: u16)
    requires mode == Relative
    ensures var next := (addr + 1) % 0x1_0000;
      var (a, cross) := AbsoluteAddress(mode, x, y, mem, addr);
      -128 <= Signed(mem[addr]) < 128 &&
      a == (next + Signed(mem[addr])) % 0x1_0000 && cross == PageCross(next, a)
  {
    var next := (addr + 1) % 0x1_0000;
    var b := mem[addr];
    if b >= 0x80 {
      assert (next + SignExtend(b)) % 0x1_0000 == (next + Signed(b)) % 0x1_0000 by {
        assert next + SignExtend(b) == (next + Signed(b)) + 0x1_0000;
      }
    }
  }

  /// Indirect addressing reproduces the 6502 page-wrap: a pointer ending in
  /// 0xFF takes its high byte from the start of the same page.
  lemma IndirectPageWrap(mode: AddressingMode, x: byte, y: byte, mem: Memory, addr: u16)
    requires mode == Indirect
    ensures var base := ReadU16(mem, addr);
      var (a, cross) := AbsoluteAddress(mode, x, y, mem, addr);
      !cross && a % 256 == mem[base] as int &&
      a / 256 == (if base % 256 == 0xFF then mem[base - 0xFF] else mem[(base + 1) % 0x1_0000]) as int
  {
  }

  /// Indexed-indirect addressing reads both pointer bytes from page zero.
  lemma IndirectXZeroPage(mode: AddressingMode, x: byte, y: byte, mem: Memory, addr: u16)
    requires mode == Indirect_X
    ensures var ptr := (mem[addr] as int + x as int) % 256;
      var (a, cross) := AbsoluteAddress(mode, x, y, mem, addr);
      !cross && a % 256 == mem[ptr] as int && a / 256 == mem[(ptr + 1) % 256] as int
  {
  }

  /// Indirect-indexed addressing reads the pointer from page zero, adds Y
  /// with 16-bit wrap, and reports a cross exactly when the low byte of the
  /// pointer overflows.
  lemma IndirectYIndexed(x: byte, y: byte, mem: Memory, addr: u16)
    ensures var base := mem[addr] as int;
      var pointer := mem[base] as int + 256 * mem[(base + 1) % 256] as int;
      var (a, cross) := AbsoluteAddress(Indirect_Y, x, y, mem, addr);
      a == (pointer + y as int) % 0x1_0000 && (cross <==> pointer % 256 + y as int >= 256)
  {
    var base := mem[addr] as int;
    var lo, hi := mem[base], mem[(base + 1) % 256];
    IndirectYParts(x, y, mem, addr, lo, hi);
    IndexedPointer(lo, hi, y as int);
    var p := BytesToU16([lo, hi]);
    assert AbsoluteAddress(Indirect_Y, x, y, mem, addr) == (WrapAdd16(p, y as int), PageCross(WrapAdd16(p, y as int), p));
    assert p == lo as int + 256 * hi as int;
  }

  /// Indirect-indexed addressing adds Y to the word `lo`, `hi` read from
  /// page zero.
  lemma IndirectYParts(x: byte, y: byte, mem: Memory, addr: u16, lo: byte, hi: byte)
    requires lo == mem[mem[addr]] && hi == mem[(mem[addr] as int + 1) % 256]
    ensures var p := BytesToU16([lo, hi]);
      AbsoluteAddress(Indirect_Y, x, y, mem, addr) == (WrapAdd16(p, y as int), PageCross(WrapAdd16(p, y as int), p))
  {
  }

  /// The pointer of indirect-indexed addressing plus Y, and its cross.
  lemma IndexedPointer(lo: byte, hi: byte, y: int)
    requires 0 <= y <= 255
    ensures var p := BytesToU16([lo, hi]);
      var d := WrapAdd16(p, y);
      p == lo as int + 256 * hi as int && d == (p + y) % 0x1_0000 &&
      (PageCross(d, p) <==> p % 256 + y >= 256)
  {
    var p := BytesToU16([lo, hi]);
    PageCrossSymmetric(WrapAdd16(p, y), p);
    PageCrossIndexed(p, y);
  }
}

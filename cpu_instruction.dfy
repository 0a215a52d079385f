/// The older opcode table of the CPU crate (nes/src/cpu/instruction.rs):
/// descriptors without cycle counts, listed in a vector and loaded into a map
/// keyed by opcode byte.
module CpuInstruction {
  import opened Tools

  datatype AddressingMode =
    | Implicit | Accumulator | Immediate | ZeroPage | ZeroPage_X | ZeroPage_Y | Relative
    | Absolute | Absolute_X | Absolute_Y | Indirect | Indirect_X | Indirect_Y

  /// `opcode_bytes`: the instruction length implied by the addressing mode.
  function OpcodeBytes(mode: AddressingMode): (n: nat)
    ensures n == 1 <==> mode == Implicit || mode == Accumulator
    ensures n == 3 <==>
      mode == Absolute || mode == Absolute_X || mode == Absolute_Y || mode == Indirect
    ensures n == 2 <==>
      (mode == Immediate || mode == ZeroPage || mode == ZeroPage_X || mode == ZeroPage_Y ||
       mode == Relative || mode == Indirect_X || mode == Indirect_Y)
  {
    match mode
    case Implicit | Accumulator => 1
    case Immediate | ZeroPage | ZeroPage_X | ZeroPage_Y | Relative => 2
    case Absolute | Absolute_X | Absolute_Y | Indirect => 3
    case Indirect_X | Indirect_Y => 2
  }

  /// The instructions of this table; there is no KIL.
  datatype Instruction =
    LDA | LDX | LDY | STA | STX | STY | TAX | TAY | TXA | TYA | TSX | TXS | PHA | PHP |
    PLA | PLP | AND | EOR | ORA | BIT | ADC | SBC | CMP | CPX | CPY | INC | INX | INY |
    DEC | DEX | DEY | ASL | LSR | ROL | ROR | JMP | JSR | RTS | BCC | BCS | BEQ | BMI |
    BNE | BPL | BVC | BVS | CLC | CLD | CLI | CLV | SEC | SED | SEI | BRK | NOP | RTI |
    NOP_ALT | SLO | RLA | SRE | RRA | SAX | LAX | DCP | ISC | ANC | ALR | ARR | XAA |
    AXS | SBC_NOP | AHX | SHY | SHX | TAS | LAS

  datatype OpCode = OpCode(
    byte: u8,
    instruction: Instruction,
    mnemonic: string,
    len: nat,
    mode: AddressingMode)

  /// `OpCode::new`: the given fields, with the length derived from the mode.
  function New(byte: u8, instruction: Instruction, mnemonic: string,
               mode: AddressingMode): (op: OpCode)
    ensures op.byte == byte && op.instruction == instruction && op.mnemonic == mnemonic
    ensures op.mode == mode && op.len == OpcodeBytes(mode)
  {
    OpCode(byte, instruction, mnemonic, OpcodeBytes(mode), mode)
  }

  /// The contents of the `OPCODES` map: the entry stored under byte `b`, or
  /// None when the vector at nes/src/cpu/instruction.rs:264-487 lists no
  /// opcode with that byte.  The vector lists no byte twice, so the entry is
  /// the one vector element with that byte; the entries are arranged here by
  /// the high nibble of their byte.
  function Opcodes(b: u8): (r: Option<OpCode>)
  {
    var lo := b % 16;
    match b / 16
    case 0 => Row0(lo)
    case 1 => Row1(lo)
    case 2 => Row2(lo)
    case 3 => Row3(lo)
    case 4 => Row4(lo)
    case 5 => Row5(lo)
    case 6 => Row6(lo)
    case 7 => Row7(lo)
    case 8 => Row8(lo)
    case 9 => Row9(lo)
    case 10 => RowA(lo)
    case 11 => RowB(lo)
    case 12 => RowC(lo)
    case 13 => RowD(lo)
    case 14 => RowE(lo)
    case _ => RowF(lo)
  }

  function Row0(lo: int): Option<OpCode> {
    if lo == 0x0 then Some(New(0x00, BRK, "BRK", Implicit)) else // nes/src/cpu/instruction.rs:413
    if lo == 0x1 then Some(New(0x01, ORA, "ORA", Indirect_X)) else // nes/src/cpu/instruction.rs:328
    if lo == 0x3 then Some(New(0x03, SLO, "SLO", Indirect_X)) else // nes/src/cpu/instruction.rs:424
    if lo == 0x5 then Some(New(0x05, ORA, "ORA", ZeroPage)) else // nes/src/cpu/instruction.rs:323
    if lo == 0x6 then Some(New(0x06, ASL, "ASL", ZeroPage)) else // nes/src/cpu/instruction.rs:375
    if lo == 0x7 then Some(New(0x07, SLO, "SLO", ZeroPage)) else // nes/src/cpu/instruction.rs:422
    if lo == 0x8 then Some(New(0x08, PHP, "PHP", Implicit)) else // nes/src/cpu/instruction.rs:303
    if lo == 0x9 then Some(New(0x09, ORA, "ORA", Immediate)) else // nes/src/cpu/instruction.rs:322
    if lo == 0xA then Some(New(0x0A, ASL, "ASL", Accumulator)) else // nes/src/cpu/instruction.rs:374
    if lo == 0xC then Some(New(0x0C, NOP_ALT, "NOP", Absolute)) else // nes/src/cpu/instruction.rs:417
    if lo == 0xD then Some(New(0x0D, ORA, "ORA", Absolute)) else // nes/src/cpu/instruction.rs:325
    if lo == 0xE then Some(New(0x0E, ASL, "ASL", Absolute)) else // nes/src/cpu/instruction.rs:377
    if lo == 0xF then Some(New(0x0F, SLO, "SLO", Absolute)) else // nes/src/cpu/instruction.rs:426
    None
  }

  function Row1(lo: int): Option<OpCode> {
    if lo == 0x0 then Some(New(0x10, BPL, "BPL", Relative)) else // nes/src/cpu/instruction.rs:403
    if lo == 0x1 then Some(New(0x11, ORA, "ORA", Indirect_Y)) else // nes/src/cpu/instruction.rs:329
    if lo == 0x3 then Some(New(0x13, SLO, "SLO", Indirect_Y)) else // nes/src/cpu/instruction.rs:425
    if lo == 0x5 then Some(New(0x15, ORA, "ORA", ZeroPage_X)) else // nes/src/cpu/instruction.rs:324
    if lo == 0x6 then Some(New(0x16, ASL, "ASL", ZeroPage_X)) else // nes/src/cpu/instruction.rs:376
    if lo == 0x7 then Some(New(0x17, SLO, "SLO", ZeroPage_X)) else // nes/src/cpu/instruction.rs:423
    if lo == 0x8 then Some(New(0x18, CLC, "CLC", Implicit)) else // nes/src/cpu/instruction.rs:406
    if lo == 0x9 then Some(New(0x19, ORA, "ORA", Absolute_Y)) else // nes/src/cpu/instruction.rs:327
    if lo == 0xB then Some(New(0x1B, SLO, "SLO", Absolute_Y)) else // nes/src/cpu/instruction.rs:428
    if lo == 0xD then Some(New(0x1D, ORA, "ORA", Absolute_X)) else // nes/src/cpu/instruction.rs:326
    if lo == 0xE then Some(New(0x1E, ASL, "ASL", Absolute_X)) else // nes/src/cpu/instruction.rs:378
    if lo == 0xF then Some(New(0x1F, SLO, "SLO", Absolute_X)) else // nes/src/cpu/instruction.rs:427
    None
  }

  function Row2(lo: int): Option<OpCode> {
    if lo == 0x0 then Some(New(0x20, JSR, "JSR", Absolute)) else // nes/src/cpu/instruction.rs:396
    if lo == 0x1 then Some(New(0x21, AND, "AND", Indirect_X)) else // nes/src/cpu/instruction.rs:312
    if lo == 0x3 then Some(New(0x23, RLA, "RLA", Indirect_X)) else // nes/src/cpu/instruction.rs:431
    if lo == 0x4 then Some(New(0x24, BIT, "BIT", ZeroPage)) else // nes/src/cpu/instruction.rs:330
    if lo == 0x5 then Some(New(0x25, AND, "AND", ZeroPage)) else // nes/src/cpu/instruction.rs:307
    if lo == 0x6 then Some(New(0x26, ROL, "ROL", ZeroPage)) else // nes/src/cpu/instruction.rs:385
    if lo == 0x7 then Some(New(0x27, RLA, "RLA", ZeroPage)) else // nes/src/cpu/instruction.rs:429
    if lo == 0x8 then Some(New(0x28, PLP, "PLP", Implicit)) else // nes/src/cpu/instruction.rs:305
    if lo == 0x9 then Some(New(0x29, AND, "AND", Immediate)) else // nes/src/cpu/instruction.rs:306
    if lo == 0xA then Some(New(0x2A, ROL, "ROL", Accumulator)) else // nes/src/cpu/instruction.rs:384
    if lo == 0xB then Some(New(0x2B, ANC, "ANC", Immediate)) else // nes/src/cpu/instruction.rs:475
    if lo == 0xC then Some(New(0x2C, BIT, "BIT", Absolute)) else // nes/src/cpu/instruction.rs:331
    if lo == 0xD then Some(New(0x2D, AND, "AND", Absolute)) else // nes/src/cpu/instruction.rs:309
    if lo == 0xE then Some(New(0x2E, ROL, "ROL", Absolute)) else // nes/src/cpu/instruction.rs:387
    if lo == 0xF then Some(New(0x2F, RLA, "RLA", Absolute)) else // nes/src/cpu/instruction.rs:433
    None
  }

  function Row3(lo: int): Option<OpCode> {
    if lo == 0x0 then Some(New(0x30, BMI, "BMI", Relative)) else // nes/src/cpu/instruction.rs:401
    if lo == 0x1 then Some(New(0x31, AND, "AND", Indirect_Y)) else // nes/src/cpu/instruction.rs:313
    if lo == 0x3 then Some(New(0x33, RLA, "RLA", Indirect_Y)) else // nes/src/cpu/instruction.rs:432
    if lo == 0x5 then Some(New(0x35, AND, "AND", ZeroPage_X)) else // nes/src/cpu/instruction.rs:308
    if lo == 0x6 then Some(New(0x36, ROL, "ROL", ZeroPage_X)) else // nes/src/cpu/instruction.rs:386
    if lo == 0x7 then Some(New(0x37, RLA, "RLA", ZeroPage_X)) else // nes/src/cpu/instruction.rs:430
    if lo == 0x8 then Some(New(0x38, SEC, "SEC", Implicit)) else // nes/src/cpu/instruction.rs:410
    if lo == 0x9 then Some(New(0x39, AND, "AND", Absolute_Y)) else // nes/src/cpu/instruction.rs:311
    if lo == 0xB then Some(New(0x3B, RLA, "RLA", Absolute_Y)) else // nes/src/cpu/instruction.rs:435
    if lo == 0xD then Some(New(0x3D, AND, "AND", Absolute_X)) else // nes/src/cpu/instruction.rs:310
    if lo == 0xE then Some(New(0x3E, ROL, "ROL", Absolute_X)) else // nes/src/cpu/instruction.rs:388
    if lo == 0xF then Some(New(0x3F, RLA, "RLA", Absolute_X)) else // nes/src/cpu/instruction.rs:434
    None
  }

  function Row4(lo: int): Option<OpCode> {
    if lo == 0x0 then Some(New(0x40, RTI, "RTI", Implicit)) else // nes/src/cpu/instruction.rs:415
    if lo == 0x1 then Some(New(0x41, EOR, "EOR", Indirect_X)) else // nes/src/cpu/instruction.rs:320
    if lo == 0x3 then Some(New(0x43, SRE, "SRE", Indirect_X)) else // nes/src/cpu/instruction.rs:438
    if lo == 0x5 then Some(New(0x45, EOR, "EOR", ZeroPage)) else // nes/src/cpu/instruction.rs:315
    if lo == 0x6 then Some(New(0x46, LSR, "LSR", ZeroPage)) else // nes/src/cpu/instruction.rs:380
    if lo == 0x7 then Some(New(0x47, SRE, "SRE", ZeroPage)) else // nes/src/cpu/instruction.rs:436
    if lo == 0x8 then Some(New(0x48, PHA, "PHA", Implicit)) else // nes/src/cpu/instruction.rs:302
    if lo == 0x9 then Some(New(0x49, EOR, "EOR", Immediate)) else // nes/src/cpu/instruction.rs:314
    if lo == 0xA then Some(New(0x4A, LSR, "LSR", Accumulator)) else // nes/src/cpu/instruction.rs:379
    if lo == 0xB then Some(New(0x4B, ALR, "ALR", Immediate)) else // nes/src/cpu/instruction.rs:476
    if lo == 0xC then Some(New(0x4C, JMP, "JMP", Absolute)) else // nes/src/cpu/instruction.rs:394
    if lo == 0xD then Some(New(0x4D, EOR, "EOR", Absolute)) else // nes/src/cpu/instruction.rs:317
    if lo == 0xE then Some(New(0x4E, LSR, "LSR", Absolute)) else // nes/src/cpu/instruction.rs:382
    if lo == 0xF then Some(New(0x4F, SRE, "SRE", Absolute)) else // nes/src/cpu/instruction.rs:440
    None
  }

  function Row5(lo: int): Option<OpCode> {
    if lo == 0x0 then Some(New(0x50, BVC, "BVC", Relative)) else // nes/src/cpu/instruction.rs:404
    if lo == 0x1 then Some(New(0x51, EOR, "EOR", Indirect_Y)) else // nes/src/cpu/instruction.rs:321
    if lo == 0x3 then Some(New(0x53, SRE, "SRE", Indirect_Y)) else // nes/src/cpu/instruction.rs:439
    if lo == 0x5 then Some(New(0x55, EOR, "EOR", ZeroPage_X)) else // nes/src/cpu/instruction.rs:316
    if lo == 0x6 then Some(New(0x56, LSR, "LSR", ZeroPage_X)) else // nes/src/cpu/instruction.rs:381
    if lo == 0x7 then Some(New(0x57, SRE, "SRE", ZeroPage_X)) else // nes/src/cpu/instruction.rs:437
    if lo == 0x8 then Some(New(0x58, CLI, "CLI", Implicit)) else // nes/src/cpu/instruction.rs:408
    if lo == 0x9 then Some(New(0x59, EOR, "EOR", Absolute_Y)) else // nes/src/cpu/instruction.rs:319
    if lo == 0xB then Some(New(0x5B, SRE, "SRE", Absolute_Y)) else // nes/src/cpu/instruction.rs:442
    if lo == 0xD then Some(New(0x5D, EOR, "EOR", Absolute_X)) else // nes/src/cpu/instruction.rs:318
    if lo == 0xE then Some(New(0x5E, LSR, "LSR", Absolute_X)) else // nes/src/cpu/instruction.rs:383
    if lo == 0xF then Some(New(0x5F, SRE, "SRE", Absolute_X)) else // nes/src/cpu/instruction.rs:441
    None
  }

  function Row6(lo: int): Option<OpCode> {
    if lo == 0x0 then Some(New(0x60, RTS, "RTS", Implicit)) else // nes/src/cpu/instruction.rs:397
    if lo == 0x1 then Some(New(0x61, ADC, "ADC", Indirect_X)) else // nes/src/cpu/instruction.rs:338
    if lo == 0x3 then Some(New(0x63, RRA, "RRA", Indirect_X)) else // nes/src/cpu/instruction.rs:445
    if lo == 0x4 then Some(New(0x64, NOP_ALT, "NOP", ZeroPage)) else // nes/src/cpu/instruction.rs:419
    if lo == 0x5 then Some(New(0x65, ADC, "ADC", ZeroPage)) else // nes/src/cpu/instruction.rs:333
    if lo == 0x6 then Some(New(0x66, ROR, "ROR", ZeroPage)) else // nes/src/cpu/instruction.rs:390
    if lo == 0x7 then Some(New(0x67, RRA, "RRA", ZeroPage)) else // nes/src/cpu/instruction.rs:443
    if lo == 0x8 then Some(New(0x68, PLA, "PLA", Implicit)) else // nes/src/cpu/instruction.rs:304
    if lo == 0x9 then Some(New(0x69, ADC, "ADC", Immediate)) else // nes/src/cpu/instruction.rs:332
    if lo == 0xA then Some(New(0x6A, ROR, "ROR", Accumulator)) else // nes/src/cpu/instruction.rs:389
    if lo == 0xB then Some(New(0x6B, ARR, "ARR", Immediate)) else // nes/src/cpu/instruction.rs:477
    if lo == 0xC then Some(New(0x6C, JMP, "JMP", Indirect)) else // nes/src/cpu/instruction.rs:395
    if lo == 0xD then Some(New(0x6D, ADC, "ADC", Absolute)) else // nes/src/cpu/instruction.rs:335
    if lo == 0xE then Some(New(0x6E, ROR, "ROR", Absolute)) else // nes/src/cpu/instruction.rs:392
    if lo == 0xF then Some(New(0x6F, RRA, "RRA", Absolute)) else // nes/src/cpu/instruction.rs:447
    None
  }

  function Row7(lo: int): Option<OpCode> {
    if lo == 0x0 then Some(New(0x70, BVS, "BVS", Relative)) else // nes/src/cpu/instruction.rs:405
    if lo == 0x1 then Some(New(0x71, ADC, "ADC", Indirect_Y)) else // nes/src/cpu/instruction.rs:339
    if lo == 0x3 then Some(New(0x73, RRA, "RRA", Indirect_Y)) else // nes/src/cpu/instruction.rs:446
    if lo == 0x5 then Some(New(0x75, ADC, "ADC", ZeroPage_X)) else // nes/src/cpu/instruction.rs:334
    if lo == 0x6 then Some(New(0x76, ROR, "ROR", ZeroPage_X)) else // nes/src/cpu/instruction.rs:391
    if lo == 0x7 then Some(New(0x77, RRA, "RRA", ZeroPage_X)) else // nes/src/cpu/instruction.rs:444
    if lo == 0x8 then Some(New(0x78, SEI, "SEI", Implicit)) else // nes/src/cpu/instruction.rs:412
    if lo == 0x9 then Some(New(0x79, ADC, "ADC", Absolute_Y)) else // nes/src/cpu/instruction.rs:337
    if lo == 0xB then Some(New(0x7B, RRA, "RRA", Absolute_Y)) else // nes/src/cpu/instruction.rs:449
    if lo == 0xD then Some(New(0x7D, ADC, "ADC", Absolute_X)) else // nes/src/cpu/instruction.rs:336
    if lo == 0xE then Some(New(0x7E, ROR, "ROR", Absolute_X)) else // nes/src/cpu/instruction.rs:393
    if lo == 0xF then Some(New(0x7F, RRA, "RRA", Absolute_X)) else // nes/src/cpu/instruction.rs:448
    None
  }

  function Row8(lo: int): Option<OpCode> {
    if lo == 0x1 then Some(New(0x81, STA, "STA", Indirect_X)) else // nes/src/cpu/instruction.rs:288
    if lo == 0x3 then Some(New(0x83, SAX, "SAX", Indirect_X)) else // nes/src/cpu/instruction.rs:452
    if lo == 0x4 then Some(New(0x84, STY, "STY", ZeroPage)) else // nes/src/cpu/instruction.rs:293
    if lo == 0x5 then Some(New(0x85, STA, "STA", ZeroPage)) else // nes/src/cpu/instruction.rs:283
    if lo == 0x6 then Some(New(0x86, STX, "STX", ZeroPage)) else // nes/src/cpu/instruction.rs:290
    if lo == 0x7 then Some(New(0x87, SAX, "SAX", ZeroPage)) else // nes/src/cpu/instruction.rs:450
    if lo == 0x8 then Some(New(0x88, DEY, "DEY", Implicit)) else // nes/src/cpu/instruction.rs:373
    if lo == 0xA then Some(New(0x8A, TXA, "TXA", Implicit)) else // nes/src/cpu/instruction.rs:298
    if lo == 0xB then Some(New(0x8B, XAA, "XAA", Immediate)) else // nes/src/cpu/instruction.rs:478
    if lo == 0xC then Some(New(0x8C, STY, "STY", Absolute)) else // nes/src/cpu/instruction.rs:295
    if lo == 0xD then Some(New(0x8D, STA, "STA", Absolute)) else // nes/src/cpu/instruction.rs:285
    if lo == 0xE then Some(New(0x8E, STX, "STX", Absolute)) else // nes/src/cpu/instruction.rs:292
    if lo == 0xF then Some(New(0x8F, SAX, "SAX", Absolute)) else // nes/src/cpu/instruction.rs:453
    None
  }

  function Row9(lo: int): Option<OpCode> {
    if lo == 0x0 then Some(New(0x90, BCC, "BCC", Relative)) else // nes/src/cpu/instruction.rs:398
    if lo == 0x1 then Some(New(0x91, STA, "STA", Indirect_Y)) else // nes/src/cpu/instruction.rs:289
    if lo == 0x3 then Some(New(0x93, AHX, "AHX", Indirect_Y)) else // nes/src/cpu/instruction.rs:481
    if lo == 0x4 then Some(New(0x94, STY, "STY", ZeroPage_Y)) else // nes/src/cpu/instruction.rs:294
    if lo == 0x5 then Some(New(0x95, STA, "STA", ZeroPage_X)) else // nes/src/cpu/instruction.rs:284
    if lo == 0x6 then Some(New(0x96, STX, "STX", ZeroPage_Y)) else // nes/src/cpu/instruction.rs:291
    if lo == 0x7 then Some(New(0x97, SAX, "SAX", ZeroPage_Y)) else // nes/src/cpu/instruction.rs:451
    if lo == 0x8 then Some(New(0x98, TYA, "TYA", Implicit)) else // nes/src/cpu/instruction.rs:299
    if lo == 0x9 then Some(New(0x99, STA, "STA", Absolute_Y)) else // nes/src/cpu/instruction.rs:287
    if lo == 0xA then Some(New(0x9A, TXS, "TXS", Implicit)) else // nes/src/cpu/instruction.rs:301
    if lo == 0xB then Some(New(0x9B, TAS, "TAS", Absolute_Y)) else // nes/src/cpu/instruction.rs:485
    if lo == 0xC then Some(New(0x9C, SHY, "SHY", Absolute_X)) else // nes/src/cpu/instruction.rs:483
    if lo == 0xD then Some(New(0x9D, STA, "STA", Absolute_X)) else // nes/src/cpu/instruction.rs:286
    if lo == 0xE then Some(New(0x9E, SHX, "SHX", Absolute_Y)) else // nes/src/cpu/instruction.rs:484
    if lo == 0xF then Some(New(0x9F, AHX, "AHX", Absolute_Y)) else // nes/src/cpu/instruction.rs:482
    None
  }

  function RowA(lo: int): Option<OpCode> {
    if lo == 0x0 then Some(New(0xA0, LDY, "LDY", Immediate)) else // nes/src/cpu/instruction.rs:278
    if lo == 0x1 then Some(New(0xA1, LDA, "LDA", Indirect_X)) else // nes/src/cpu/instruction.rs:271
    if lo == 0x2 then Some(New(0xA2, LDX, "LDX", Immediate)) else // nes/src/cpu/instruction.rs:273
    if lo == 0x3 then Some(New(0xA3, LAX, "LAX", Indirect_X)) else // nes/src/cpu/instruction.rs:457
    if lo == 0x4 then Some(New(0xA4, LDY, "LDY", ZeroPage)) else // nes/src/cpu/instruction.rs:279
    if lo == 0x5 then Some(New(0xA5, LDA, "LDA", ZeroPage)) else // nes/src/cpu/instruction.rs:266
    if lo == 0x6 then Some(New(0xA6, LDX, "LDX", ZeroPage)) else // nes/src/cpu/instruction.rs:274
    if lo == 0x7 then Some(New(0xA7, LAX, "LAX", ZeroPage)) else // nes/src/cpu/instruction.rs:455
    if lo == 0x8 then Some(New(0xA8, TAY, "TAY", Implicit)) else // nes/src/cpu/instruction.rs:297
    if lo == 0x9 then Some(New(0xA9, LDA, "LDA", Immediate)) else // nes/src/cpu/instruction.rs:265
    if lo == 0xA then Some(New(0xAA, TAX, "TAX", Implicit)) else // nes/src/cpu/instruction.rs:296
    if lo == 0xB then Some(New(0xAB, LAX, "LAX", Immediate)) else // nes/src/cpu/instruction.rs:454
    if lo == 0xC then Some(New(0xAC, LDY, "LDY", Absolute)) else // nes/src/cpu/instruction.rs:281
    if lo == 0xD then Some(New(0xAD, LDA, "LDA", Absolute)) else // nes/src/cpu/instruction.rs:268
    if lo == 0xE then Some(New(0xAE, LDX, "LDX", Absolute)) else // nes/src/cpu/instruction.rs:276
    if lo == 0xF then Some(New(0xAF, LAX, "LAX", Absolute)) else // nes/src/cpu/instruction.rs:459
    None
  }

  function RowB(lo: int): Option<OpCode> {
    if lo == 0x0 then Some(New(0xB0, BCS, "BCS", Relative)) else // nes/src/cpu/instruction.rs:399
    if lo == 0x1 then Some(New(0xB1, LDA, "LDA", Indirect_Y)) else // nes/src/cpu/instruction.rs:272
    if lo == 0x3 then Some(New(0xB3, LAX, "LAX", Indirect_Y)) else // nes/src/cpu/instruction.rs:458
    if lo == 0x4 then Some(New(0xB4, LDY, "LDY", ZeroPage_X)) else // nes/src/cpu/instruction.rs:280
    if lo == 0x5 then Some(New(0xB5, LDA, "LDA", ZeroPage_X)) else // nes/src/cpu/instruction.rs:267
    if lo == 0x6 then Some(New(0xB6, LDX, "LDX", ZeroPage_Y)) else // nes/src/cpu/instruction.rs:275
    if lo == 0x7 then Some(New(0xB7, LAX, "LAX", ZeroPage_Y)) else // nes/src/cpu/instruction.rs:456
    if lo == 0x8 then Some(New(0xB8, CLV, "CLV", Implicit)) else // nes/src/cpu/instruction.rs:409
    if lo == 0x9 then Some(New(0xB9, LDA, "LDA", Absolute_Y)) else // nes/src/cpu/instruction.rs:270
    if lo == 0xA then Some(New(0xBA, TSX, "TSX", Implicit)) else // nes/src/cpu/instruction.rs:300
    if lo == 0xB then Some(New(0xBB, LAS, "LAS", Absolute_Y)) else // nes/src/cpu/instruction.rs:486
    if lo == 0xC then Some(New(0xBC, LDY, "LDY", Absolute_X)) else // nes/src/cpu/instruction.rs:282
    if lo == 0xD then Some(New(0xBD, LDA, "LDA", Absolute_X)) else // nes/src/cpu/instruction.rs:269
    if lo == 0xE then Some(New(0xBE, LDX, "LDX", Absolute_Y)) else // nes/src/cpu/instruction.rs:277
    if lo == 0xF then Some(New(0xBF, LAX, "LAX", Absolute_Y)) else // nes/src/cpu/instruction.rs:460
    None
  }

  function RowC(lo: int): Option<OpCode> {
    if lo == 0x0 then Some(New(0xC0, CPY, "CPY", Immediate)) else // nes/src/cpu/instruction.rs:359
    if lo == 0x1 then Some(New(0xC1, CMP, "CMP", Indirect_X)) else // nes/src/cpu/instruction.rs:354
    if lo == 0x3 then Some(New(0xC3, DCP, "DCP", Indirect_X)) else // nes/src/cpu/instruction.rs:463
    if lo == 0x4 then Some(New(0xC4, CPY, "CPY", ZeroPage)) else // nes/src/cpu/instruction.rs:360
    if lo == 0x5 then Some(New(0xC5, CMP, "CMP", ZeroPage)) else // nes/src/cpu/instruction.rs:349
    if lo == 0x6 then Some(New(0xC6, DEC, "DEC", ZeroPage)) else // nes/src/cpu/instruction.rs:368
    if lo == 0x7 then Some(New(0xC7, DCP, "DCP", ZeroPage)) else // nes/src/cpu/instruction.rs:461
    if lo == 0x8 then Some(New(0xC8, INY, "INY", Implicit)) else // nes/src/cpu/instruction.rs:367
    if lo == 0x9 then Some(New(0xC9, CMP, "CMP", Immediate)) else // nes/src/cpu/instruction.rs:348
    if lo == 0xA then Some(New(0xCA, DEX, "DEX", Implicit)) else // nes/src/cpu/instruction.rs:372
    if lo == 0xB then Some(New(0xCB, AXS, "AXS", Immediate)) else // nes/src/cpu/instruction.rs:479
    if lo == 0xC then Some(New(0xCC, CPY, "CPY", Absolute)) else // nes/src/cpu/instruction.rs:361
    if lo == 0xD then Some(New(0xCD, CMP, "CMP", Absolute)) else // nes/src/cpu/instruction.rs:351
    if lo == 0xE then Some(New(0xCE, DEC, "DEC", Absolute)) else // nes/src/cpu/instruction.rs:370
    if lo == 0xF then Some(New(0xCF, DCP, "DCP", Absolute)) else // nes/src/cpu/instruction.rs:465
    None
  }

  function RowD(lo: int): Option<OpCode> {
    if lo == 0x0 then Some(New(0xD0, BNE, "BNE", Relative)) else // nes/src/cpu/instruction.rs:402
    if lo == 0x1 then Some(New(0xD1, CMP, "CMP", Indirect_Y)) else // nes/src/cpu/instruction.rs:355
    if lo == 0x3 then Some(New(0xD3, DCP, "DCP", Indirect_Y)) else // nes/src/cpu/instruction.rs:464
    if lo == 0x5 then Some(New(0xD5, CMP, "CMP", ZeroPage_X)) else // nes/src/cpu/instruction.rs:350
    if lo == 0x6 then Some(New(0xD6, DEC, "DEC", ZeroPage_X)) else // nes/src/cpu/instruction.rs:369
    if lo == 0x7 then Some(New(0xD7, DCP, "DCP", ZeroPage_X)) else // nes/src/cpu/instruction.rs:462
    if lo == 0x8 then Some(New(0xD8, CLD, "CLD", Implicit)) else // nes/src/cpu/instruction.rs:407
    if lo == 0x9 then Some(New(0xD9, CMP, "CMP", Absolute_Y)) else // nes/src/cpu/instruction.rs:353
    if lo == 0xB then Some(New(0xDB, DCP, "DCP", Absolute_Y)) else // nes/src/cpu/instruction.rs:467
    if lo == 0xD then Some(New(0xDD, CMP, "CMP", Absolute_X)) else // nes/src/cpu/instruction.rs:352
    if lo == 0xE then Some(New(0xDE, DEC, "DEC", Absolute_X)) else // nes/src/cpu/instruction.rs:371
    if lo == 0xF then Some(New(0xDF, DCP, "DCP", Absolute_X)) else // nes/src/cpu/instruction.rs:466
    None
  }

  function RowE(lo: int): Option<OpCode> {
    if lo == 0x0 then Some(New(0xE0, CPX, "CPX", Immediate)) else // nes/src/cpu/instruction.rs:356
    if lo == 0x1 then Some(New(0xE1, SBC, "SBC", Indirect_X)) else // nes/src/cpu/instruction.rs:346
    if lo == 0x2 then Some(New(0xE2, NOP_ALT, "NOP", Immediate)) else // nes/src/cpu/instruction.rs:421
    if lo == 0x3 then Some(New(0xE3, ISC, "ISC", Indirect_X)) else // nes/src/cpu/instruction.rs:470
    if lo == 0x4 then Some(New(0xE4, CPX, "CPX", ZeroPage)) else // nes/src/cpu/instruction.rs:357
    if lo == 0x5 then Some(New(0xE5, SBC, "SBC", ZeroPage)) else // nes/src/cpu/instruction.rs:341
    if lo == 0x6 then Some(New(0xE6, INC, "INC", ZeroPage)) else // nes/src/cpu/instruction.rs:362
    if lo == 0x7 then Some(New(0xE7, ISC, "ISC", ZeroPage)) else // nes/src/cpu/instruction.rs:468
    if lo == 0x8 then Some(New(0xE8, INX, "INX", Implicit)) else // nes/src/cpu/instruction.rs:366
    if lo == 0x9 then Some(New(0xE9, SBC, "SBC", Immediate)) else // nes/src/cpu/instruction.rs:340
    if lo == 0xA then Some(New(0xEA, NOP, "NOP", Implicit)) else // nes/src/cpu/instruction.rs:414
    if lo == 0xB then Some(New(0xEB, SBC_NOP, "SBC", Immediate)) else // nes/src/cpu/instruction.rs:480
    if lo == 0xC then Some(New(0xEC, CPX, "CPX", Absolute)) else // nes/src/cpu/instruction.rs:358
    if lo == 0xD then Some(New(0xED, SBC, "SBC", Absolute)) else // nes/src/cpu/instruction.rs:343
    if lo == 0xE then Some(New(0xEE, INC, "INC", Absolute)) else // nes/src/cpu/instruction.rs:364
    if lo == 0xF then Some(New(0xEF, ISC, "ISC", Absolute)) else // nes/src/cpu/instruction.rs:472
    None
  }

  function RowF(lo: int): Option<OpCode> {
    if lo == 0x0 then Some(New(0xF0, BEQ, "BEQ", Relative)) else // nes/src/cpu/instruction.rs:400
    if lo == 0x1 then Some(New(0xF1, SBC, "SBC", Indirect_Y)) else // nes/src/cpu/instruction.rs:347
    if lo == 0x3 then Some(New(0xF3, ISC, "ISC", Indirect_Y)) else // nes/src/cpu/instruction.rs:471
    if lo == 0x4 then Some(New(0xF4, NOP_ALT, "NOP", ZeroPage_X)) else // nes/src/cpu/instruction.rs:420
    if lo == 0x5 then Some(New(0xF5, SBC, "SBC", ZeroPage_X)) else // nes/src/cpu/instruction.rs:342
    if lo == 0x6 then Some(New(0xF6, INC, "INC", ZeroPage_X)) else // nes/src/cpu/instruction.rs:363
    if lo == 0x7 then Some(New(0xF7, ISC, "ISC", ZeroPage_X)) else // nes/src/cpu/instruction.rs:469
    if lo == 0x8 then Some(New(0xF8, SED, "SED", Implicit)) else // nes/src/cpu/instruction.rs:411
    if lo == 0x9 then Some(New(0xF9, SBC, "SBC", Absolute_Y)) else // nes/src/cpu/instruction.rs:345
    if lo == 0xA then Some(New(0xFA, NOP_ALT, "NOP", Implicit)) else // nes/src/cpu/instruction.rs:416
    if lo == 0xB then Some(New(0xFB, ISC, "ISC", Absolute_Y)) else // nes/src/cpu/instruction.rs:474
    if lo == 0xC then Some(New(0xFC, NOP_ALT, "NOP", Absolute_X)) else // nes/src/cpu/instruction.rs:418
    if lo == 0xD then Some(New(0xFD, SBC, "SBC", Absolute_X)) else // nes/src/cpu/instruction.rs:344
    if lo == 0xE then Some(New(0xFE, INC, "INC", Absolute_X)) else // nes/src/cpu/instruction.rs:365
    if lo == 0xF then Some(New(0xFF, ISC, "ISC", Absolute_X)) else // nes/src/cpu/instruction.rs:473
    None
  }


  /// `decode_opcode`: the entry for the byte; an unregistered byte panics,
  /// modelled as None.
  function DecodeOpcode(opbyte: u8): (r: Option<OpCode>)
    ensures r.None? <==> Unregistered(opbyte)
    ensures r.Some? ==> r.value.byte == opbyte && r.value.len == OpcodeBytes(r.value.mode)
  {
    EntryAt(opbyte);
    Opcodes(opbyte)
  }

  /// The entry in row `hi`, column `lo` is missing exactly for an
  /// unregistered byte; a present entry is stored under its own byte and
  /// has the length of its mode.
  predicate EntryOkAt(r: Option<OpCode>, hi: int, lo: int) {
    (r.None? <==> Unregistered(16 * hi + lo))
    && (r.Some? ==>
      (r.value.byte == 16 * hi + lo && r.value.len == OpcodeBytes(r.value.mode)))
  }

  /// The bytes the table does not register: the twelve KIL bytes and the
  /// unofficial NOP and ANC encodings it leaves out.
  predicate Unregistered(b: int) {
    b in {0x02, 0x04, 0x0B, 0x12, 0x14, 0x1A, 0x1C, 0x22, 0x32, 0x34, 0x3A, 0x3C, 0x42, 0x44, 0x52, 0x54, 0x5A, 0x5C, 0x62, 0x72, 0x74, 0x7A, 0x7C, 0x80, 0x82, 0x89, 0x92, 0xB2, 0xC2, 0xD2, 0xD4, 0xDA, 0xDC, 0xF2}
  }

  predicate EntryOk(b: u8) {
    EntryOkAt(Opcodes(b), b / 16, b % 16)
  }

  lemma Row0Checked0() ensures forall lo | 0 <= lo < 4 :: EntryOkAt(Row0(lo), 0, lo) {}
  lemma Row0Checked1() ensures forall lo | 4 <= lo < 8 :: EntryOkAt(Row0(lo), 0, lo) {}
  lemma Row0Checked2() ensures forall lo | 8 <= lo < 12 :: EntryOkAt(Row0(lo), 0, lo) {}
  lemma Row0Checked3() ensures forall lo | 12 <= lo < 16 :: EntryOkAt(Row0(lo), 0, lo) {}
  lemma Row1Checked0() ensures forall lo | 0 <= lo < 4 :: EntryOkAt(Row1(lo), 1, lo) {}
  lemma Row1Checked1() ensures forall lo | 4 <= lo < 8 :: EntryOkAt(Row1(lo), 1, lo) {}
  lemma Row1Checked2() ensures forall lo | 8 <= lo < 12 :: EntryOkAt(Row1(lo), 1, lo) {}
  lemma Row1Checked3() ensures forall lo | 12 <= lo < 16 :: EntryOkAt(Row1(lo), 1, lo) {}
  lemma Row2Checked0() ensures forall lo | 0 <= lo < 4 :: EntryOkAt(Row2(lo), 2, lo) {}
  lemma Row2Checked1() ensures forall lo | 4 <= lo < 8 :: EntryOkAt(Row2(lo), 2, lo) {}
  lemma Row2Checked2() ensures forall lo | 8 <= lo < 12 :: EntryOkAt(Row2(lo), 2, lo) {}
  lemma Row2Checked3() ensures forall lo | 12 <= lo < 16 :: EntryOkAt(Row2(lo), 2, lo) {}
  lemma Row3Checked0() ensures forall lo | 0 <= lo < 4 :: EntryOkAt(Row3(lo), 3, lo) {}
  lemma Row3Checked1() ensures forall lo | 4 <= lo < 8 :: EntryOkAt(Row3(lo), 3, lo) {}
  lemma Row3Checked2() ensures forall lo | 8 <= lo < 12 :: EntryOkAt(Row3(lo), 3, lo) {}
  lemma Row3Checked3() ensures forall lo | 12 <= lo < 16 :: EntryOkAt(Row3(lo), 3, lo) {}
  lemma Row4Checked0() ensures forall lo | 0 <= lo < 4 :: EntryOkAt(Row4(lo), 4, lo) {}
  lemma Row4Checked1() ensures forall lo | 4 <= lo < 8 :: EntryOkAt(Row4(lo), 4, lo) {}
  lemma Row4Checked2() ensures forall lo | 8 <= lo < 12 :: EntryOkAt(Row4(lo), 4, lo) {}
  lemma Row4Checked3() ensures forall lo | 12 <= lo < 16 :: EntryOkAt(Row4(lo), 4, lo) {}
  lemma Row5Checked0() ensures forall lo | 0 <= lo < 4 :: EntryOkAt(Row5(lo), 5, lo) {}
  lemma Row5Checked1() ensures forall lo | 4 <= lo < 8 :: EntryOkAt(Row5(lo), 5, lo) {}
  lemma Row5Checked2() ensures forall lo | 8 <= lo < 12 :: EntryOkAt(Row5(lo), 5, lo) {}
  lemma Row5Checked3() ensures forall lo | 12 <= lo < 16 :: EntryOkAt(Row5(lo), 5, lo) {}
  lemma Row6Checked0() ensures forall lo | 0 <= lo < 4 :: EntryOkAt(Row6(lo), 6, lo) {}
  lemma Row6Checked1() ensures forall lo | 4 <= lo < 8 :: EntryOkAt(Row6(lo), 6, lo) {}
  lemma Row6Checked2() ensures forall lo | 8 <= lo < 12 :: EntryOkAt(Row6(lo), 6, lo) {}
  lemma Row6Checked3() ensures forall lo | 12 <= lo < 16 :: EntryOkAt(Row6(lo), 6, lo) {}
  lemma Row7Checked0() ensures forall lo | 0 <= lo < 4 :: EntryOkAt(Row7(lo), 7, lo) {}
  lemma Row7Checked1() ensures forall lo | 4 <= lo < 8 :: EntryOkAt(Row7(lo), 7, lo) {}
  lemma Row7Checked2() ensures forall lo | 8 <= lo < 12 :: EntryOkAt(Row7(lo), 7, lo) {}
  lemma Row7Checked3() ensures forall lo | 12 <= lo < 16 :: EntryOkAt(Row7(lo), 7, lo) {}
  lemma Row8Checked0() ensures forall lo | 0 <= lo < 4 :: EntryOkAt(Row8(lo), 8, lo) {}
  lemma Row8Checked1() ensures forall lo | 4 <= lo < 8 :: EntryOkAt(Row8(lo), 8, lo) {}
  lemma Row8Checked2() ensures forall lo | 8 <= lo < 12 :: EntryOkAt(Row8(lo), 8, lo) {}
  lemma Row8Checked3() ensures forall lo | 12 <= lo < 16 :: EntryOkAt(Row8(lo), 8, lo) {}
  lemma Row9Checked0() ensures forall lo | 0 <= lo < 4 :: EntryOkAt(Row9(lo), 9, lo) {}
  lemma Row9Checked1() ensures forall lo | 4 <= lo < 8 :: EntryOkAt(Row9(lo), 9, lo) {}
  lemma Row9Checked2() ensures forall lo | 8 <= lo < 12 :: EntryOkAt(Row9(lo), 9, lo) {}
  lemma Row9Checked3() ensures forall lo | 12 <= lo < 16 :: EntryOkAt(Row9(lo), 9, lo) {}
  lemma RowAChecked0() ensures forall lo | 0 <= lo < 4 :: EntryOkAt(RowA(lo), 10, lo) {}
  lemma RowAChecked1() ensures forall lo | 4 <= lo < 8 :: EntryOkAt(RowA(lo), 10, lo) {}
  lemma RowAChecked2() ensures forall lo | 8 <= lo < 12 :: EntryOkAt(RowA(lo), 10, lo) {}
  lemma RowAChecked3() ensures forall lo | 12 <= lo < 16 :: EntryOkAt(RowA(lo), 10, lo) {}
  lemma RowBChecked0() ensures forall lo | 0 <= lo < 4 :: EntryOkAt(RowB(lo), 11, lo) {}
  lemma RowBChecked1() ensures forall lo | 4 <= lo < 8 :: EntryOkAt(RowB(lo), 11, lo) {}
  lemma RowBChecked2() ensures forall lo | 8 <= lo < 12 :: EntryOkAt(RowB(lo), 11, lo) {}
  lemma RowBChecked3() ensures forall lo | 12 <= lo < 16 :: EntryOkAt(RowB(lo), 11, lo) {}
  lemma RowCChecked0() ensures forall lo | 0 <= lo < 4 :: EntryOkAt(RowC(lo), 12, lo) {}
  lemma RowCChecked1() ensures forall lo | 4 <= lo < 8 :: EntryOkAt(RowC(lo), 12, lo) {}
  lemma RowCChecked2() ensures forall lo | 8 <= lo < 12 :: EntryOkAt(RowC(lo), 12, lo) {}
  lemma RowCChecked3() ensures forall lo | 12 <= lo < 16 :: EntryOkAt(RowC(lo), 12, lo) {}
  lemma RowDChecked0() ensures forall lo | 0 <= lo < 4 :: EntryOkAt(RowD(lo), 13, lo) {}
  lemma RowDChecked1() ensures forall lo | 4 <= lo < 8 :: EntryOkAt(RowD(lo), 13, lo) {}
  lemma RowDChecked2() ensures forall lo | 8 <= lo < 12 :: EntryOkAt(RowD(lo), 13, lo) {}
  lemma RowDChecked3() ensures forall lo | 12 <= lo < 16 :: EntryOkAt(RowD(lo), 13, lo) {}
  lemma RowEChecked0() ensures forall lo | 0 <= lo < 4 :: EntryOkAt(RowE(lo), 14, lo) {}
  lemma RowEChecked1() ensures forall lo | 4 <= lo < 8 :: EntryOkAt(RowE(lo), 14, lo) {}
  lemma RowEChecked2() ensures forall lo | 8 <= lo < 12 :: EntryOkAt(RowE(lo), 14, lo) {}
  lemma RowEChecked3() ensures forall lo | 12 <= lo < 16 :: EntryOkAt(RowE(lo), 14, lo) {}
  lemma RowFChecked0() ensures forall lo | 0 <= lo < 4 :: EntryOkAt(RowF(lo), 15, lo) {}
  lemma RowFChecked1() ensures forall lo | 4 <= lo < 8 :: EntryOkAt(RowF(lo), 15, lo) {}
  lemma RowFChecked2() ensures forall lo | 8 <= lo < 12 :: EntryOkAt(RowF(lo), 15, lo) {}
  lemma RowFChecked3() ensures forall lo | 12 <= lo < 16 :: EntryOkAt(RowF(lo), 15, lo) {}

  lemma EntryAt(b: u8)
    ensures EntryOk(b)
  {
    var hi := b / 16;
    if hi == 0 {
      Row0Checked0(); Row0Checked1(); Row0Checked2(); Row0Checked3();
    } else if hi == 1 {
      Row1Checked0(); Row1Checked1(); Row1Checked2(); Row1Checked3();
    } else if hi == 2 {
      Row2Checked0(); Row2Checked1(); Row2Checked2(); Row2Checked3();
    } else if hi == 3 {
      Row3Checked0(); Row3Checked1(); Row3Checked2(); Row3Checked3();
    } else if hi == 4 {
      Row4Checked0(); Row4Checked1(); Row4Checked2(); Row4Checked3();
    } else if hi == 5 {
      Row5Checked0(); Row5Checked1(); Row5Checked2(); Row5Checked3();
    } else if hi == 6 {
      Row6Checked0(); Row6Checked1(); Row6Checked2(); Row6Checked3();
    } else if hi == 7 {
      Row7Checked0(); Row7Checked1(); Row7Checked2(); Row7Checked3();
    } else if hi == 8 {
      Row8Checked0(); Row8Checked1(); Row8Checked2(); Row8Checked3();
    } else if hi == 9 {
      Row9Checked0(); Row9Checked1(); Row9Checked2(); Row9Checked3();
    } else if hi == 10 {
      RowAChecked0(); RowAChecked1(); RowAChecked2(); RowAChecked3();
    } else if hi == 11 {
      RowBChecked0(); RowBChecked1(); RowBChecked2(); RowBChecked3();
    } else if hi == 12 {
      RowCChecked0(); RowCChecked1(); RowCChecked2(); RowCChecked3();
    } else if hi == 13 {
      RowDChecked0(); RowDChecked1(); RowDChecked2(); RowDChecked3();
    } else if hi == 14 {
      RowEChecked0(); RowEChecked1(); RowEChecked2(); RowEChecked3();
    } else {
      RowFChecked0(); RowFChecked1(); RowFChecked2(); RowFChecked3();
    }
  }

  /// Every present entry is stored under its own byte, with the length of
  /// its mode.
  lemma TableConsistent()
    ensures forall b: u8 :: EntryOk(b)
  {
    forall b: u8
      ensures EntryOk(b)
    {
      EntryAt(b);
    }
  }

  /// Sample entry: LDA immediate.
  lemma SpotEntryLoad()
    ensures DecodeOpcode(0xA9) == Some(OpCode(0xA9, LDA, "LDA", 2, Immediate))
  {
  }

  /// Sample entry: JMP absolute.
  lemma SpotEntryJump()
    ensures DecodeOpcode(0x4C) == Some(OpCode(0x4C, JMP, "JMP", 3, Absolute))
  {
  }

  /// Sample entry: 0x94 is listed as STY with ZeroPage_Y.
  lemma SpotEntryStoreY()
    ensures DecodeOpcode(0x94) == Some(OpCode(0x94, STY, "STY", 2, ZeroPage_Y))
  {
  }

  /// The KIL byte 0x02 has no entry, so decoding it panics.
  lemma KilUnlisted()
    ensures DecodeOpcode(0x02) == None
  {
  }

  // ---------------------------------------------------------------------
  // Building the map (nes/src/cpu/instruction.rs:489-492).
  // ---------------------------------------------------------------------

  /// The map that inserting the opcodes one after another produces.
  function MapOf(opcodes: seq<OpCode>): map<u8, OpCode>
    decreases |opcodes|
  {
    if opcodes == [] then map[]
    else
      var last := opcodes[|opcodes| - 1];
      MapOf(opcodes[..|opcodes| - 1])[last.byte := last]
  }

  /// The keys of the built map are exactly the listed bytes.
  lemma {:induction false} MapOfKeys(opcodes: seq<OpCode>)
    ensures forall b :: b in MapOf(opcodes) <==> exists i :: 0 <= i < |opcodes| && opcodes[i].byte == b
    decreases |opcodes|
  {
    if opcodes != [] {
      var init := opcodes[..|opcodes| - 1];
      MapOfKeys(init);
      forall b | b in MapOf(opcodes)
        ensures exists i :: 0 <= i < |opcodes| && opcodes[i].byte == b
      {
        if b != opcodes[|opcodes| - 1].byte {
          assert b in MapOf(init);
          var i :| 0 <= i < |init| && init[i].byte == b;
          assert opcodes[i] == init[i];
        }
      }
      forall b | exists i :: 0 <= i < |opcodes| && opcodes[i].byte == b
        ensures b in MapOf(opcodes)
      {
        var i :| 0 <= i < |opcodes| && opcodes[i].byte == b;
        if i < |init| {
          assert init[i] == opcodes[i];
        }
      }
    }
  }

  /// Every key of the built map holds one of the listed opcodes, and that
  /// opcode carries the key as its byte.
  lemma {:induction false} MapOfValues(opcodes: seq<OpCode>)
    ensures forall b | b in MapOf(opcodes) :: MapOf(opcodes)[b].byte == b && MapOf(opcodes)[b] in opcodes
    decreases |opcodes|
  {
    if opcodes != [] {
      var init := opcodes[..|opcodes| - 1];
      MapOfValues(init);
      forall b | b in MapOf(opcodes)
        ensures MapOf(opcodes)[b] in opcodes
      {
        if b != opcodes[|opcodes| - 1].byte {
          var op := MapOf(init)[b];
          var i :| 0 <= i < |init| && init[i] == op;
          assert opcodes[i] == op;
        }
      }
    }
  }

  /// An opcode whose byte is not listed again later is the one stored.
  lemma {:induction false} MapOfLastWins(opcodes: seq<OpCode>, i: int)
    requires 0 <= i < |opcodes|
    requires forall j | i < j < |opcodes| :: opcodes[j].byte != opcodes[i].byte
    ensures opcodes[i].byte in MapOf(opcodes) && MapOf(opcodes)[opcodes[i].byte] == opcodes[i]
    decreases |opcodes|
  {
    var init := opcodes[..|opcodes| - 1];
    if i < |init| {
      assert opcodes[i] == init[i];
      assert forall j | i < j < |init| :: init[j] == opcodes[j];
      MapOfLastWins(init, i);
    }
  }

  /// The `for` loop that fills `OPCODES` from the vector.
  method BuildOpcodeMap(opcodes: seq<OpCode>) returns (m: map<u8, OpCode>)
    ensures m == MapOf(opcodes)
    ensures forall b | b in m :: m[b].byte == b
  {
    m := map[];
    var i := 0;
    while i < |opcodes|
      invariant 0 <= i <= |opcodes|
      invariant m == MapOf(opcodes[..i])
    {
      assert opcodes[..i + 1][..i] == opcodes[..i];
      m := m[opcodes[i].byte := opcodes[i]];
      i := i + 1;
    }
    assert opcodes[..i] == opcodes;
    MapOfValues(opcodes);
  }
}

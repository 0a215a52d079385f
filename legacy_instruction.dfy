/// The first-generation instruction decoder (src/cpu/instruction.rs): a
/// match from opcode byte to instruction and addressing mode.
module LegacyInstruction {
  import opened Tools
  import Opcode

  datatype Instruction =
    LDA | LDX | LDY | STA | STX | STY | TAX | TAY | TXA | TYA | TSX | TXS | PHA | PHP |
    PLA | PLP | AND | EOR | ORA | BIT | ADC | SBC | CMP | CPX | CPY | INC | INX | INY |
    DEC | DEX | DEY | ASL | LSR | ROL | ROR | JMP | JSR | RTS | BCC | BCS | BEQ | BMI |
    BNE | BPL | BVC | BVS | CLC | CLD | CLI | CLV | SEC | SED | SEI | BRK | NOP | RTI |
    SLO | RLA | SRE | RRA | SAX | LAX | DCP | ISC | ANC | ALR | ARR | XAA | AXS |
    SBC_NOP | AHX | SHY | SHX | TAS | LAS

  datatype AddressingMode =
    | Implicit | Accumulator | Immediate | ZeroPage | ZeroPageX | ZeroPageY | Relative
    | Absolute | AbsoluteX | AbsoluteY | Indirect | IndirectX | IndirectY

  /// `extra_bytes`: the number of operand bytes after the opcode.
  function ExtraBytes(mode: AddressingMode): (n: nat)
    ensures n == 0 <==> mode == Implicit || mode == Accumulator
    ensures n == 2 <==>
      mode == Absolute || mode == AbsoluteX || mode == AbsoluteY || mode == Indirect
    ensures n == 1 <==>
      (mode == Immediate || mode == ZeroPage || mode == ZeroPageX || mode == ZeroPageY ||
       mode == Relative || mode == IndirectX || mode == IndirectY)
  {
    match mode
    case Accumulator | Implicit => 0
    case Immediate | ZeroPage | ZeroPageX | ZeroPageY | Relative => 1
    case Absolute | AbsoluteX | AbsoluteY | Indirect => 2
    case IndirectX | IndirectY => 1
  }

  /// The same mode in the current CPU's addressing-mode type.
  function CurrentMode(mode: AddressingMode): Opcode.AddressingMode {
    match mode
    case Implicit => Opcode.Implicit
    case Accumulator => Opcode.Accumulator
    case Immediate => Opcode.Immediate
    case ZeroPage => Opcode.ZeroPage
    case ZeroPageX => Opcode.ZeroPage_X
    case ZeroPageY => Opcode.ZeroPage_Y
    case Relative => Opcode.Relative
    case Absolute => Opcode.Absolute
    case AbsoluteX => Opcode.Absolute_X
    case AbsoluteY => Opcode.Absolute_Y
    case Indirect => Opcode.Indirect
    case IndirectX => Opcode.Indirect_X
    case IndirectY => Opcode.Indirect_Y
  }

  /// The opcode byte plus its operand bytes is the instruction length of the
  /// current CPU's table.
  lemma ExtraBytesAgreesWithLen(mode: AddressingMode)
    ensures ExtraBytes(mode) + 1 == Opcode.Len(CurrentMode(mode))
  {
  }

  /// `decode_opcode`: the instruction and mode of an opcode byte; a byte
  /// without an arm panics, modelled as None.  The arms are arranged here by
  /// the high nibble of their byte; no byte has two arms.
  function Decode(b: u8): (r: Option<(Instruction, AddressingMode)>)
  {
    var lo := b % 16;
    match b / 16
    case 0 => Row0(lo)
    case 1 => Row1(lo)
    case 2 => Row2(lo)
    case 3 => Row3(lo)
    case 4 => Row4(lo)
    case 5 => Row5(lo)
    case 6 => Row6(lo)
    case 7 => Row7(lo)
    case 8 => Row8(lo)
    case 9 => Row9(lo)
    case 10 => RowA(lo)
    case 11 => RowB(lo)
    case 12 => RowC(lo)
    case 13 => RowD(lo)
    case 14 => RowE(lo)
    case _ => RowF(lo)
  }

  function Row0(lo: int): Option<(Instruction, AddressingMode)> {
    if lo == 0x0 then Some((BRK, Implicit)) else // src/cpu/instruction.rs:447
    if lo == 0x1 then Some((ORA, IndirectX)) else // src/cpu/instruction.rs:313
    if lo == 0x3 then Some((SLO, IndirectX)) else // src/cpu/instruction.rs:470
    if lo == 0x4 then Some((NOP, ZeroPage)) else // src/cpu/instruction.rs:459
    if lo == 0x5 then Some((ORA, ZeroPage)) else // src/cpu/instruction.rs:308
    if lo == 0x6 then Some((ASL, ZeroPage)) else // src/cpu/instruction.rs:379
    if lo == 0x7 then Some((SLO, ZeroPage)) else // src/cpu/instruction.rs:468
    if lo == 0x8 then Some((PHP, Implicit)) else // src/cpu/instruction.rs:281
    if lo == 0x9 then Some((ORA, Immediate)) else // src/cpu/instruction.rs:307
    if lo == 0xA then Some((ASL, Accumulator)) else // src/cpu/instruction.rs:378
    if lo == 0xB then Some((ANC, Immediate)) else // src/cpu/instruction.rs:537
    if lo == 0xC then Some((NOP, Absolute)) else // src/cpu/instruction.rs:457
    if lo == 0xD then Some((ORA, Absolute)) else // src/cpu/instruction.rs:310
    if lo == 0xE then Some((ASL, Absolute)) else // src/cpu/instruction.rs:381
    if lo == 0xF then Some((SLO, Absolute)) else // src/cpu/instruction.rs:472
    None
  }

  function Row1(lo: int): Option<(Instruction, AddressingMode)> {
    if lo == 0x0 then Some((BPL, Relative)) else // src/cpu/instruction.rs:423
    if lo == 0x1 then Some((ORA, IndirectY)) else // src/cpu/instruction.rs:314
    if lo == 0x3 then Some((SLO, IndirectY)) else // src/cpu/instruction.rs:471
    if lo == 0x4 then Some((NOP, ZeroPageX)) else // src/cpu/instruction.rs:460
    if lo == 0x5 then Some((ORA, ZeroPageX)) else // src/cpu/instruction.rs:309
    if lo == 0x6 then Some((ASL, ZeroPageX)) else // src/cpu/instruction.rs:380
    if lo == 0x7 then Some((SLO, ZeroPageX)) else // src/cpu/instruction.rs:469
    if lo == 0x8 then Some((CLC, Implicit)) else // src/cpu/instruction.rs:431
    if lo == 0x9 then Some((ORA, AbsoluteY)) else // src/cpu/instruction.rs:312
    if lo == 0xA then Some((NOP, Implicit)) else // src/cpu/instruction.rs:456
    if lo == 0xB then Some((SLO, AbsoluteY)) else // src/cpu/instruction.rs:474
    if lo == 0xC then Some((NOP, AbsoluteX)) else // src/cpu/instruction.rs:458
    if lo == 0xD then Some((ORA, AbsoluteX)) else // src/cpu/instruction.rs:311
    if lo == 0xE then Some((ASL, AbsoluteX)) else // src/cpu/instruction.rs:382
    if lo == 0xF then Some((SLO, AbsoluteX)) else // src/cpu/instruction.rs:473
    None
  }

  function Row2(lo: int): Option<(Instruction, AddressingMode)> {
    if lo == 0x0 then Some((JSR, Absolute)) else // src/cpu/instruction.rs:407
    if lo == 0x1 then Some((AND, IndirectX)) else // src/cpu/instruction.rs:295
    if lo == 0x3 then Some((RLA, IndirectX)) else // src/cpu/instruction.rs:479
    if lo == 0x4 then Some((BIT, ZeroPage)) else // src/cpu/instruction.rs:316
    if lo == 0x5 then Some((AND, ZeroPage)) else // src/cpu/instruction.rs:290
    if lo == 0x6 then Some((ROL, ZeroPage)) else // src/cpu/instruction.rs:391
    if lo == 0x7 then Some((RLA, ZeroPage)) else // src/cpu/instruction.rs:477
    if lo == 0x8 then Some((PLP, Implicit)) else // src/cpu/instruction.rs:285
    if lo == 0x9 then Some((AND, Immediate)) else // src/cpu/instruction.rs:289
    if lo == 0xA then Some((ROL, Accumulator)) else // src/cpu/instruction.rs:390
    if lo == 0xB then Some((ANC, Immediate)) else // src/cpu/instruction.rs:537
    if lo == 0xC then Some((BIT, Absolute)) else // src/cpu/instruction.rs:317
    if lo == 0xD then Some((AND, Absolute)) else // src/cpu/instruction.rs:292
    if lo == 0xE then Some((ROL, Absolute)) else // src/cpu/instruction.rs:393
    if lo == 0xF then Some((RLA, Absolute)) else // src/cpu/instruction.rs:481
    None
  }

  function Row3(lo: int): Option<(Instruction, AddressingMode)> {
    if lo == 0x0 then Some((BMI, Relative)) else // src/cpu/instruction.rs:419
    if lo == 0x1 then Some((AND, IndirectY)) else // src/cpu/instruction.rs:296
    if lo == 0x3 then Some((RLA, IndirectY)) else // src/cpu/instruction.rs:480
    if lo == 0x4 then Some((NOP, ZeroPageX)) else // src/cpu/instruction.rs:460
    if lo == 0x5 then Some((AND, ZeroPageX)) else // src/cpu/instruction.rs:291
    if lo == 0x6 then Some((ROL, ZeroPageX)) else // src/cpu/instruction.rs:392
    if lo == 0x7 then Some((RLA, ZeroPageX)) else // src/cpu/instruction.rs:478
    if lo == 0x8 then Some((SEC, Implicit)) else // src/cpu/instruction.rs:439
    if lo == 0x9 then Some((AND, AbsoluteY)) else // src/cpu/instruction.rs:294
    if lo == 0xA then Some((NOP, Implicit)) else // src/cpu/instruction.rs:456
    if lo == 0xB then Some((RLA, AbsoluteY)) else // src/cpu/instruction.rs:483
    if lo == 0xC then Some((NOP, AbsoluteX)) else // src/cpu/instruction.rs:458
    if lo == 0xD then Some((AND, AbsoluteX)) else // src/cpu/instruction.rs:293
    if lo == 0xE then Some((ROL, AbsoluteX)) else // src/cpu/instruction.rs:394
    if lo == 0xF then Some((RLA, AbsoluteX)) else // src/cpu/instruction.rs:482
    None
  }

  function Row4(lo: int): Option<(Instruction, AddressingMode)> {
    if lo == 0x0 then Some((RTI, Implicit)) else // src/cpu/instruction.rs:451
    if lo == 0x1 then Some((EOR, IndirectX)) else // src/cpu/instruction.rs:304
    if lo == 0x3 then Some((SRE, IndirectX)) else // src/cpu/instruction.rs:488
    if lo == 0x4 then Some((NOP, ZeroPage)) else // src/cpu/instruction.rs:459
    if lo == 0x5 then Some((EOR, ZeroPage)) else // src/cpu/instruction.rs:299
    if lo == 0x6 then Some((LSR, ZeroPage)) else // src/cpu/instruction.rs:385
    if lo == 0x7 then Some((SRE, ZeroPage)) else // src/cpu/instruction.rs:486
    if lo == 0x8 then Some((PHA, Implicit)) else // src/cpu/instruction.rs:279
    if lo == 0x9 then Some((EOR, Immediate)) else // src/cpu/instruction.rs:298
    if lo == 0xA then Some((LSR, Accumulator)) else // src/cpu/instruction.rs:384
    if lo == 0xB then Some((ALR, Immediate)) else // src/cpu/instruction.rs:540
    if lo == 0xC then Some((JMP, Absolute)) else // src/cpu/instruction.rs:404
    if lo == 0xD then Some((EOR, Absolute)) else // src/cpu/instruction.rs:301
    if lo == 0xE then Some((LSR, Absolute)) else // src/cpu/instruction.rs:387
    if lo == 0xF then Some((SRE, Absolute)) else // src/cpu/instruction.rs:490
    None
  }

  function Row5(lo: int): Option<(Instruction, AddressingMode)> {
    if lo == 0x0 then Some((BVC, Relative)) else // src/cpu/instruction.rs:425
    if lo == 0x1 then Some((EOR, IndirectY)) else // src/cpu/instruction.rs:305
    if lo == 0x3 then Some((SRE, IndirectY)) else // src/cpu/instruction.rs:489
    if lo == 0x4 then Some((NOP, ZeroPageX)) else // src/cpu/instruction.rs:460
    if lo == 0x5 then Some((EOR, ZeroPageX)) else // src/cpu/instruction.rs:300
    if lo == 0x6 then Some((LSR, ZeroPageX)) else // src/cpu/instruction.rs:386
    if lo == 0x7 then Some((SRE, ZeroPageX)) else // src/cpu/instruction.rs:487
    if lo == 0x8 then Some((CLI, Implicit)) else // src/cpu/instruction.rs:435
    if lo == 0x9 then Some((EOR, AbsoluteY)) else // src/cpu/instruction.rs:303
    if lo == 0xA then Some((NOP, Implicit)) else // src/cpu/instruction.rs:456
    if lo == 0xB then Some((SRE, AbsoluteY)) else // src/cpu/instruction.rs:492
    if lo == 0xC then Some((NOP, AbsoluteX)) else // src/cpu/instruction.rs:458
    if lo == 0xD then Some((EOR, AbsoluteX)) else // src/cpu/instruction.rs:302
    if lo == 0xE then Some((LSR, AbsoluteX)) else // src/cpu/instruction.rs:388
    if lo == 0xF then Some((SRE, AbsoluteX)) else // src/cpu/instruction.rs:491
    None
  }

  function Row6(lo: int): Option<(Instruction, AddressingMode)> {
    if lo == 0x0 then Some((RTS, Implicit)) else // src/cpu/instruction.rs:409
    if lo == 0x1 then Some((ADC, IndirectX)) else // src/cpu/instruction.rs:327
    if lo == 0x3 then Some((RRA, IndirectX)) else // src/cpu/instruction.rs:497
    if lo == 0x4 then Some((NOP, ZeroPage)) else // src/cpu/instruction.rs:459
    if lo == 0x5 then Some((ADC, ZeroPage)) else // src/cpu/instruction.rs:322
    if lo == 0x6 then Some((ROR, ZeroPage)) else // src/cpu/instruction.rs:397
    if lo == 0x7 then Some((RRA, ZeroPage)) else // src/cpu/instruction.rs:495
    if lo == 0x8 then Some((PLA, Implicit)) else // src/cpu/instruction.rs:283
    if lo == 0x9 then Some((ADC, Immediate)) else // src/cpu/instruction.rs:321
    if lo == 0xA then Some((ROR, Accumulator)) else // src/cpu/instruction.rs:396
    if lo == 0xB then Some((ARR, Immediate)) else // src/cpu/instruction.rs:543
    if lo == 0xC then Some((JMP, Indirect)) else // src/cpu/instruction.rs:405
    if lo == 0xD then Some((ADC, Absolute)) else // src/cpu/instruction.rs:324
    if lo == 0xE then Some((ROR, Absolute)) else // src/cpu/instruction.rs:399
    if lo == 0xF then Some((RRA, Absolute)) else // src/cpu/instruction.rs:499
    None
  }

  function Row7(lo: int): Option<(Instruction, AddressingMode)> {
    if lo == 0x0 then Some((BVS, Relative)) else // src/cpu/instruction.rs:427
    if lo == 0x1 then Some((ADC, IndirectY)) else // src/cpu/instruction.rs:328
    if lo == 0x3 then Some((RRA, IndirectY)) else // src/cpu/instruction.rs:498
    if lo == 0x4 then Some((NOP, ZeroPageX)) else // src/cpu/instruction.rs:460
    if lo == 0x5 then Some((ADC, ZeroPageX)) else // src/cpu/instruction.rs:323
    if lo == 0x6 then Some((ROR, ZeroPageX)) else // src/cpu/instruction.rs:398
    if lo == 0x7 then Some((RRA, ZeroPageX)) else // src/cpu/instruction.rs:496
    if lo == 0x8 then Some((SEI, Implicit)) else // src/cpu/instruction.rs:443
    if lo == 0x9 then Some((ADC, AbsoluteY)) else // src/cpu/instruction.rs:326
    if lo == 0xA then Some((NOP, Implicit)) else // src/cpu/instruction.rs:456
    if lo == 0xB then Some((RRA, AbsoluteY)) else // src/cpu/instruction.rs:501
    if lo == 0xC then Some((NOP, AbsoluteX)) else // src/cpu/instruction.rs:458
    if lo == 0xD then Some((ADC, AbsoluteX)) else // src/cpu/instruction.rs:325
    if lo == 0xE then Some((ROR, AbsoluteX)) else // src/cpu/instruction.rs:400
    if lo == 0xF then Some((RRA, AbsoluteX)) else // src/cpu/instruction.rs:500
    None
  }

  function Row8(lo: int): Option<(Instruction, AddressingMode)> {
    if lo == 0x0 then Some((NOP, Immediate)) else // src/cpu/instruction.rs:461
    if lo == 0x1 then Some((STA, IndirectX)) else // src/cpu/instruction.rs:252
    if lo == 0x2 then Some((NOP, Immediate)) else // src/cpu/instruction.rs:461
    if lo == 0x3 then Some((SAX, IndirectX)) else // src/cpu/instruction.rs:506
    if lo == 0x4 then Some((STY, ZeroPage)) else // src/cpu/instruction.rs:259
    if lo == 0x5 then Some((STA, ZeroPage)) else // src/cpu/instruction.rs:247
    if lo == 0x6 then Some((STX, ZeroPage)) else // src/cpu/instruction.rs:255
    if lo == 0x7 then Some((SAX, ZeroPage)) else // src/cpu/instruction.rs:504
    if lo == 0x8 then Some((DEY, Implicit)) else // src/cpu/instruction.rs:374
    if lo == 0x9 then Some((NOP, Immediate)) else // src/cpu/instruction.rs:461
    if lo == 0xA then Some((TXA, Implicit)) else // src/cpu/instruction.rs:269
    if lo == 0xB then Some((XAA, Immediate)) else // src/cpu/instruction.rs:546
    if lo == 0xC then Some((STY, Absolute)) else // src/cpu/instruction.rs:261
    if lo == 0xD then Some((STA, Absolute)) else // src/cpu/instruction.rs:249
    if lo == 0xE then Some((STX, Absolute)) else // src/cpu/instruction.rs:257
    if lo == 0xF then Some((SAX, Absolute)) else // src/cpu/instruction.rs:507
    None
  }

  function Row9(lo: int): Option<(Instruction, AddressingMode)> {
    if lo == 0x0 then Some((BCC, Relative)) else // src/cpu/instruction.rs:413
    if lo == 0x1 then Some((STA, IndirectY)) else // src/cpu/instruction.rs:253
    if lo == 0x3 then Some((AHX, IndirectY)) else // src/cpu/instruction.rs:555
    if lo == 0x4 then Some((STY, ZeroPageY)) else // src/cpu/instruction.rs:260
    if lo == 0x5 then Some((STA, ZeroPageX)) else // src/cpu/instruction.rs:248
    if lo == 0x6 then Some((STX, ZeroPageY)) else // src/cpu/instruction.rs:256
    if lo == 0x7 then Some((SAX, ZeroPageY)) else // src/cpu/instruction.rs:505
    if lo == 0x8 then Some((TYA, Implicit)) else // src/cpu/instruction.rs:271
    if lo == 0x9 then Some((STA, AbsoluteY)) else // src/cpu/instruction.rs:251
    if lo == 0xA then Some((TXS, Implicit)) else // src/cpu/instruction.rs:277
    if lo == 0xB then Some((TAS, AbsoluteY)) else // src/cpu/instruction.rs:565
    if lo == 0xC then Some((SHY, AbsoluteX)) else // src/cpu/instruction.rs:559
    if lo == 0xD then Some((STA, AbsoluteX)) else // src/cpu/instruction.rs:250
    if lo == 0xE then Some((SHX, AbsoluteY)) else // src/cpu/instruction.rs:562
    if lo == 0xF then Some((AHX, AbsoluteY)) else // src/cpu/instruction.rs:556
    None
  }

  function RowA(lo: int): Option<(Instruction, AddressingMode)> {
    if lo == 0x0 then Some((LDY, Immediate)) else // src/cpu/instruction.rs:241
    if lo == 0x1 then Some((LDA, IndirectX)) else // src/cpu/instruction.rs:232
    if lo == 0x2 then Some((LDX, Immediate)) else // src/cpu/instruction.rs:235
    if lo == 0x3 then Some((LAX, IndirectX)) else // src/cpu/instruction.rs:513
    if lo == 0x4 then Some((LDY, ZeroPage)) else // src/cpu/instruction.rs:242
    if lo == 0x5 then Some((LDA, ZeroPage)) else // src/cpu/instruction.rs:227
    if lo == 0x6 then Some((LDX, ZeroPage)) else // src/cpu/instruction.rs:236
    if lo == 0x7 then Some((LAX, ZeroPage)) else // src/cpu/instruction.rs:511
    if lo == 0x8 then Some((TAY, Implicit)) else // src/cpu/instruction.rs:267
    if lo == 0x9 then Some((LDA, Immediate)) else // src/cpu/instruction.rs:226
    if lo == 0xA then Some((TAX, Implicit)) else // src/cpu/instruction.rs:265
    if lo == 0xB then Some((LAX, Immediate)) else // src/cpu/instruction.rs:510
    if lo == 0xC then Some((LDY, Absolute)) else // src/cpu/instruction.rs:244
    if lo == 0xD then Some((LDA, Absolute)) else // src/cpu/instruction.rs:229
    if lo == 0xE then Some((LDX, Absolute)) else // src/cpu/instruction.rs:238
    if lo == 0xF then Some((LAX, Absolute)) else // src/cpu/instruction.rs:515
    None
  }

  function RowB(lo: int): Option<(Instruction, AddressingMode)> {
    if lo == 0x0 then Some((BCS, Relative)) else // src/cpu/instruction.rs:415
    if lo == 0x1 then Some((LDA, IndirectY)) else // src/cpu/instruction.rs:233
    if lo == 0x3 then Some((LAX, IndirectY)) else // src/cpu/instruction.rs:514
    if lo == 0x4 then Some((LDY, ZeroPageX)) else // src/cpu/instruction.rs:243
    if lo == 0x5 then Some((LDA, ZeroPageX)) else // src/cpu/instruction.rs:228
    if lo == 0x6 then Some((LDX, ZeroPageY)) else // src/cpu/instruction.rs:237
    if lo == 0x7 then Some((LAX, ZeroPageY)) else // src/cpu/instruction.rs:512
    if lo == 0x8 then Some((CLV, Implicit)) else // src/cpu/instruction.rs:437
    if lo == 0x9 then Some((LDA, AbsoluteY)) else // src/cpu/instruction.rs:231
    if lo == 0xA then Some((TSX, Implicit)) else // src/cpu/instruction.rs:275
    if lo == 0xB then Some((LAS, AbsoluteY)) else // src/cpu/instruction.rs:568
    if lo == 0xC then Some((LDY, AbsoluteX)) else // src/cpu/instruction.rs:245
    if lo == 0xD then Some((LDA, AbsoluteX)) else // src/cpu/instruction.rs:230
    if lo == 0xE then Some((LDX, AbsoluteY)) else // src/cpu/instruction.rs:239
    if lo == 0xF then Some((LAX, AbsoluteY)) else // src/cpu/instruction.rs:516
    None
  }

  function RowC(lo: int): Option<(Instruction, AddressingMode)> {
    if lo == 0x0 then Some((CPY, Immediate)) else // src/cpu/instruction.rs:352
    if lo == 0x1 then Some((CMP, IndirectX)) else // src/cpu/instruction.rs:345
    if lo == 0x2 then Some((NOP, Immediate)) else // src/cpu/instruction.rs:461
    if lo == 0x3 then Some((DCP, IndirectX)) else // src/cpu/instruction.rs:521
    if lo == 0x4 then Some((CPY, ZeroPage)) else // src/cpu/instruction.rs:353
    if lo == 0x5 then Some((CMP, ZeroPage)) else // src/cpu/instruction.rs:340
    if lo == 0x6 then Some((DEC, ZeroPage)) else // src/cpu/instruction.rs:367
    if lo == 0x7 then Some((DCP, ZeroPage)) else // src/cpu/instruction.rs:519
    if lo == 0x8 then Some((INY, Implicit)) else // src/cpu/instruction.rs:365
    if lo == 0x9 then Some((CMP, Immediate)) else // src/cpu/instruction.rs:339
    if lo == 0xA then Some((DEX, Implicit)) else // src/cpu/instruction.rs:372
    if lo == 0xB then Some((AXS, Immediate)) else // src/cpu/instruction.rs:549
    if lo == 0xC then Some((CPY, Absolute)) else // src/cpu/instruction.rs:354
    if lo == 0xD then Some((CMP, Absolute)) else // src/cpu/instruction.rs:342
    if lo == 0xE then Some((DEC, Absolute)) else // src/cpu/instruction.rs:369
    if lo == 0xF then Some((DCP, Absolute)) else // src/cpu/instruction.rs:523
    None
  }

  function RowD(lo: int): Option<(Instruction, AddressingMode)> {
    if lo == 0x0 then Some((BNE, Relative)) else // src/cpu/instruction.rs:421
    if lo == 0x1 then Some((CMP, IndirectY)) else // src/cpu/instruction.rs:346
    if lo == 0x3 then Some((DCP, IndirectY)) else // src/cpu/instruction.rs:522
    if lo == 0x4 then Some((NOP, ZeroPageX)) else // src/cpu/instruction.rs:460
    if lo == 0x5 then Some((CMP, ZeroPageX)) else // src/cpu/instruction.rs:341
    if lo == 0x6 then Some((DEC, ZeroPageX)) else // src/cpu/instruction.rs:368
    if lo == 0x7 then Some((DCP, ZeroPageX)) else // src/cpu/instruction.rs:520
    if lo == 0x8 then Some((CLD, Implicit)) else // src/cpu/instruction.rs:433
    if lo == 0x9 then Some((CMP, AbsoluteY)) else // src/cpu/instruction.rs:344
    if lo == 0xA then Some((NOP, Implicit)) else // src/cpu/instruction.rs:456
    if lo == 0xB then Some((DCP, AbsoluteY)) else // src/cpu/instruction.rs:525
    if lo == 0xC then Some((NOP, AbsoluteX)) else // src/cpu/instruction.rs:458
    if lo == 0xD then Some((CMP, AbsoluteX)) else // src/cpu/instruction.rs:343
    if lo == 0xE then Some((DEC, AbsoluteX)) else // src/cpu/instruction.rs:370
    if lo == 0xF then Some((DCP, AbsoluteX)) else // src/cpu/instruction.rs:524
    None
  }

  function RowE(lo: int): Option<(Instruction, AddressingMode)> {
    if lo == 0x0 then Some((CPX, Immediate)) else // src/cpu/instruction.rs:348
    if lo == 0x1 then Some((SBC, IndirectX)) else // src/cpu/instruction.rs:336
    if lo == 0x2 then Some((NOP, Immediate)) else // src/cpu/instruction.rs:461
    if lo == 0x3 then Some((ISC, IndirectX)) else // src/cpu/instruction.rs:530
    if lo == 0x4 then Some((CPX, ZeroPage)) else // src/cpu/instruction.rs:349
    if lo == 0x5 then Some((SBC, ZeroPage)) else // src/cpu/instruction.rs:331
    if lo == 0x6 then Some((INC, ZeroPage)) else // src/cpu/instruction.rs:358
    if lo == 0x7 then Some((ISC, ZeroPage)) else // src/cpu/instruction.rs:528
    if lo == 0x8 then Some((INX, Implicit)) else // src/cpu/instruction.rs:363
    if lo == 0x9 then Some((SBC, Immediate)) else // src/cpu/instruction.rs:330
    if lo == 0xA then Some((NOP, Implicit)) else // src/cpu/instruction.rs:449
    if lo == 0xB then Some((SBC_NOP, Immediate)) else // src/cpu/instruction.rs:552
    if lo == 0xC then Some((CPX, Absolute)) else // src/cpu/instruction.rs:350
    if lo == 0xD then Some((SBC, Absolute)) else // src/cpu/instruction.rs:333
    if lo == 0xE then Some((INC, Absolute)) else // src/cpu/instruction.rs:360
    if lo == 0xF then Some((ISC, Absolute)) else // src/cpu/instruction.rs:532
    None
  }

  function RowF(lo: int): Option<(Instruction, AddressingMode)> {
    if lo == 0x0 then Some((BEQ, Relative)) else // src/cpu/instruction.rs:417
    if lo == 0x1 then Some((SBC, IndirectY)) else // src/cpu/instruction.rs:337
    if lo == 0x3 then Some((ISC, IndirectY)) else // src/cpu/instruction.rs:531
    if lo == 0x4 then Some((NOP, ZeroPageX)) else // src/cpu/instruction.rs:460
    if lo == 0x5 then Some((SBC, ZeroPageX)) else // src/cpu/instruction.rs:332
    if lo == 0x6 then Some((INC, ZeroPageX)) else // src/cpu/instruction.rs:359
    if lo == 0x7 then Some((ISC, ZeroPageX)) else // src/cpu/instruction.rs:529
    if lo == 0x8 then Some((SED, Implicit)) else // src/cpu/instruction.rs:441
    if lo == 0x9 then Some((SBC, AbsoluteY)) else // src/cpu/instruction.rs:335
    if lo == 0xA then Some((NOP, Implicit)) else // src/cpu/instruction.rs:456
    if lo == 0xB then Some((ISC, AbsoluteY)) else // src/cpu/instruction.rs:534
    if lo == 0xC then Some((NOP, AbsoluteX)) else // src/cpu/instruction.rs:458
    if lo == 0xD then Some((SBC, AbsoluteX)) else // src/cpu/instruction.rs:334
    if lo == 0xE then Some((INC, AbsoluteX)) else // src/cpu/instruction.rs:361
    if lo == 0xF then Some((ISC, AbsoluteX)) else // src/cpu/instruction.rs:533
    None
  }


  /// Sample decodings: LDA immediate and the indirect JMP.
  lemma SpotDecodings()
    ensures Decode(0xA9) == Some((LDA, Immediate))
    ensures Decode(0x6C) == Some((JMP, Indirect))
  {
  }

  /// The unofficial NOP bytes decode to NOP in the listed modes.
  lemma UnofficialNops()
    ensures forall b: u8 | b in {0x1A, 0x3A, 0x5A, 0x7A, 0xDA, 0xFA} :: Decode(b) == Some((NOP, Implicit))
    ensures Decode(0x0C) == Some((NOP, Absolute))
    ensures forall b: u8 | b in {0x1C, 0x3C, 0x5C, 0x7C, 0xDC, 0xFC} :: Decode(b) == Some((NOP, AbsoluteX))
    ensures forall b: u8 | b in {0x04, 0x44, 0x64} :: Decode(b) == Some((NOP, ZeroPage))
    ensures forall b: u8 | b in {0x14, 0x34, 0x54, 0x74, 0xD4, 0xF4} :: Decode(b) == Some((NOP, ZeroPageX))
    ensures forall b: u8 | b in {0x80, 0x82, 0x89, 0xC2, 0xE2} :: Decode(b) == Some((NOP, Immediate))
  {
  }

  /// Two bytes share the ANC arm; the KIL bytes have no arm and panic.
  lemma AncAndUnlisted()
    ensures Decode(0x0B) == Decode(0x2B) == Some((ANC, Immediate))
    ensures Decode(0x02).None? && Decode(0x12).None?
  {
  }

  /// Exactly the twelve KIL bytes (0x_2 outside columns 8, A, C and E) are
  /// missing from the match.
  predicate DecodedAt(r: Option<(Instruction, AddressingMode)>, hi: int, lo: int) {
    r.None? <==> (lo == 2 && hi != 8 && hi != 0xA && hi != 0xC && hi != 0xE)
  }

  predicate Decoded(b: u8) {
    DecodedAt(Decode(b), b / 16, b % 16)
  }

  lemma Row0LowChecked() ensures forall lo | 0 <= lo < 8 :: DecodedAt(Row0(lo), 0, lo) {}
  lemma Row0HighChecked() ensures forall lo | 8 <= lo < 16 :: DecodedAt(Row0(lo), 0, lo) {}
  lemma Row1LowChecked() ensures forall lo | 0 <= lo < 8 :: DecodedAt(Row1(lo), 1, lo) {}
  lemma Row1HighChecked() ensures forall lo | 8 <= lo < 16 :: DecodedAt(Row1(lo), 1, lo) {}
  lemma Row2LowChecked() ensures forall lo | 0 <= lo < 8 :: DecodedAt(Row2(lo), 2, lo) {}
  lemma Row2HighChecked() ensures forall lo | 8 <= lo < 16 :: DecodedAt(Row2(lo), 2, lo) {}
  lemma Row3LowChecked() ensures forall lo | 0 <= lo < 8 :: DecodedAt(Row3(lo), 3, lo) {}
  lemma Row3HighChecked() ensures forall lo | 8 <= lo < 16 :: DecodedAt(Row3(lo), 3, lo) {}
  lemma Row4LowChecked() ensures forall lo | 0 <= lo < 8 :: DecodedAt(Row4(lo), 4, lo) {}
  lemma Row4HighChecked() ensures forall lo | 8 <= lo < 16 :: DecodedAt(Row4(lo), 4, lo) {}
  lemma Row5LowChecked() ensures forall lo | 0 <= lo < 8 :: DecodedAt(Row5(lo), 5, lo) {}
  lemma Row5HighChecked() ensures forall lo | 8 <= lo < 16 :: DecodedAt(Row5(lo), 5, lo) {}
  lemma Row6LowChecked() ensures forall lo | 0 <= lo < 8 :: DecodedAt(Row6(lo), 6, lo) {}
  lemma Row6HighChecked() ensures forall lo | 8 <= lo < 16 :: DecodedAt(Row6(lo), 6, lo) {}
  lemma Row7LowChecked() ensures forall lo | 0 <= lo < 8 :: DecodedAt(Row7(lo), 7, lo) {}
  lemma Row7HighChecked() ensures forall lo | 8 <= lo < 16 :: DecodedAt(Row7(lo), 7, lo) {}
  lemma Row8LowChecked() ensures forall lo | 0 <= lo < 8 :: DecodedAt(Row8(lo), 8, lo) {}
  lemma Row8HighChecked() ensures forall lo | 8 <= lo < 16 :: DecodedAt(Row8(lo), 8, lo) {}
  lemma Row9LowChecked() ensures forall lo | 0 <= lo < 8 :: DecodedAt(Row9(lo), 9, lo) {}
  lemma Row9HighChecked() ensures forall lo | 8 <= lo < 16 :: DecodedAt(Row9(lo), 9, lo) {}
  lemma RowALowChecked() ensures forall lo | 0 <= lo < 8 :: DecodedAt(RowA(lo), 10, lo) {}
  lemma RowAHighChecked() ensures forall lo | 8 <= lo < 16 :: DecodedAt(RowA(lo), 10, lo) {}
  lemma RowBLowChecked() ensures forall lo | 0 <= lo < 8 :: DecodedAt(RowB(lo), 11, lo) {}
  lemma RowBHighChecked() ensures forall lo | 8 <= lo < 16 :: DecodedAt(RowB(lo), 11, lo) {}
  lemma RowCLowChecked() ensures forall lo | 0 <= lo < 8 :: DecodedAt(RowC(lo), 12, lo) {}
  lemma RowCHighChecked() ensures forall lo | 8 <= lo < 16 :: DecodedAt(RowC(lo), 12, lo) {}
  lemma RowDLowChecked() ensures forall lo | 0 <= lo < 8 :: DecodedAt(RowD(lo), 13, lo) {}
  lemma RowDHighChecked() ensures forall lo | 8 <= lo < 16 :: DecodedAt(RowD(lo), 13, lo) {}
  lemma RowELowChecked() ensures forall lo | 0 <= lo < 8 :: DecodedAt(RowE(lo), 14, lo) {}
  lemma RowEHighChecked() ensures forall lo | 8 <= lo < 16 :: DecodedAt(RowE(lo), 14, lo) {}
  lemma RowFLowChecked() ensures forall lo | 0 <= lo < 8 :: DecodedAt(RowF(lo), 15, lo) {}
  lemma RowFHighChecked() ensures forall lo | 8 <= lo < 16 :: DecodedAt(RowF(lo), 15, lo) {}

  lemma DecodedByte(b: u8)
    ensures Decoded(b)
  {
    var hi := b / 16;
    if hi == 0 {
      Row0LowChecked(); Row0HighChecked();
    } else if hi == 1 {
      Row1LowChecked(); Row1HighChecked();
    } else if hi == 2 {
      Row2LowChecked(); Row2HighChecked();
    } else if hi == 3 {
      Row3LowChecked(); Row3HighChecked();
    } else if hi == 4 {
      Row4LowChecked(); Row4HighChecked();
    } else if hi == 5 {
      Row5LowChecked(); Row5HighChecked();
    } else if hi == 6 {
      Row6LowChecked(); Row6HighChecked();
    } else if hi == 7 {
      Row7LowChecked(); Row7HighChecked();
    } else if hi == 8 {
      Row8LowChecked(); Row8HighChecked();
    } else if hi == 9 {
      Row9LowChecked(); Row9HighChecked();
    } else if hi == 10 {
      RowALowChecked(); RowAHighChecked();
    } else if hi == 11 {
      RowBLowChecked(); RowBHighChecked();
    } else if hi == 12 {
      RowCLowChecked(); RowCHighChecked();
    } else if hi == 13 {
      RowDLowChecked(); RowDHighChecked();
    } else if hi == 14 {
      RowELowChecked(); RowEHighChecked();
    } else {
      RowFLowChecked(); RowFHighChecked();
    }
  }

  lemma OnlyKilUnlisted()
    ensures forall b: u8 :: Decoded(b)
  {
    forall b: u8
      ensures Decoded(b)
    {
      DecodedByte(b);
    }
  }
}

# nesmur in Dafny

A Dafny model of the core of nesmur, a NES emulator written in Rust, with
proofs of what that core promises. The repository holds two generations
of emulator code: the current `nes/` crate and an older set of modules
under `src/`. Where the two disagree, each file is modelled as written,
in its own module.

What is modelled:

- **6502 CPU** (`nes/src/cpu`).
  - The opcode tables and the addressing-mode lengths: modules `Opcode`, `CpuInstruction` and `CpuAddr`.
  - Operand-address computation with page-cross detection and the JMP-indirect page-wrap bug: `Opcode.OperandAddress`.
  - The stack, flag and ALU helpers: `CpuCommon`, over the status flags of `CpuFlags`.
  - Every arm of `execute_instruction`, plus reset, interrupt entry and the run loop: `CpuExecute`, with cross-instruction properties in `CpuProperties`.
  - `CpuMachine.Cpu`: the CPU object, whose fields its methods update in place over a flat bus (`CpuBus`). Each method is proved to reach the state the corresponding `CpuCommon` or `CpuExecute` function computes.
- **PPU** (`nes/src/ppu`).
  - The loopy VRAM address register: `PpuAddr`.
  - The control and mask registers: `PpuRegisters`.
  - VRAM mirroring and palette aliases: `PpuMemory`.
  - The port-level PPU: registers, OAM, DMA, the buffered PPUDATA read, the write latch and the dot/scanline clock. This is `Ppu`, with the ports seen from the CPU in `PpuPorts`.
  - OAM sprite decoding: `PpuSprite`.
  - The scanline renderer with its shift registers, sprite evaluation and pixel priority: `PpuRenderer`.
- **Memory map and peripherals.**
  - The CPU address map: `CpuMemoryMap`.
  - The NROM mapper: `Mapper000`.
  - The console bus: `NesBus`.
  - The iNES loader: `Cartridge`.
  - The cartridge and console memories: `NesMemory`.
  - The standard controller: `Joypad`.
- **The first-generation emulator** (`src/cpu`, `src/bus`, `src/memory.rs`).
  - The match-based decoder: `LegacyInstruction`.
  - The CPU's addressing and step: `LegacyCpu`. Its addressing is proved to agree with the current CPU's.
  - The register file: `LegacyRegister`.
  - The mirrored-RAM bus: `LegacyBus`.
  - The flat 64 KiB memory: `FlatMemory`.
- **The window side** (`src/`).
  - The frame buffer: `Frame`.
  - The background and sprite picture of `src/render/mod.rs`: `Render`.
  - The pattern-table viewer: `TileViewer`.
  - Both of those draw tiles through `Tiles`.
  - The event queue: `Events`.
  - Log filters: `LogFilters`.
  - The number and duration formatters: `TestTiming`.
  - The `{RRGGBB}` coloured-text markup: `ColoredText`.
  - The shared byte helpers of `nes/src/tools.rs`: `Tools`.

Data bytes and registers are 8-bit bit-vectors. Addresses are integers in
0..0xFFFF, and every wrap-around is written out. A Rust panic is modelled
in one of two ways:
- as a `requires`, where avoiding it is the caller's duty;
- as `None` or an error outcome, where the input decides it.

This is the behaviour of a debug build, where integer overflow panics; a
release build wraps instead, as the u8 `-= 3` on the stack pointer in the
CPU reset would.

## Model

| member | source | states |
|---|---|---|
| Tools.BytesToU16 | nes/src/tools.rs:19-21 | the word's low byte is `bytes[0]` and its high byte `bytes[1]` |
| Tools.WordRoundTrip | nes/src/tools.rs:19-21 | joining the two bytes of any word gives the word back |
| Tools.BytesRoundTrip | nes/src/tools.rs:19-21 | splitting the joined word gives the two bytes back |
| Tools.VecToU16 | nes/src/tools.rs:23-26 | a result exactly when the vector holds two bytes (any other length panics), and then the little-endian word |
| Tools.PageCross | nes/src/tools.rs:28-30 | true exactly when the two addresses differ outside their low byte |
| Tools.PageCrossSymmetric | nes/src/tools.rs:28-30 | crossing is symmetric and no address crosses from itself |
| Tools.PageCrossIndexed | nes/src/tools.rs:28-30 | a base plus an 8-bit index crosses a page exactly when the base's low byte plus the index reaches 256 |
| Cartridge.Mapper | nes/src/cartridge.rs:25 | the mapper number's high nibble is byte 7's high nibble and its low nibble byte 6's high nibble |
| Cartridge.MirroringOf | nes/src/cartridge.rs:32-38 | four-screen exactly when byte 6 bit 3 is set; vertical exactly when bit 3 is clear and bit 0 set; horizontal otherwise |
| Cartridge.PrgRomStart | nes/src/cartridge.rs:43-45 | PRG-ROM starts at 16, or at 528 exactly when byte 6 bit 2 announces a trainer |
| Cartridge.RomNewOutcome | nes/src/cartridge.rs:20-54 | an image is refused as not iNES exactly when its first four bytes are not the tag; as NES 2.0 exactly when tagged with bits 2-3 of byte 7 non-zero; it parses exactly when tagged, iNES 1 and long enough for the declared PRG and CHR sizes |
| Cartridge.ParsedContents | nes/src/cartridge.rs:40-53 | a parsed ROM holds 16 KiB x byte 4 of PRG and 8 KiB x byte 5 of CHR, copied from the image right after the header (and trainer), with the decoded mapper and mirroring |
| Cartridge.LoadImage | nes/src/cartridge.rs:20-54 | an image assembled from a header, an optional trainer, PRG, CHR and trailing bytes loads back exactly that PRG and CHR |
| Cartridge.MapperThreeVertical | nes/src/unit_tests/cartridge.rs:5-62 | the headers of the loader's three examples: mapper 3, vertical, PRG at 16 or at 528 with a trainer, and byte 7 = 0x08 marks NES 2.0 |
| Joypad.ReadStep | nes/src/input_device/joypad.rs:47-57 | past the eighth button the answer is 1 and nothing changes; otherwise the answer is 1 exactly when the indexed button is pressed, and the index advances unless the strobe is on |
| Joypad.WriteStep | nes/src/input_device/joypad.rs:59-64 | the strobe becomes bit 0 of the data, a set strobe resets the index to button A, and the buttons are untouched |
| Joypad.SetButtonOnly | nes/src/input_device/joypad.rs:70-74 | pressing or releasing a button sets or clears its bit and leaves every other bit as it was |
| Joypad.ReadMany | nes/src/input_device/joypad.rs:47-57 | `n` reads give `n` answers |
| Joypad.SerialOrder | nes/src/input_device/joypad.rs:47-57 | with the strobe off, successive reads report the buttons from the index on in the order A, B, Select, Start, Up, Down, Left, Right, and 1 for ever after |
| Joypad.StrobeHeld | nes/src/unit_tests/joypad.rs:6-15 | with the strobe held, every read reports button A and the controller does not move on |
| Joypad.Restart | nes/src/unit_tests/joypad.rs:40-41 | writing 1 then 0 restarts the sequence at button A with the strobe off |
| Joypad.SerialExample | nes/src/unit_tests/joypad.rs:17-39 | with Right, Left, Select and B pressed, ten reads answer 0,1,1,0,0,0,1,1 and then 1s |
| Joypad.Joypad.constructor | nes/src/input_device/joypad.rs:37-43 | a new controller has the strobe off, index 0 and no button pressed |
| Joypad.Joypad.Read | nes/src/input_device/joypad.rs:47-57 | the new state and the answer are those of `ReadStep` on the old state |
| Joypad.Joypad.Write | nes/src/input_device/joypad.rs:59-64 | the new state is `WriteStep` of the old |
| Joypad.Joypad.SetButtonPressedStatus | nes/src/input_device/joypad.rs:70-74 | only the button status changes, by `SetButton` |
| Events.AppEventQueue.constructor | src/events.rs:14-18 | a new queue is empty |
| Events.AppEventQueue.Len | src/events.rs:20-22 | the number of queued events |
| Events.AppEventQueue.IsEmpty | src/events.rs:24-26 | empty exactly when the length is 0, that is when no event is queued |
| Events.AppEventQueue.Push | src/events.rs:28-30 | the event is appended at the back and the length grows by one |
| Events.AppEventQueue.Pull | src/events.rs:32-34 | returns the front event (None when empty) and leaves the rest of the queue |
| Events.Front | src/events.rs:32-34 | None exactly for the empty queue, otherwise the first event |
| Events.Rest | src/events.rs:32-34 | the front event followed by the rest is the queue; an empty queue stays empty |
| Events.PullMany | src/events.rs:32-34 | `n` pulls give `n` answers |
| Events.PulledInPushOrder | src/events.rs:28-34 | first in, first out: pulls return the queued events and then the pushed ones, each once and in push order, and then None |
| Events.PullManyAt | src/events.rs:32-34 | pull `i` returns event `i` of the queue, or None past its end |
| Frame.Flatten | src/frame.rs:29-38 | the byte buffer of a pixel buffer has three bytes per pixel |
| Frame.Unflatten | src/frame.rs:29-38 | three bytes give one pixel |
| Frame.FlattenPixel | src/frame.rs:32-35 | pixel `i`'s red, green and blue land at `3i`, `3i + 1` and `3i + 2` |
| Frame.FlattenRoundTrip | src/frame.rs:29-38 | reading the pixels back from the written bytes gives the pixel buffer |
| Frame.UnflattenRoundTrip | src/frame.rs:29-38 | every buffer of whole pixels is the flattening of the pixels it holds |
| Frame.PixelBytes | src/frame.rs:32-35 | the three bytes of pixel `i` and the channel each holds |
| Frame.UpdatedShows | src/frame.rs:22-39 | after an update with a new hash the frame shows exactly the pixel buffer; with the hash it last saw, the frame is unchanged; the hash is stored either way |
| Frame.UpdateIdempotent | src/frame.rs:22-39 | a second update with the same buffer and hash changes nothing |
| Frame.Frame.constructor | src/frame.rs:13-20 | a new frame has `width * height * 3` zero bytes and stored hash 0 |
| Frame.Frame.Update | src/frame.rs:22-39 | the buffer must hold `width * height` pixels; the new bytes and hash are `Updated` of the old ones |
| LogFilters.New | src/logging/filter.rs:18-32 | the filter keeps the kind, pattern and level it was made with, which the accessors return |
| LogFilters.CollectByType | src/logging/filter.rs:34-43 | the result is the filters of the requested kind, in their order |
| LogFilters.OfTypeExact | src/logging/filter.rs:34-43 | every kept filter is of the kind, each filter of the kind is kept as often as it occurs, and nothing is added |
| LogFilters.OfTypeOrdered | src/logging/filter.rs:34-43 | the kept filters keep the input order: the k-th is the one at the k-th kept position, and the positions increase |
| LogFilters.OfTypeIdempotent | src/logging/filter.rs:34-43 | selecting the same kind again changes nothing |
| TestTiming.DecimalString | src/test_timing.rs:92 | the decimal text of a number is a non-empty run of digits with no leading zero |
| TestTiming.DecimalRoundTrip | src/test_timing.rs:92 | reading the printed digits back gives the number |
| TestTiming.GroupShape | src/test_timing.rs:91-100 | grouping a digit string in threes from the right puts a comma exactly where the distance from the end is a multiple of four, adds (n - 1) / 3 characters, and dropping the commas gives the digits back |
| TestTiming.InsertCommasShape | src/test_timing.rs:91-100 | `u32_insert_commas` groups the decimal digits of the number in threes from the right, and without its commas is the number's decimal text |
| TestTiming.PaddedValue | src/test_timing.rs:107 | a value padded with `{:0w}` to a width it fits in is exactly `w` digits reading back as the value |
| TestTiming.DurationFields | src/test_timing.rs:103-106 | the minutes, seconds (below 60) and milliseconds (below 1000) add back up to the duration |
| TestTiming.FormatDurationShape | src/test_timing.rs:102-108 | below 100 minutes the text is `MM:SS.mmm`, nine characters whose fields read back as the duration's minutes, seconds and milliseconds |
| ColoredText.ParseColor | src/ui/colored_text.rs:29-31 | a six-character marker parses exactly when it is hexadecimal digits (after an optional `+`), to a value below 0x1000000 |
| ColoredText.RgbOf | src/ui/colored_text.rs:33-38 | the three channels are bytes that rebuild the parsed value as red, green, blue |
| ColoredText.TextWithColors | src/ui/colored_text.rs:9-61 | the loop emits exactly the segments of `Segments(text)`: the characters fed one at a time, then the pending text or a new line |
| ColoredText.FeedAppend | src/ui/colored_text.rs:15-50 | feeding two strings in turn is feeding their concatenation |
| ColoredText.FeedPlain | src/ui/colored_text.rs:47-48 | outside a marker, text without braces is appended to the pending text |
| ColoredText.FeedMarker | src/ui/colored_text.rs:45-46 | inside a marker, characters other than braces collect as its content |
| ColoredText.ReadMarker | src/ui/colored_text.rs:16-28 | a whole marker read with no pending text opens the marker, collects its content and closes it |
| ColoredText.ColorMarkerEffect | src/ui/colored_text.rs:28-38 | `{RRGGBB}` sets the colour of the next text to the marker's channels |
| ColoredText.ResetMarkerEffect | src/ui/colored_text.rs:39-40 | `{}` returns to the default colour |
| ColoredText.LiteralMarkerEffect | src/ui/colored_text.rs:41-43 | any other marker read with no text pending, including a six-character one that does not parse as a colour such as `{zzzzzz}`, stays in the text, braces included |
| ColoredText.EmptyText | src/ui/colored_text.rs:58-60 | an empty string emits only a new line |
| ColoredText.PlainText | src/ui/colored_text.rs:52-57 | text without markers is one segment in the default colour |
| ColoredText.ColorMarker | src/ui/colored_text.rs:28-38 | `{RRGGBB}` followed by text emits that text in the marker's colour |
| ColoredText.ColorUsedOnce | src/ui/colored_text.rs:16-25 | the colour is used up by the segment it colours: the next marker flushes that text, and text after a literal marker has the default colour |
| ColoredText.MarkerAfterText | src/ui/colored_text.rs:16-25 | a marker read with text pending first emits the text, then a same-line separator |
| ColoredText.ResetMarker | src/ui/colored_text.rs:39-40 | `{}` after a colour marker leaves the following text in the default colour |
| ColoredText.UnclosedMarker | src/ui/colored_text.rs:15-60 | a marker that is never closed swallows the rest of the input: the text before it, then a new line |
| PpuRegisters.GetNametable | nes/src/ppu/registers/control.rs:53-55 | the base nametable is the register's low two bits, 0-3 |
| PpuRegisters.NametableAddr | nes/src/ppu/registers/control.rs:57-65 | the base nametable starts at 0x2000 plus 0x400 per nametable number |
| PpuRegisters.VramAddrIncrement | nes/src/ppu/registers/control.rs:67-73 | the step is 1 or 32, and 32 exactly when bit 2 is set |
| PpuRegisters.SpritePatternAddr | nes/src/ppu/registers/control.rs:75-81 | the sprite pattern table is at 0 or 0x1000, and at 0x1000 exactly when bit 3 is set |
| PpuRegisters.BackgroundPatternAddr | nes/src/ppu/registers/control.rs:83-89 | the background pattern table is at 0 or 0x1000, and at 0x1000 exactly when bit 4 is set |
| PpuRegisters.SpriteSize | nes/src/ppu/registers/control.rs:91-97 | sprites are 8 or 16 pixels tall, 16 exactly when bit 5 is set |
| PpuRegisters.MasterSlaveSelect | nes/src/ppu/registers/control.rs:99-105 | the master/slave value is bit 6 |
| PpuRegisters.GenerateVblankNmiBit | nes/src/ppu/registers/control.rs:107-109 | an NMI is generated at vertical blank exactly when bit 7 is set |
| PpuRegisters.ControlRegister.constructor | nes/src/ppu/registers/control.rs:36-39 | a new control register is 0 |
| PpuRegisters.ControlRegister.Reset | nes/src/ppu/registers/control.rs:41-51 | removing the eight flags leaves 0, so no flag is set |
| PpuRegisters.ControlPowerUp | nes/src/ppu/registers/control.rs:36-109 | a cleared register decodes to nametable 0x2000, step 1, both pattern tables at 0, 8-pixel sprites, master/slave 0 and no NMI |
| PpuRegisters.MaskBits | nes/src/ppu/registers/mask.rs:55-73 | each mask query reports exactly its own bit |
| PpuRegisters.RenderingColumns | nes/src/ppu/registers/mask.rs:90-100 | past column 7 a layer is drawn exactly when its show bit is set; in columns 0-7 its leftmost bit is needed too; a drawn layer means the PPU is rendering |
| PpuRegisters.HiddenLeftColumn | nes/src/ppu/registers/mask.rs:94-96 | mask 0x1C draws the background from column 8 on but not in column 0 |
| PpuRegisters.MaskRegister.constructor | nes/src/ppu/registers/mask.rs:38-41 | a new mask register is 0 |
| PpuRegisters.MaskRegister.Reset | nes/src/ppu/registers/mask.rs:43-53 | removing the eight flags leaves 0: nothing rendered, no greyscale |
| PpuAddr.JoinSplit | nes/src/ppu/registers/addr.rs:24-27 | storing a word as high and low byte and reading it back with `get_all` gives the word |
| PpuAddr.SetCoarseXOnly | nes/src/ppu/registers/addr.rs:73-79 | `set_coarse_x` stores the value's low five bits, which the getter returns, and leaves coarse Y, nametable, fine Y and bit 15 alone |
| PpuAddr.SetCoarseYOnly | nes/src/ppu/registers/addr.rs:81-90 | `set_coarse_y` stores the value's low five bits and leaves every other field alone |
| PpuAddr.SetNametableOnly | nes/src/ppu/registers/addr.rs:62-71 | `set_nametable` stores the value's low two bits and leaves every other field alone |
| PpuAddr.SetFineYOnly | nes/src/ppu/registers/addr.rs:92-101 | `set_fine_y` stores the value's low three bits and leaves every other field alone |
| PpuAddr.Get | nes/src/ppu/registers/addr.rs:37-40 | the address is at most 0x3FFF and agrees with the register on bits 0-13 |
| PpuAddr.NametableAddr | nes/src/ppu/registers/addr.rs:103-106 | the tile address lies in 0x2000-0x2FFF and keeps bits 0-11 of the register, fine Y dropped |
| PpuAddr.AttributeAddrLayout | nes/src/ppu/registers/addr.rs:108-115 | the attribute byte lies in the last 64 bytes of the register's nametable, at row coarse Y / 4 and column coarse X / 4 |
| PpuAddr.TileOffsetValue | nes/src/ppu/registers/addr.rs:117-119 | the tile offset is tile number x 16 plus fine Y, which is below 8 |
| PpuAddr.CopyXFields | nes/src/ppu/registers/addr.rs:121-125 | `copy_x` takes coarse X and bit 10 from the other register and keeps every other bit |
| PpuAddr.CopyYFields | nes/src/ppu/registers/addr.rs:127-131 | `copy_y` takes coarse Y, bit 11 and fine Y from the other register and keeps coarse X, bit 10 and bit 15 |
| PpuAddr.CopyBoth | nes/src/ppu/registers/addr.rs:121-131 | `copy_x` then `copy_y` copy all of bits 0-14 and keep bit 15 |
| PpuAddr.ScrollXFields | nes/src/ppu/registers/addr.rs:133-141 | coarse X counts up; from 31 it returns to 0 and switches the horizontal nametable bit; nothing else changes |
| PpuAddr.ScrollYFields | nes/src/ppu/registers/addr.rs:143-163 | fine Y counts up to 7; past it fine Y returns to 0 and coarse Y counts up, row 29 wrapping to 0 with a switch of the vertical nametable bit and row 31 wrapping without one; coarse X, bit 10 and bit 15 never change |
| PpuAddr.AddrRegister.constructor | nes/src/ppu/registers/addr.rs:17-22 | a new register reads 0 |
| PpuAddr.AddrRegister.Set | nes/src/ppu/registers/addr.rs:24-27 | the register then reads the word |
| PpuAddr.AddrRegister.Increment | nes/src/ppu/registers/addr.rs:29-35 | adding to the low byte with a carry into the high byte adds the step to the whole word, wrapping at 16 bits |
| PpuAddr.AddrRegister.SetHiByte | nes/src/ppu/registers/addr.rs:50-52 | only the high byte changes |
| PpuAddr.AddrRegister.SetLoByte | nes/src/ppu/registers/addr.rs:58-60 | only the low byte changes |
| PpuAddr.AddrRegister.SetCoarseX | nes/src/ppu/registers/addr.rs:77-79 | the register becomes `WithCoarseX` of its old value |
| PpuAddr.AddrRegister.SetCoarseY | nes/src/ppu/registers/addr.rs:85-90 | the register becomes `WithCoarseY` of its old value |
| PpuAddr.AddrRegister.SetNametable | nes/src/ppu/registers/addr.rs:66-71 | the register becomes `WithNametable` of its old value |
| PpuAddr.AddrRegister.SetFineY | nes/src/ppu/registers/addr.rs:96-101 | the register becomes `WithFineY` of its old value |
| PpuAddr.AddrRegister.CopyXFrom | nes/src/ppu/registers/addr.rs:121-125 | the register becomes `CopyX` of its old value and the other's |
| PpuAddr.AddrRegister.CopyYFrom | nes/src/ppu/registers/addr.rs:127-131 | the register becomes `CopyY` of its old value and the other's |
| PpuAddr.AddrRegister.DoScrollX | nes/src/ppu/registers/addr.rs:133-141 | the register becomes `ScrollX` of its old value |
| PpuAddr.AddrRegister.DoScrollY | nes/src/ppu/registers/addr.rs:143-163 | the register becomes `ScrollY` of its old value |
| PpuAddr.IncrementBytes | nes/src/ppu/registers/addr.rs:29-35 | the byte-wise add with carry adds the step to the joined word |
| PpuAddr.IncrementCarry | nes/src/ppu/registers/addr.rs:29-35 | carrying into the high byte when the low byte wraps is 16-bit addition |
| PpuMemory.Fold | nes/src/ppu/mod.rs:137 | masking with 0b0010_1111_1111_1111 never raises an address |
| PpuMemory.FoldNametables | nes/src/ppu/mod.rs:137 | the mask leaves 0x2000-0x2FFF in place and moves 0x3000-0x3EFF down by 0x1000 |
| PpuMemory.MirrorLayout | nes/src/ppu/mod.rs:130-147 | vertical mirroring keeps the nametable offset modulo 2 KiB, horizontal keeps the offset within the nametable and picks the bank by the nametable's row, four-screen keeps the whole offset; the first two stay inside the 2 KiB of VRAM |
| PpuMemory.MirrorPairs | nes/src/ppu/mod.rs:130-147 | horizontal mirroring shares nametables 0/1 and 2/3 and separates 0/2; vertical shares 0/2 and 1/3 and separates 0/1 |
| PpuMemory.MirrorUpperCopy | nes/src/ppu/mod.rs:136-147 | an address in 0x3000-0x3EFF maps to the same VRAM cell as the address 0x1000 below it |
| PpuMemory.PaletteIndex | nes/src/ppu/mod.rs:292-297 | 0x3F10, 0x3F14, 0x3F18 and 0x3F1C index the entry 0x10 lower; every other palette address indexes its offset from 0x3F00 |
| PpuMemory.RawWrite | nes/src/ppu/mod.rs:238-268 | a write that does not panic keeps the VRAM and palette sizes, the CHR size and the CHR-RAM flag |
| PpuMemory.PaletteAliases | nes/src/ppu/mod.rs:257-296 | reads and writes of the four sprite backdrop aliases act exactly as those of 0x3F00, 0x3F04, 0x3F08 and 0x3F0C |
| PpuMemory.RawReadDefined | nes/src/ppu/mod.rs:284-301 | under horizontal or vertical mirroring a read succeeds exactly for CHR addresses inside CHR memory, all of 0x2000-0x2FFF and 0x3F00-0x3F1F; it panics on 0x3000-0x3EFF and on everything else |
| PpuMemory.WriteThenRead | nes/src/ppu/mod.rs:238-301 | a read after a successful write returns the value written, except for CHR-ROM, where the write is ignored and the read is unchanged |
| PpuMemory.WriteOtherCell | nes/src/ppu/mod.rs:250-287 | a nametable write leaves the reads of every address that maps to another VRAM cell unchanged |
| Ppu.StepAdvances | nes/src/ppu/mod.rs:113-128 | one `step` moves the clock one dot through the 341 x 262 frame, wrapping after the last dot of scanline 261; it reports the end of the frame exactly then, when the parity flips, and counts one cycle |
| Ppu.StepsAdvance | nes/src/ppu/mod.rs:113-128 | after n steps the clock is n dots further on modulo a frame and the cycle count has grown by n |
| Ppu.StepsParity | nes/src/ppu/mod.rs:121-124 | after n steps the frame parity has flipped once for every frame boundary crossed |
| Ppu.FrameLength | nes/src/ppu/mod.rs:113-128 | 89342 steps from dot 0 of scanline 0 come back there with the parity flipped |
| Ppu.CtrlWriteEffects | nes/src/ppu/mod.rs:163-173 | after the warm-up a write to $2000 raises the NMI exactly on a 0-to-1 edge of bit 7 during vertical blank, otherwise keeps the pending NMI, and copies the nametable bits into the temporary address while keeping its other fields |
| Ppu.StatusReadEffects | nes/src/ppu/mod.rs:182-189 | reading $2002 answers the status, clears only bit 7 and resets the address latch |
| Ppu.ScrollPair | nes/src/ppu/mod.rs:204-217 | two $2005 writes split X into fine X and coarse X and Y into fine Y and coarse Y of the temporary address, keep the nametable and leave the latch reset |
| Ppu.PpuAddrPair | nes/src/ppu/mod.rs:219-230 | two $2006 writes point the VRAM address at the high byte (14 bits kept) and the low byte and leave the latch reset |
| Ppu.StatusRestartsAddress | nes/src/ppu/mod.rs:182-230 | a status read between the two $2006 writes makes the next one a high-byte write |
| Ppu.WarmUpIgnoresWrites | nes/src/ppu/mod.rs:79-230 | for fewer than 9886 steps after `reset` the writes to $2000, $2001, $2005 and $2006 change nothing |
| Ppu.BufferedRead | nes/src/ppu/mod.rs:270-282 | a $2007 read below the palettes answers the buffered byte and buffers the byte at the address; a palette read answers the byte directly; the address moves on by 1 or 32 either way |
| Ppu.DummyReadFirst | nes/src/ppu/mod.rs:270-282 | the second of two reads below the palettes answers the byte at the address of the first |
| Ppu.OamDataWritten | nes/src/ppu/mod.rs:195-198 | a write to $2004 keeps OAM at 256 bytes |
| Ppu.OamWriteRead | nes/src/ppu/mod.rs:191-202 | a byte written through $2004 is read back at that address, the address moves on modulo 256 and no other OAM byte changes |
| Ppu.DmaImage | nes/src/ppu/mod.rs:303-308 | OAM after a DMA transfer is 256 bytes |
| Ppu.DmaImageWrites | nes/src/ppu/mod.rs:303-308 | page byte i lands at OAM address start + i modulo 256, so every byte of the page survives |
| Ppu.DmaPrefix | nes/src/ppu/mod.rs:303-308 | OAM part-way through a DMA transfer stays 256 bytes |
| Ppu.DmaPrefixCells | nes/src/ppu/mod.rs:303-308 | after n bytes of DMA the n cells from the OAM address on hold the page's first n bytes and every other cell is unchanged |
| Ppu.DmaComplete | nes/src/ppu/mod.rs:303-308 | after all 256 bytes OAM is the DMA image, whatever it held before |
| Ppu.Ppu.Video | nes/src/ppu/mod.rs:23-48 | the PPU's memories form a valid video memory: 2 KiB of VRAM and a 32-byte palette table |
| Ppu.Ppu.constructor | nes/src/ppu/mod.rs:51-77 | `new` zeroes VRAM, OAM and the palette table and sets the power-up registers |
| Ppu.Ppu.Reset | nes/src/ppu/mod.rs:79-89 | `reset` clears control and mask and the clock and drops the pending NMI; the latch and the addresses stay |
| Ppu.Ppu.Step | nes/src/ppu/mod.rs:113-128 | `step` updates the registers as the step function does |
| Ppu.Ppu.PollNmiInterrupt | nes/src/ppu/mod.rs:153-155 | the pending NMI is answered and cleared |
| Ppu.Ppu.WriteToCtrl | nes/src/ppu/mod.rs:163-173 | the registers after a $2000 write |
| Ppu.Ppu.WriteToMask | nes/src/ppu/mod.rs:175-180 | after the warm-up a $2001 write replaces the mask; before it nothing changes |
| Ppu.Ppu.ReadStatus | nes/src/ppu/mod.rs:182-189 | the registers and the answer of a $2002 read |
| Ppu.Ppu.WriteToOamAddr | nes/src/ppu/mod.rs:191-193 | a $2003 write sets the OAM address and nothing else |
| Ppu.Ppu.WriteToOamData | nes/src/ppu/mod.rs:195-198 | OAM and the OAM address after a $2004 write |
| Ppu.Ppu.ReadOamData | nes/src/ppu/mod.rs:200-202 | a $2004 read answers the OAM byte at the OAM address |
| Ppu.Ppu.WriteToScroll | nes/src/ppu/mod.rs:204-217 | the registers after a $2005 write |
| Ppu.Ppu.WriteToPpuAddr | nes/src/ppu/mod.rs:219-230 | the registers after a $2006 write |
| Ppu.Ppu.IncrementVramAddr | nes/src/ppu/mod.rs:149-151 | the VRAM address advances by the control register's increment |
| Ppu.Ppu.RawWriteToData | nes/src/ppu/mod.rs:238-268 | the memories after `raw_write_to_data` are those of the write function |
| Ppu.Ppu.RawReadData | nes/src/ppu/mod.rs:284-301 | `raw_read_data` answers what the read function does |
| Ppu.Ppu.WriteToData | nes/src/ppu/mod.rs:232-236 | the memories and registers after a $2007 write |
| Ppu.Ppu.ReadData | nes/src/ppu/mod.rs:270-282 | the registers and the answer of a $2007 read |
| Ppu.Ppu.WriteOamDma | nes/src/ppu/mod.rs:303-308 | OAM after the transfer is the DMA image of the page from the OAM address, and the registers, including the OAM address, are unchanged |
| PpuPorts.ViewOf | nes/src/ppu/mod.rs:23-48 | the registers, OAM and video memory of a PPU form a valid view: 256 bytes of OAM, 2 KiB of VRAM and 32 palette bytes |
| PpuPorts.PortWrite | nes/src/mapper/mapper000.rs:172-216 | a port write keeps the view valid |
| PpuPorts.PortFootprints | nes/src/mapper/mapper000.rs:83-216 | only OAMDATA writes change OAM and only PPUDATA writes change video memory; a PPUSTATUS write changes nothing; a read of a write-only port answers 0 and changes nothing |
| PpuPorts.OamPortRoundTrip | nes/src/mapper/mapper000.rs:96-200 | a byte written through OAMDATA after setting OAMADDR is read back through OAMDATA after setting OAMADDR to the same value again |
| PpuPorts.ReadPort | nes/src/mapper/mapper000.rs:83-105 | reading a port on the PPU object updates its registers and answers as the port read function does |
| PpuPorts.WritePort | nes/src/mapper/mapper000.rs:172-216 | writing a port on the PPU object leaves the view the port write function gives |
| PpuSprite.TileBase | nes/src/ppu/sprite.rs:8-10 | an 8x16 sprite takes pattern table 0x1000 exactly when its tile number is odd, and 0x0000 otherwise |
| PpuSprite.LargeOffset | nes/src/ppu/sprite.rs:12-14 | an 8x16 sprite's top tile starts 32 bytes per pair of tile numbers in, at the even tile |
| PpuSprite.SmallOffset | nes/src/ppu/sprite.rs:16-18 | an 8x8 sprite's tile starts 16 bytes per tile number in |
| PpuSprite.NewSprite | nes/src/ppu/sprite.rs:36-49 | OAM byte 0 is Y, byte 1 the tile, byte 3 X; attribute bits 7, 6 and 5 are flip Y, flip X and behind-background and bits 0-1 the palette; the pattern bytes start at 0 |
| PpuSprite.SpriteRow | nes/src/ppu/sprite.rs:58-61 | the row read lies inside the sprite's height |
| PpuSprite.TileAddressLayout | nes/src/ppu/sprite.rs:51-64 | an 8x8 sprite reads at its pattern table plus 16 times the tile plus the row; an 8x16 sprite at the table chosen by bit 0 plus the even tile's offset plus the row, 8 further in its bottom half; the high-plane byte 8 further on is still below 0x2000 |
| PpuSprite.SpriteRowValue | nes/src/ppu/sprite.rs:58-61 | on the scanlines the sprite covers the row is the distance below its top, turned over under flip Y |
| PpuSprite.ColorIndex | nes/src/ppu/sprite.rs:66-77 | the colour index is below 4 |
| PpuSprite.ColorIndexBits | nes/src/ppu/sprite.rs:66-77 | inside the sprite's eight columns the colour is twice the high-plane bit plus the low-plane bit at bit 7 minus the column, mirrored under flip X; outside them, including columns left of the sprite, it is 0 |
| PpuSprite.ColorIndexExamples | nes/src/ppu/sprite.rs:66-77 | a worked row: both bits in column 6, the low bit alone in column 0, the high bit alone in column 1 and 0 to the left of the sprite |
| PpuSprite.FlippedColorIndexExamples | nes/src/ppu/sprite.rs:70-72 | the same row under flip X read from the other side |
| PpuSprite.SmallTileExamples | nes/src/ppu/sprite.rs:51-64 | an 8x8 sprite read on four scanlines, the last wrapping to row 0, with and without flip Y |
| PpuSprite.LargeTileExamples | nes/src/ppu/sprite.rs:51-64 | an 8x16 sprite on an odd tile uses table 0x1000 and the even tile below and skips the high plane of its top half |
| CpuMemoryMap.MirrorDownPpu | nes/src/mapper/mapper000.rs:106-114 | a PPU-window address mirrors down to one of the eight ports at 0x2000-0x2007 |
| CpuMemoryMap.Route | nes/src/mapper/mapper000.rs:69-157 | an address goes to RAM exactly when it is below 0x2000, with an index below 2 KiB; to a PPU port exactly when it is in 0x2000-0x3FFF, with a port below 8; to PRG-ROM exactly from 0x8000 on |
| CpuMemoryMap.RamMirrors | nes/src/mapper/mapper000.rs:71-73 | two addresses below 0x2000 reach the same RAM cell exactly when they agree modulo 2 KiB |
| CpuMemoryMap.PpuWindowMirrors | nes/src/mapper/mapper000.rs:106-114 | every address of 0x2008-0x3FFF reaches port `addr mod 8`, and dispatching its mirror lands on that port directly |
| CpuMemoryMap.PrgMirroring | nes/src/mapper/mapper000.rs:136-142 | a 16 KiB PRG-ROM answers the same byte in both halves of 0x8000-0xFFFF; a 32 KiB one is indexed by the offset from 0x8000 |
| CpuMemoryMap.IoPage | nes/src/mapper/mapper000.rs:116-155 | 0x4000-0x4013 and 0x4015 are APU registers, 0x4014 OAM DMA, 0x4016 and 0x4017 the joypads, and 0x4018-0x7FFF unmapped |
| CpuMemoryMap.PlainValueMirrors | nes/src/mapper/mapper000.rs:69-150 | a read of RAM through any mirror gives the cell's byte, and a 16 KiB PRG-ROM gives the same byte in both halves |
| CpuMemoryMap.Page | nes/src/mapper/mapper000.rs:232-237 | the page an OAM DMA gathers is 256 bytes |
| CpuMemoryMap.RamPage | nes/src/mapper/mapper000.rs:232-237 | a DMA from any page below 0x2000 copies the 256 RAM bytes at (page mod 8) * 0x100 |
| Mapper000.Mapper.constructor | nes/src/mapper/mapper000.rs:48-57 | `new` shares the console RAM, PRG-ROM and PPU and connects no controller |
| Mapper000.Mapper.ConnectInputDevice | nes/src/mapper/mapper000.rs:60-67 | slot 1 or 2 receives the controller and the other slot keeps its own |
| Mapper000.ReadOnce | nes/src/mapper/mapper000.rs:69-157 | one `read` as a value: only a read of the port window 0x2000-0x3FFF can change the PPU's registers and only $4016/$4017 can step a controller; a PRG-ROM index past the ROM, or a PPUDATA read of an address the PPU does not serve, is None (the panic) |
| Mapper000.ReadOnceRoutes | nes/src/mapper/mapper000.rs:69-157 | RAM, PRG-ROM, write-only ports, $4014, APU and unmapped reads answer the mapped byte or 0 and change nothing; port reads, through the mirrors too, are the PPU's port reads; $4016/$4017 step the controller in that port (in both ports when they hold the same one) and answer 0 without one |
| Mapper000.PlainReadOnce | nes/src/mapper/mapper000.rs:69-157 | a read of a place that only answers gives the mapped byte and leaves registers and controllers as they were |
| Mapper000.Mapper.Read | nes/src/mapper/mapper000.rs:69-157 | the byte answered and the PPU registers and controller states left behind are exactly those `ReadOnce` gives for the state before the read |
| Mapper000.Mapper.Write | nes/src/mapper/mapper000.rs:159-264 | a RAM write stores at the mirrored cell; port writes act as the PPU's port writes; $4014 leaves registers, controllers and OAM exactly as `Dma` gives them and video memory untouched; $4016 strobes both controllers; PRG-ROM, APU, $4017 and unmapped writes change nothing |
| Mapper000.Mapper.WriteControllers | nes/src/mapper/mapper000.rs:246-253 | the strobe byte reaches every connected controller |
| CpuMemoryMap.DmaAddress | nes/src/mapper/mapper000.rs:234-236 | the address of byte `i` of a page has the page as high byte and `i` as low byte |
| Mapper000.DmaAddressPlaces | nes/src/mapper/mapper000.rs:234-236 | a byte of a page lies in the PPU's port window exactly when the page is one of 0x20-0x3F, and only page 0x40 holds the controller ports |
| Mapper000.PageReads | nes/src/mapper/mapper000.rs:234-236 | the first `n` reads of the DMA loop, in order, answer `n` bytes |
| Mapper000.PageReadsStep | nes/src/mapper/mapper000.rs:234-236 | the first `n` reads followed by read `n` are the first `n + 1` |
| Mapper000.PageReadsKeepRegs | nes/src/mapper/mapper000.rs:234-236 | reading a page outside the port window 0x2000-0x3FFF leaves the PPU's registers as they were |
| Mapper000.PageReadsKeepPads | nes/src/mapper/mapper000.rs:234-236 | reading a page other than 0x40 leaves both controllers as they were |
| Mapper000.PageTrace | nes/src/mapper/mapper000.rs:234-236 | the machines the reads pass through, read `k` leading from machine `k` to machine `k + 1` with byte `k` |
| Mapper000.SilentPageReads | nes/src/mapper/mapper000.rs:234-236 | reads that each answer a byte and change nothing give those bytes in order and leave the machine as it was |
| Mapper000.Dma | nes/src/mapper/mapper000.rs:232-244 | the $4014 write is defined exactly when every read of the page is, and yields 256 bytes of OAM |
| Mapper000.PlainPageDma | nes/src/mapper/mapper000.rs:232-244 | the DMA of a page of places that only answer copies `Page` into OAM from the OAM address on and changes nothing else |
| Mapper000.Mapper.DmaTransfer | nes/src/mapper/mapper000.rs:232-244 | OAM, the PPU's registers and the controllers end up exactly as `Dma` gives them for the state before the write, reads of the port window and of $4016/$4017 included; video memory is untouched |
| Mapper000.Mapper.ReadPage | nes/src/mapper/mapper000.rs:233-237 | the loop performs the reads a trace describes: the buffer holds the trace's bytes, the machine is the trace's last, and RAM, PRG-ROM and the PPU's memories are unchanged |
| Mapper000.Mapper.ReadNext | nes/src/mapper/mapper000.rs:236 | one read of the loop leads from one machine of the trace to the next and answers its byte |
| NesBus.StepNLast | nes/src/ppu/mod.rs:113-128 | n steps are n - 1 steps followed by one more |
| NesBus.StepsFrameSteps | nes/src/bus/mod.rs:97-99 | the PPU registers after the dots of a tick are those of n single steps |
| NesBus.StepsFrameEnds | nes/src/bus/mod.rs:97-103 | a tick reports a finished frame exactly when its dots reach or pass the frame's last dot, so the render callback runs at most once per tick |
| NesBus.RunPpu | nes/src/bus/mod.rs:99 | running the PPU n dots leaves its registers, and the frame flag, as the n-step function gives |
| NesBus.RamAfterU16 | nes/src/bus/mod.rs:145-150 | a word written into RAM keeps RAM at 2 KiB |
| NesBus.WordRoundTrip | nes/src/bus/mod.rs:139-150 | `write_u16` then `read_u16` at the same RAM address gives the word back through any mirror, the high byte going to the next cell modulo 2 KiB |
| NesBus.Image | nes/src/bus/mod.rs:109-122 | the memory image is 64 KiB |
| NesBus.ImageMatchesReads | nes/src/bus/mod.rs:109-257 | the image holds what `read` answers at every RAM and PRG-ROM address and 0 across the registers and unmapped space |
| NesBus.Bus.constructor | nes/src/bus/mod.rs:78-95 | `new` zeroes RAM and the cycle count, copies the PRG-ROM and starts a fresh controller |
| NesBus.Bus.Tick | nes/src/bus/mod.rs:97-103 | the cycle count grows by n, the PPU runs 3n dots, and the render callback runs once exactly when a frame ended |
| NesBus.Bus.PollNmiStatus | nes/src/bus/mod.rs:105-107 | the pending NMI is answered and cleared |
| NesBus.Bus.Memory | nes/src/bus/mod.rs:109-122 | the method builds the memory image |
| NesBus.Bus.Read | nes/src/bus/mod.rs:173-257 | the byte answered and the state left are those `ReadOnce` gives for the state before; RAM, APU, unmapped and PRG-ROM reads answer the mapped byte or 0 and change nothing; port reads act as the PPU's port reads, through the mirrors too; $4016 steps the controller; $4017 answers 0 |
| NesBus.Bus.Write | nes/src/bus/mod.rs:259-361 | the state left is the one `WriteOnce` gives for the state before; a RAM write stores at the mirrored cell; port writes act as the PPU's port writes; $4014 copies the page into OAM from the OAM address; $4016 strobes the controller; APU, $4017 and unmapped writes change nothing |
| NesBus.Bus.DmaTransfer | nes/src/bus/mod.rs:334-346 | OAM becomes the DMA image of the page read through the bus, and nothing else changes |
| NesBus.Bus.ReadPage | nes/src/bus/mod.rs:335-339 | the 256 reads gather the page and change nothing |
| NesBus.Bus.ReadQuiet | nes/src/bus/mod.rs:173-257 | a read that changes nothing answers the mapped byte |
| NesBus.Bus.ReadU16 | nes/src/bus/mod.rs:139-143 | from any state in which neither read panics, ports and controllers included, `read_u16` answers and leaves what `ReadWord` gives: the second read acts on the state the first left |
| NesBus.Bus.WriteU16 | nes/src/bus/mod.rs:145-150 | from any state in which neither write panics, ports and controllers included, `write_u16` leaves what `WriteWord` gives: the low byte written at `pos`, then the high byte at `pos + 1` on the state the first write left |
| NesBus.ReadOnce | nes/src/bus/mod.rs:173-257 | one `read` as a value: the state left and the byte answered, None for a write-only port, $4014, a PRG-ROM index past the ROM and a PPUDATA read the PPU cannot serve; no read changes RAM, OAM or video memory |
| NesBus.WriteOnce | nes/src/bus/mod.rs:259-361 | one `write` as a value, None for PPUSTATUS, PRG-ROM, a PPUDATA write the PPU cannot serve and a DMA of a page holding a read that panics; RAM stays 2 KiB and OAM 256 bytes |
| NesBus.ReadWord | nes/src/bus/mod.rs:139-143 | the two reads of `read_u16` leave RAM, OAM and video memory alone |
| NesBus.QuietReadOnce | nes/src/bus/mod.rs:173-257 | a read of RAM, the APU, unmapped space or PRG-ROM inside the ROM answers the mapped byte and changes nothing |
| NesBus.QuietReadWord | nes/src/bus/mod.rs:139-143 | two such reads give the little-endian word at `pos` and `pos + 1` (wrapping at 0xFFFF) and change nothing |
| NesBus.RamWriteWord | nes/src/bus/mod.rs:145-150 | `write_u16` at a RAM address below 0x1FFF stores the two bytes in neighbouring cells modulo 2 KiB and changes nothing else |
| NesBus.BusWordRoundTrip | nes/src/bus/mod.rs:139-150 | `write_u16` then `read_u16` at such an address answers the word written and the read changes nothing |
| NesBus.FirstNoisyRead | nes/src/bus/mod.rs:337-339 | a page that is not quiet has a first read that is not quiet, all reads before it being quiet |
| NesBus.QuietPlainPage | nes/src/bus/mod.rs:177-252 | every read of a RAM page or of an unmapped page is quiet |
| NesBus.PortPagePanics | nes/src/bus/mod.rs:189-218 | the first read of a page of 0x2000-0x3FFF reaches PPUCTRL, through a mirror where the page is above 0x20, and panics |
| NesBus.DmaPagePanics | nes/src/bus/mod.rs:189-223 | page 0x40 reads the APU quietly up to $4014, whose read panics |
| NesBus.PrgPagePanics | nes/src/bus/mod.rs:233-247 | a read of a PRG-ROM page that is not quiet indexes past the ROM and panics |
| NesBus.NoisyPagePanics | nes/src/bus/mod.rs:334-346 | the DMA of a page that is not quiet reaches, from the unchanged state, a read that panics, so `write` of $4014 panics exactly where `WriteOnce` is None |
| NesMemory.Zeros | nes/src/memory/mod.rs:16-17 | n bytes, all zero |
| NesMemory.MemoryNew | nes/src/memory/mod.rs:15-35 | `Memory::new` zeroes the CPU RAM and PRG-RAM, copies the PRG-ROM, takes the CHR-ROM as CHR memory when there is one and zeroed CHR-RAM of the declared size otherwise, and uses CHR-RAM exactly when the CHR-ROM is empty |
| NesMemory.FreshVideo | nes/src/ppu/mod.rs:51-58 | the fresh video memory has 2 KiB of VRAM and a 32-byte palette table |
| NesMemory.PatternTableWritable | nes/src/memory/mod.rs:19-26 | a pattern write never panics; with CHR-ROM it leaves the memory as it was, without CHR-ROM the byte written is read back |
| NesMemory.ChrRamStartsBlank | nes/src/memory/mod.rs:21-24 | every CHR-RAM address of a cartridge without CHR-ROM first reads 0 |
| PpuRenderer.NthBit16 | nes/src/ppu/renderer.rs:220-222 | a bit of a 16-bit shift register is 0 or 1 |
| PpuRenderer.BackgroundPixelValue | nes/src/ppu/renderer.rs:215-229 | the background pixel is 0 where the background is hidden; otherwise the pattern bits under fine X, plus 4 times the attribute bits exactly when the pattern is not transparent |
| PpuRenderer.BackgroundPixelExample | nes/src/unit_tests/ppu/renderer.rs:107-125 | the unit test's registers give colour 0x0F with every bit shown, and 0 in column 0 once the left column is hidden |
| PpuRenderer.ReloadedParts | nes/src/ppu/renderer.rs:286-293 | a reload keeps the high byte of each background shift register and replaces only its low byte by the latch; the attribute latches take bits 0 and 1 of the attribute byte |
| PpuRenderer.ReloadThenEightShifts | nes/src/ppu/renderer.rs:286-300 | eight shifts after a reload bring the latched tile into the high bytes the pixel reads and fill each attribute register with its latch bit |
| PpuRenderer.EightShifts | nes/src/ppu/renderer.rs:295-300 | eight shifts move each background register's low byte into its high byte, clear the low byte and fill the attribute registers with the latch bits |
| PpuRenderer.AttributeFill | nes/src/ppu/renderer.rs:298-299 | eight shifts taking in the same bit leave an attribute register all ones or all zeros |
| PpuRenderer.ShiftExamples | nes/src/unit_tests/ppu/renderer.rs:170-202 | the unit tests of reload and shift |
| PpuRenderer.FrontIsFirstOpaque | nes/src/ppu/renderer.rs:240-250 | scanning the primary sprites from last to first leaves the colour and priority of the lowest-index opaque sprite, or (0, false) when none is opaque |
| PpuRenderer.PriorityRules | nes/src/ppu/renderer.rs:203-209 | a sprite in front shows unless transparent; a sprite behind shows only where the background is transparent; a transparent side always gives the other |
| PpuRenderer.SpritePixelExamples | nes/src/unit_tests/ppu/renderer.rs:127-168 | sprites hidden by the mask give nothing; sprite 0 opaque in column 1 gives 0x13 and a possible zero hit |
| PpuRenderer.SpritePixelBehindExample | nes/src/unit_tests/ppu/renderer.rs:127-168 | a palette-3 sprite behind the background gives 0x1E with the behind flag and no zero hit |
| PpuRenderer.OamSprite | nes/src/ppu/renderer.rs:258-259 | the sprite decoded from OAM entry i carries OAM index i |
| PpuRenderer.CandidatesSound | nes/src/ppu/renderer.rs:257-273 | every candidate is an in-range OAM entry below n, decoded from its own bytes |
| PpuRenderer.CandidatesOrdered | nes/src/ppu/renderer.rs:257-273 | candidates come in strictly increasing OAM order |
| PpuRenderer.CandidatesComplete | nes/src/ppu/renderer.rs:257-273 | no in-range entry below n is missing from the candidates |
| PpuRenderer.CandidatesStep | nes/src/ppu/renderer.rs:264-272 | one more entry appends it when in range and adds nothing otherwise |
| PpuRenderer.CandidatesPrefix | nes/src/ppu/renderer.rs:257-273 | later candidate lists extend earlier ones |
| PpuRenderer.EvalInRangeExample | nes/src/unit_tests/ppu/renderer.rs:30-41 | the evaluation test's sprites at Y 10 and 3 cover scanline 10 and those at Y 2 and 11 do not |
| PpuRenderer.OverflowFound | nes/src/ppu/renderer.rs:264-270 | meeting an in-range entry with eight already found is an overflow whose sprites are those eight |
| PpuRenderer.NoOverflow | nes/src/ppu/renderer.rs:257-273 | a full pass with at most eight in-range sprites reports them all and no overflow |
| PpuRenderer.ScanOam | nes/src/ppu/renderer.rs:257-273 | the evaluation loop gives the first eight in-range sprites in OAM order and reports overflow exactly when a ninth exists |
| PpuRenderer.LoadedColors | nes/src/ppu/renderer.rs:276-284 | in each of its columns a loaded sprite shows the pair of bits of its row's two pattern planes (the colour bits of nes/src/ppu/sprite.rs:66-77) |
| PpuRenderer.PixelIndexInjective | nes/src/ppu/renderer.rs:302-303 | distinct on-screen coordinates give distinct pixel indices, so `set_pixel` writes exactly one pixel |
| PpuRenderer.Renderer.constructor | nes/src/ppu/renderer.rs:33-48 | `new` starts with cleared shift registers, empty sprite lists and a black 256 x 240 screen |
| PpuRenderer.Renderer.Reset | nes/src/ppu/renderer.rs:50-58 | `reset` empties both sprite lists and blacks out the screen, keeping the pipeline, the scratch address and the nametable entry |
| PpuRenderer.Renderer.ReloadShiftRegisters | nes/src/ppu/renderer.rs:286-293 | the pipeline after a reload; the sprite lists, the screen, the scratch address and the nametable entry are kept |
| PpuRenderer.Renderer.Shift | nes/src/ppu/renderer.rs:295-300 | the pipeline after a shift; the sprite lists, the screen, the scratch address and the nametable entry are kept |
| PpuRenderer.Renderer.RenderBackgroundPixel | nes/src/ppu/renderer.rs:215-229 | the background pixel of the pipeline under the mask and fine X |
| PpuRenderer.Renderer.RenderSpritePixel | nes/src/ppu/renderer.rs:231-253 | the reverse scan answers the frontmost opaque sprite's colour, its priority and whether sprite 0 may hit |
| PpuRenderer.Renderer.RenderPixel | nes/src/ppu/renderer.rs:193-213 | a pixel is answered exactly on the 256 x 240 screen, chosen by priority; the sprite-zero hit bit is set exactly when sprite 0 may hit over an opaque background; the frame lets it change only the status register |
| PpuRenderer.Renderer.EvalSprites | nes/src/ppu/renderer.rs:255-274 | the secondary list becomes the first eight in-range sprites, and the overflow bit is set exactly when a ninth exists |
| PpuRenderer.Renderer.LoadSprites | nes/src/ppu/renderer.rs:276-284 | each evaluated sprite becomes a primary sprite with both pattern bytes of its row fetched |
| PpuRenderer.Renderer.SetPixel | nes/src/ppu/renderer.rs:302-311 | only pixel y * 256 + x changes, to the colour at the palette entry (the backdrop when rendering is off) |
| CpuCommon.Dec8 | nes/src/cpu/common.rs:9 | the stack pointer's wrapping decrement is the value minus 1 modulo 256 |
| CpuCommon.Inc8 | nes/src/cpu/common.rs:19 | the stack pointer's wrapping increment is the value plus 1 modulo 256 |
| CpuCommon.IncDecInverse | nes/src/cpu/common.rs:7-21 | the wrapping increment and decrement undo each other |
| CpuCommon.PushThenPop | nes/src/cpu/common.rs:7-21 | a byte pushed is the byte popped next, and the pop restores the stack pointer, leaving the byte written at 0x100 + SP |
| CpuCommon.PushThenPopU16 | nes/src/cpu/common.rs:12-27 | a word pushed is the word popped next, with the stack pointer restored, whatever changed outside the stack in between |
| CpuCommon.PushU16Layout | nes/src/cpu/common.rs:12-16 | pushing a word puts its high byte at SP and its low byte just below, lowers SP by two and changes nothing else |
| CpuCommon.FlagsZN | nes/src/cpu/common.rs:122-141 | Z reports a zero value and N its bit 7, and nothing else changes |
| CpuCommon.SettersChangeOnlyZN | nes/src/cpu/common.rs:61-77 | each register setter stores the value, reports it in Z and N, and changes no other register, flag or memory cell |
| CpuCommon.NegMinusOneIsComplement | nes/src/cpu/common.rs:107-109 | the operand's `i8` wrapping negation minus one, as a byte, is its one's complement 255 - data |
| CpuCommon.AddProperties | nes/src/cpu/common.rs:79-105 | ADC leaves A as the sum of A, the operand and the carry modulo 256, C as the unsigned carry out, V as the sign test of the source and Z and N describing A; nothing else changes |
| CpuCommon.AddOverflowIsSigned | nes/src/cpu/common.rs:98-102 | V is set exactly when the signed sum of A, the operand and the carry falls outside -128..127 |
| CpuCommon.SubProperties | nes/src/cpu/common.rs:107-109 | SBC leaves A as A - operand - (1 - C) modulo 256, C set exactly when no borrow occurred, and changes nothing but A and the flags |
| CpuCommon.BranchEffect | nes/src/cpu/common.rs:32-41 | an untaken branch changes nothing; a taken one jumps to the target and costs one cycle, plus one on a page cross |
| CpuCommon.CompareProperties | nes/src/cpu/common.rs:43-56 | a compare sets C exactly when the operand is at most the register and Z exactly on equality, N from bit 7 of the difference, costs a cycle on a page cross, and changes nothing else |
| CpuCommon.CompareStepsProperties | nes/src/cpu/common.rs:46-55 | the flag updates and page-cross cycle of a compare once the operand is fetched |
| CpuAddr.Bytes | nes/src/cpu/addr.rs:22-38 | implicit and accumulator instructions take one byte, the absolute and indirect modes three, every other mode two |
| CpuAddr.BytesAgreesWithLen | nes/src/cpu/addr.rs:22-38 | the mode's byte count agrees with the instruction length used to advance the program counter (the lengths of nes/src/cpu/opcode.rs:24-38) |
| Opcode.Len | nes/src/cpu/opcode.rs:24-38 | an instruction is one to three bytes long |
| Opcode.LenByMode | nes/src/cpu/opcode.rs:24-38 | the length is 1 exactly for Implicit and Accumulator, 3 exactly for the absolute and indirect modes, 2 for every other mode |
| Opcode.New | nes/src/cpu/opcode.rs:17-48 | `OpCode::new` keeps the given fields and derives the length from the mode |
| Opcode.DecodeOpcode | nes/src/cpu/opcode.rs:145-716 | every byte decodes to an entry stored under that byte, whose length matches its mode, whose base cycles are zero exactly for KIL, and whose mode its instruction can execute in |
| Opcode.EntryAt | nes/src/cpu/opcode.rs:169-716 | the table has a well-formed entry under every byte |
| Opcode.TableComplete | nes/src/cpu/opcode.rs:169-716 | all 256 bytes have well-formed entries, so `decode_opcode` never panics |
| Opcode.SpotEntriesLoad | nes/src/cpu/opcode.rs:195-200 | 0xA9 is LDA immediate, 2 bytes, 2 cycles; 0xBD is LDA absolute-X, 3 bytes, 4 cycles |
| Opcode.SpotEntriesImplicit | nes/src/cpu/opcode.rs:523-527 | 0x00 is BRK, 1 byte, 7 cycles; 0xEA is NOP, 1 byte, 2 cycles |
| Opcode.SpotEntryUnofficial | nes/src/cpu/opcode.rs:574-575 | 0x07 is the unofficial SLO on page zero, 2 bytes, 5 cycles |
| Opcode.OperandAddress | nes/src/cpu/opcode.rs:50-55 | an immediate operand is the byte at the program counter, with no page cross |
| Opcode.ZeroPageIndexed | nes/src/cpu/opcode.rs:60-69 | zero-page indexing wraps inside page zero and never reports a page cross |
| Opcode.AbsoluteIndexed | nes/src/cpu/opcode.rs:79-88 | absolute indexing adds the index with 16-bit wrap and reports a cross exactly when the base's low byte overflows |
| Opcode.RelativeTarget | nes/src/cpu/opcode.rs:70-77 | a branch lands at the signed offset from the byte after the operand, and the cross is measured from that byte |
| Opcode.IndirectPageWrap | nes/src/cpu/opcode.rs:89-101 | an indirect pointer ending in 0xFF takes its high byte from the start of the same page, otherwise from the next byte; no cross is reported |
| Opcode.IndirectXZeroPage | nes/src/cpu/opcode.rs:102-108 | indexed-indirect addressing reads both pointer bytes from page zero, wrapping there, and reports no cross |
| Opcode.IndirectYIndexed | nes/src/cpu/opcode.rs:109-116 | indirect-indexed addressing adds Y to the page-zero pointer with 16-bit wrap and reports a cross exactly when the pointer's low byte overflows |
| CpuInstruction.OpcodeBytes | nes/src/cpu/instruction.rs:24-40 | implicit and accumulator instructions take one byte, the absolute and indirect modes three, every other mode two |
| CpuInstruction.New | nes/src/cpu/instruction.rs:53-66 | `OpCode::new` keeps the given fields and derives the length from the mode |
| CpuInstruction.DecodeOpcode | nes/src/cpu/instruction.rs:69-487 | decoding fails exactly for the 34 bytes the vector does not list (the KIL bytes and some unofficial NOP and ANC encodings); every other byte gives the entry stored under it, with its mode's length |
| CpuInstruction.EntryAt | nes/src/cpu/instruction.rs:264-487 | the table's entry for each byte is missing exactly for an unlisted byte and is otherwise well formed |
| CpuInstruction.TableConsistent | nes/src/cpu/instruction.rs:264-487 | every byte's entry is well formed |
| CpuInstruction.SpotEntryLoad | nes/src/cpu/instruction.rs:265 | 0xA9 decodes to LDA immediate, two bytes long |
| CpuInstruction.SpotEntryJump | nes/src/cpu/instruction.rs:394 | 0x4C decodes to JMP absolute, three bytes long |
| CpuInstruction.SpotEntryStoreY | nes/src/cpu/instruction.rs:294 | 0x94 decodes to STY with ZeroPage_Y, as this older table lists it |
| CpuInstruction.KilUnlisted | nes/src/cpu/instruction.rs:69-73 | the KIL byte 0x02 has no entry, so decoding it fails |
| CpuInstruction.MapOfKeys | nes/src/cpu/instruction.rs:489-492 | the keys of the built map are exactly the bytes listed |
| CpuInstruction.MapOfValues | nes/src/cpu/instruction.rs:489-492 | every key holds one of the listed opcodes, which carries the key as its byte |
| CpuInstruction.MapOfLastWins | nes/src/cpu/instruction.rs:489-492 | an opcode whose byte is not listed again later is the one stored under it |
| CpuInstruction.BuildOpcodeMap | nes/src/cpu/instruction.rs:489-492 | the insertion loop builds the map of the listed opcodes, each stored under its own byte |
| CpuFlags.Mask | nes/src/cpu/mod.rs:28-37 | each flag owns a single nonzero bit of the status byte |
| CpuFlags.SetOnly | nes/src/cpu/mod.rs:14-38 | setting a flag decides that flag and keeps every other one |
| CpuFlags.BitsAgree | nes/src/cpu/mod.rs:28-37 | a flag is in the set exactly when its bit is in the byte |
| CpuFlags.BitsRoundTrip | nes/src/cpu/mod.rs:14-38 | `bits` and `from_bits_truncate` are inverse: every byte is a flag set and back |
| CpuFlags.PowerOnStatus | nes/src/cpu/mod.rs:74 | the power-on status 0b0010_0100 holds exactly UNUSED and INTERRUPT_DISABLE |
| CpuBus.ReadU16 | nes/src/bus/mod.rs:139-143 | the word's low byte is the byte at `pos` and its high byte the byte at `pos + 1`, wrapping at 0xFFFF |
| CpuBus.Bus.constructor | nes/src/bus/mod.rs:78-95 | the CPU's view of a new bus holds the given memory image and no cycles counted |
| CpuBus.Bus.Write | nes/src/bus/mod.rs:127 | a write stores one byte at its address and changes nothing else |
| CpuBus.Bus.Tick | nes/src/bus/mod.rs:97-98 | a tick adds n to the cycle count and leaves memory alone |
| CpuExecute.PowerOn | nes/src/cpu/mod.rs:62-77 | a new CPU has A, X and Y at 0, SP at 0xFD, status 0x24 (I and U), the program counter from the reset vector 0xFFFC, is not running and is marked fresh; memory and cycles are the bus's |
| CpuExecute.ResetEffect | nes/src/cpu/mod.rs:80-88 | reset lowers SP by three, sets U and I, reloads the program counter from 0xFFFC, clears the fresh mark, costs seven cycles and changes nothing else |
| CpuExecute.ReturnFrameLayout | nes/src/cpu/mod.rs:90-96 | interrupt entry writes the return address's high byte at 0x100 + SP, its low byte below it and the status byte below that, lowers SP by three and changes nothing else |
| CpuExecute.InterruptLayout | nes/src/cpu/mod.rs:90-102 | after the return frame, interrupt entry sets I, keeps every other flag and register, adds the interrupt's cycles and jumps through its vector (a vector outside the stack page) |
| CpuExecute.InterruptVector | nes/src/cpu/mod.rs:98-101 | the vector read after the pushes sees the memory from before them, since the frame touches only the stack page |
| CpuExecute.PushedStatusBits | nes/src/cpu/mod.rs:93-96 | the pushed status byte has B exactly for a BRK and always has U |
| CpuExecute.PullPushed | nes/src/cpu/mod.rs:202-206 | pulling a byte pushed from a flag set restores every flag but B (cleared) and U (set) |
| CpuExecute.PushedThenPulled | nes/src/cpu/mod.rs:90-419 | for every interrupt kind, pulling its pushed status gives the flags back with B clear and U set |
| CpuExecute.ReturnFromFrame | nes/src/cpu/mod.rs:414-419 | RTI over a frame of status, low and high byte pulls the flags and the return address back, raises SP by three and changes nothing else |
| CpuExecute.InterruptThenRti | nes/src/cpu/mod.rs:90-419 | RTI right after interrupt entry resumes at the interrupted program counter with SP, A, X, Y and every flag but B and U restored, undoing the I set on entry |
| CpuExecute.PhpThenPlp | nes/src/cpu/mod.rs:192-206 | PLP right after PHP restores SP and every flag but B (cleared) and U (set); registers, program counter and cycles stay |
| CpuExecute.PhaThenPla | nes/src/cpu/mod.rs:191-201 | PLA right after PHA gives back A, reported in Z and N, with SP restored and the other registers unchanged |
| CpuExecute.JsrThenRts | nes/src/cpu/mod.rs:369-376 | JSR pushes the address of its own last byte and jumps to its operand; the RTS that follows resumes right after the three-byte JSR with SP, registers, flags and cycles restored |
| CpuExecute.RunUnroll | nes/src/cpu/mod.rs:104-133 | while the CPU runs and polls remain, the loop takes one step on the first poll (interrupt, fetch, execute, cycles, operand skip) and continues over the rest |
| CpuExecute.RunDone | nes/src/cpu/mod.rs:112 | a stopped CPU, or one with no polls left, is where the loop ends |
| CpuProperties.OperandAfterWrite | nes/src/cpu/opcode.rs:50-60 | after a write to a zero-page or absolute operand's address that spares the operand bytes, an instruction with the same mode still designates that address and reads the byte written, without a page cross |
| CpuProperties.SloSteps | nes/src/cpu/mod.rs:430-438 | SLO is ASL on memory followed by ORA of the shifted byte |
| CpuProperties.RlaSteps | nes/src/cpu/mod.rs:439-451 | RLA is ROL on memory followed by AND of the rotated byte |
| CpuProperties.SreSteps | nes/src/cpu/mod.rs:452-460 | SRE is LSR on memory followed by EOR of the shifted byte |
| CpuProperties.RraSteps | nes/src/cpu/mod.rs:461-473 | RRA is ROR on memory followed by ADC of the rotated byte with the carry the rotate produced |
| CpuProperties.DecrementedMemory | nes/src/cpu/mod.rs:275-280 | DEC on memory writes the byte minus one, keeps A and reports the new byte in Z and N |
| CpuProperties.DcpSteps | nes/src/cpu/mod.rs:488-494 | DCP is DEC on memory followed by CMP of A with the new byte: the Z and N that DEC sets are overwritten by the comparison |
| CpuProperties.CompareFlagsIgnoreZN | nes/src/cpu/common.rs:43-56 | Z and N set before a comparison do not survive it |
| CpuProperties.IscSteps | nes/src/cpu/mod.rs:495-501 | ISC is INC on memory followed by SBC of the new byte |
| CpuProperties.ShiftedValue | nes/src/cpu/mod.rs:287-364 | the shifted byte is the input doubled or halved modulo 256 with the filled-in bit worth 1 (left) or 0x80 (right); the bit moved out is bit 7 going left and bit 0 going right |
| CpuProperties.ShiftAccumulatorEffect | nes/src/cpu/mod.rs:287-364 | ASL, LSR, ROL and ROR on A: C gets the bit shifted out, the rotates fill the vacated bit with the old C, Z and N describe the new A and nothing else changes |
| CpuProperties.ShiftMemoryEffect | nes/src/cpu/mod.rs:287-316 | ASL and LSR on memory: only the cell at the given address changes, to the shifted byte; C gets the bit moved out and Z and N describe the byte; A is kept |
| CpuProperties.RotateMemoryEffect | nes/src/cpu/mod.rs:317-364 | ROL and ROR on memory: only the cell at the given address changes, to the byte rotated through C; N describes it while Z keeps its old value; A is kept |
| CpuProperties.RotateAccumulatorRoundTrip | nes/src/cpu/mod.rs:317-364 | ROR on A right after ROL on A gives A and C back, with Z and N describing A |
| CpuProperties.RotateMemoryRoundTrip | nes/src/cpu/mod.rs:317-364 | ROR on memory right after ROL on the same address gives the byte and C back; N describes the byte and Z is as before |
| CpuProperties.ArithmeticEffect | nes/src/cpu/mod.rs:238-253 | ADC sets A to A + operand + C modulo 256 with C the carry out; SBC (and SBC_NOP, lines 542-546) sets A to A - operand - (1 - C) modulo 256 with C set iff no borrow; X, Y, SP, the program counter and memory are kept; a page cross costs one cycle for ADC and SBC and none for SBC_NOP |
| CpuProperties.IncrementedMemory | nes/src/cpu/mod.rs:263-268 | INC changes only the byte at the address, to its old value plus one modulo 256, and Z and N describe the new byte |
| CpuProperties.IncDecEffect | nes/src/cpu/mod.rs:263-286 | INC and DEC change only the byte at the operand address, INX/DEX only X and INY/DEY only Y, each by one with wrap-around, and Z and N describe the new value |
| CpuProperties.LoadEffect | nes/src/cpu/mod.rs:137-160 | LDA, LDX, LDY (and LAX, lines 479-487, into A and X together) put the operand in the named register, Z and N describe it, a page cross costs exactly one cycle and nothing else changes |
| CpuProperties.LogicEffect | nes/src/cpu/mod.rs:207-230 | AND, EOR and ORA leave in A the operand ANDed, XORed or ORed with A (`LogicResult`), Z and N describe it, a page cross costs exactly one cycle and nothing else changes |
| CpuProperties.LogicTwice | nes/src/cpu/mod.rs:207-230 | repeating AND or ORA with the same operand leaves A as the first left it, and repeating EOR gives the original A back |
| CpuProperties.BitEffect | nes/src/cpu/mod.rs:231-237 | BIT sets Z exactly when A and the operand share no set bit and copies the operand's bits 7 and 6 into N and V; no register, memory cell or cycle count changes |
| CpuProperties.NoOperationEffect | nes/src/cpu/mod.rs:413-429 | NOP and operand-less NOP_ALT change nothing; NOP_ALT with an operand changes only the cycle count, by one exactly on a page cross |
| CpuProperties.ImmediateUnofficialEffect | nes/src/cpu/mod.rs:502-541 | ANC, ALR, ARR, XAA and AXS act on the byte at the operand's address as stated per instruction by ImmediateStepsEffect and pay nothing for a page cross |
| CpuProperties.ImmediateStepsEffect | nes/src/cpu/mod.rs:502-541 | for each of ANC, ALR, ARR, XAA and AXS, the whole new state: the register written, the flags it sets and that nothing else changes |
| CpuProperties.AncSteps | nes/src/cpu/mod.rs:502-507 | ANC puts operand AND A in A, Z and N describe it and C equals N |
| CpuProperties.AlrSteps | nes/src/cpu/mod.rs:508-513 | ALR puts (operand AND A) / 2 in A, C gets the bit shifted out, Z describes A and N is clear |
| CpuProperties.ArrSteps | nes/src/cpu/mod.rs:514-528 | ARR rotates operand AND A right through the old C into A (`RotateRight`), then C is bit 6 of A and V is bit 6 XOR bit 5; Z and N describe A |
| CpuProperties.AxsSteps | nes/src/cpu/mod.rs:534-541 | AXS puts (A AND X) minus the operand, wrapping, in X, so adding the operand back gives A AND X; C is set exactly when no borrow occurred; Z and N describe X |
| CpuProperties.ShyEffect | nes/src/cpu/mod.rs:552-556 | SHY stores Y AND (high byte of the address + 1) at the address, a byte never above Y, and changes no register, flag or other cell |
| CpuProperties.ShxEffect | nes/src/cpu/mod.rs:557-561 | SHX stores X AND (high byte of the address + 1) at the address, a byte never above X, and changes no register, flag or other cell |
| CpuProperties.TasEffect | nes/src/cpu/mod.rs:562-567 | TAS sets SP to A AND X and stores that mask ANDed with the address's high byte + 1; no flag and no other cell changes |
| CpuProperties.StackThenStoreEffect | nes/src/cpu/mod.rs:562-567 | the byte TAS stores is never above the mask it put in SP |
| CpuProperties.LoadMaskedStackEffect | nes/src/cpu/mod.rs:568-575 | LAS puts operand AND SP in A, X and SP, so SP never grows; Z and N describe it and no cycle is paid for a page cross |
| CpuMachine.Cpu.constructor | nes/src/cpu/mod.rs:62-77 | the new CPU's registers, over the given bus, are the power-on state |
| CpuMachine.Cpu.StackPush | nes/src/cpu/common.rs:7-10 | the byte is stored at 0x100 + SP and SP drops by one with wrap, exactly as the stack function computes |
| CpuMachine.Cpu.StackPushU16 | nes/src/cpu/common.rs:12-16 | the high byte is pushed, then the low byte |
| CpuMachine.Cpu.StackPop | nes/src/cpu/common.rs:18-21 | SP rises by one with wrap and the byte at 0x100 + SP is returned |
| CpuMachine.Cpu.StackPopU16 | nes/src/cpu/common.rs:23-27 | the low byte is popped, then the high byte, and the word they form is returned |
| CpuMachine.Cpu.UpdateFlagsZN | nes/src/cpu/common.rs:122-125 | Z and N are set to describe the value and nothing else changes |
| CpuMachine.Cpu.Reset | nes/src/cpu/mod.rs:80-88 | the CPU and bus end in the state the reset function computes (SP - 3, U and I set, reset vector, seven cycles) |
| CpuMachine.Cpu.Interrupt | nes/src/cpu/mod.rs:90-102 | the CPU and bus end in the state of interrupt entry: return frame pushed, I set, the interrupt's cycles paid, the vector loaded |
| CpuMachine.Cpu.ExecuteInstruction | nes/src/cpu/mod.rs:135-587 | the CPU and bus end in the state the instruction's arm computes |
| CpuMachine.Cpu.TakeInterrupt | nes/src/cpu/mod.rs:113-116 | a pending interrupt is entered, and without one nothing changes |
| CpuMachine.Cpu.FetchOpcode | nes/src/cpu/mod.rs:120-123 | the byte at the program counter is decoded and the program counter moves past it |
| CpuMachine.Cpu.Finish | nes/src/cpu/mod.rs:126-130 | the opcode's cycles are paid and, when the instruction left the program counter where the fetch put it, the operand bytes are skipped |
| CpuMachine.Cpu.Step | nes/src/cpu/mod.rs:113-130 | one loop iteration leaves the state the step function computes for the poll |
| CpuMachine.Cpu.RunWithCallback | nes/src/cpu/mod.rs:104-133 | after the start (running set, seven cycles when fresh) the loop steps while the CPU runs and polls remain, ending in the state of the run function |
| FlatMemory.ReadCount | src/memory.rs:30-35 | a bulk read takes one fewer byte than requested, cut so that the run ends at 0xFFFF at the latest |
| FlatMemory.WriteCount | src/memory.rs:51-56 | a bulk write stores the whole vector unless it would pass 0xFFFF, and then exactly the bytes before 0xFFFF |
| FlatMemory.Memory.constructor | src/memory.rs:18-22 | a new memory has 65536 cells, all zero |
| FlatMemory.Memory.WriteByte | src/memory.rs:46-49 | the one addressed cell takes the byte and every other cell keeps its value |
| FlatMemory.Memory.Modify | src/memory.rs:64-69 | the addressed cell becomes the function of its old value and every other cell keeps its value |
| FlatMemory.Memory.ReadNBytes | src/memory.rs:30-44 | the result is the run of cells from the base, of the bulk read's count (a request of zero bytes is excluded: it underflows) |
| FlatMemory.Memory.WriteNBytes | src/memory.rs:51-62 | the memory afterwards is the bulk-write image of the old memory |
| FlatMemory.WrittenCells | src/memory.rs:51-62 | after a bulk write the cell at base + i holds byte i for each stored byte, every other cell is unchanged, and 0xFFFF is never written |
| FlatMemory.ReadCells | src/memory.rs:30-44 | a bulk read returns the cells from the base in order, one fewer than requested whenever the run fits |
| FlatMemory.WriteThenRead | src/memory.rs:30-62 | writing a run that ends before 0xFFFF and reading one more byte than its length from the same base returns the run |
| LegacyBus.MirrorDown | src/bus/mod.rs:49-68 | masking with 0x07FF picks RAM cell `addr mod 0x800`, below 2048 |
| LegacyBus.Bus.constructor | src/bus/mod.rs:8-12 | a new bus has 2048 bytes of RAM, all zero |
| LegacyBus.Bus.MemRead | src/bus/mod.rs:46-63 | RAM addresses 0x0000-0x1FFF read the mirrored cell, the PPU window 0x2000-0x3FFF has no value (the source panics with `todo!`), and every higher address reads 0 |
| LegacyBus.Bus.MemWrite | src/bus/mod.rs:65-80 | a RAM address stores into the mirrored cell, higher addresses change nothing; the PPU window, which panics, is excluded |
| LegacyBus.Bus.MemReadU16 | src/bus/mod.rs:31-35 | a word exists exactly when both bytes can be read, and is then the little-endian join of `pos` and `pos + 1` (0xFFFF, where `pos + 1` overflows, is excluded) |
| LegacyBus.Bus.MemWriteU16 | src/bus/mod.rs:37-42 | the low byte is written at `pos`, then the high byte at `pos + 1` |
| LegacyBus.WriteVisibleAtMirrors | src/bus/mod.rs:46-80 | a RAM write reads back at all four mirrors of its cell and leaves every other RAM address as it was |
| LegacyBus.WordRoundTrip | src/bus/mod.rs:31-42 | a word written into RAM reads back as its two bytes, which join to the word |
| LegacyRegister.NoFlagArgs | src/cpu/register.rs:16-27 | `FlagArgs::none` requests no flag at all |
| LegacyRegister.New | src/cpu/register.rs:45-85 | `Flags::new` builds, starting from the empty set, exactly the encoding of its arguments |
| LegacyRegister.EncodeBits | src/cpu/register.rs:33-85 | each flag's bit (N 0x80, V 0x40, U 0x20, B 0x10, D 0x08, I 0x04, Z 0x02, C 0x01) is set in the built byte exactly when its argument is |
| LegacyRegister.EncodeRoundTrip | src/cpu/register.rs:33-85 | reading the flags of a built byte gives the arguments back, and every byte is the one built from the flags it holds |
| LegacyRegister.NoFlagsEmpty | src/cpu/register.rs:16-85 | building from no flags gives the empty set 0 |
| LegacyRegister.Default | src/cpu/register.rs:100-113 | the default flags are U and I, the byte 0x24 |
| LegacyRegister.StatusFlags.constructor | src/cpu/register.rs:45-85 | the new status register holds the byte built from the arguments |
| LegacyRegister.StatusFlags.And | src/cpu/register.rs:87-89 | only the flags also in the operand remain |
| LegacyRegister.StatusFlags.Or | src/cpu/register.rs:91-93 | the operand's flags are added |
| LegacyRegister.StatusFlags.SetWithMask | src/cpu/register.rs:95-97 | the register becomes the old value with the mask's flags cleared and the operand's flags added |
| LegacyRegister.MaskedSetBits | src/cpu/register.rs:95-97 | bit by bit, an operand bit is set, otherwise a mask bit is cleared and any other bit is kept; an operand inside the mask sets the masked bits to exactly the operand's, and outside the mask the old bits and the operand's are combined |
| LegacyRegister.NewRegisters | src/cpu/register.rs:131-141 | new registers are all zero, the stack pointer and program counter included, with the default flags U and I |
| LegacyInstruction.ExtraBytes | src/cpu/instruction.rs:202-218 | implicit and accumulator modes take no operand byte, the absolute and indirect modes two, every other mode one |
| LegacyInstruction.ExtraBytesAgreesWithLen | src/cpu/instruction.rs:202-218 | the opcode byte plus the operand bytes of a mode is the instruction length the current CPU's table gives that mode |
| LegacyInstruction.SpotDecodings | src/cpu/instruction.rs:226-405 | 0xA9 decodes to LDA immediate and 0x6C to the indirect JMP |
| LegacyInstruction.UnofficialNops | src/cpu/instruction.rs:456-461 | the 27 unofficial NOP bytes decode to NOP in the implicit, absolute, absolute-X, zero-page, zero-page-X and immediate modes as listed |
| LegacyInstruction.AncAndUnlisted | src/cpu/instruction.rs:537-570 | 0x0B and 0x2B share the ANC immediate arm; the KIL bytes 0x02 and 0x12 reach the panicking default arm |
| LegacyInstruction.DecodedByte | src/cpu/instruction.rs:222-572 | a byte fails to decode exactly when it is one of the twelve KIL bytes (low nibble 2, high nibble not 8, A, C or E) |
| LegacyInstruction.OnlyKilUnlisted | src/cpu/instruction.rs:222-572 | over all 256 bytes, only the twelve KIL bytes are missing from the match |
| LegacyCpu.WordAt | src/cpu/cpu.rs:53-55 | a little-endian word is read exactly when both of its bytes can be read from the legacy bus |
| LegacyCpu.AgreesWithCurrentCpu | src/cpu/cpu.rs:75-127 | for every mode the legacy `get_operand_address` supports, wherever it answers, it answers the address the current CPU computes over the same memory |
| LegacyCpu.AbsoluteAgrees | src/cpu/cpu.rs:80-102 | the absolute modes read the word at the program counter and add the index with 16-bit wrap, as the current CPU does |
| LegacyCpu.ZeroPageAgrees | src/cpu/cpu.rs:78-91 | the zero-page modes add the index to the operand byte with 8-bit wrap, as the current CPU does |
| LegacyCpu.IndirectXAgrees | src/cpu/cpu.rs:104-111 | Indirect_X reads the page-zero word at operand + X, both bytes wrapping in page zero, as the current CPU does |
| LegacyCpu.IndirectYAgrees | src/cpu/cpu.rs:112-120 | Indirect_Y reads the page-zero word at the operand and adds Y with 16-bit wrap, as the current CPU does |
| LegacyCpu.UnsupportedModes | src/cpu/cpu.rs:122-124 | implicit, accumulator, relative and indirect modes reach the panicking arm and have no operand address |
| LegacyCpu.ZeroPageModes | src/cpu/cpu.rs:78-120 | from a program counter in RAM the zero-page and indirect modes always answer, and zero-page indexing stays below 0x100 |
| LegacyCpu.StepAdvancesByLength | src/cpu/cpu.rs:129-145 | `step` moves the program counter by the instruction's length, the current CPU's length for the same mode |
| LegacyCpu.Cpu.constructor | src/cpu/cpu.rs:63-73 | `new` zeroes A, X, Y and the program counter, sets SP to 0xFD and status to 0x24, over a fresh bus with zeroed RAM |
| LegacyCpu.Cpu.Step | src/cpu/cpu.rs:129-145 | `step` sets the program counter past the opcode and its operand bytes and leaves every other register unchanged |
| Tiles.ShrBit | src/render/mod.rs:74-80 | after `n` single right shifts of a plane byte, its lowest bit is bit `n` of the byte |
| Tiles.PatternValue | src/render/mod.rs:78-87 | the 2-bit value `(1 & lower) << 1 \| (1 & upper)` is always below 4, so the panicking arm of the colour match is never reached |
| Tiles.PatternBits | src/render/mod.rs:73-80 | column `x` of a tile row is bit `7 - x` of both planes: the plane at `y + 8` gives the value's high bit and the plane at `y` the low bit |
| Tiles.TileAt | src/render/mod.rs:69-70 | tile `index` of the pattern table at `bank` is the 16 bytes from `bank + index * 16` through `bank + index * 16 + 15` |
| Tiles.StepInjective | src/render/mod.rs:73-77 | the drawing order (rows top to bottom, columns from 7 down to 0) visits different cells of a tile at different steps |
| Tiles.CellOfKey | src/render/mod.rs:88-195 | the frame pixel of a pattern cell, with or without flips, determines the cell back |
| Tiles.ApplyShowsLast | src/render/mod.rs:96-193 | after a run of `set_pixel` calls a pixel shows the last colour written to it, or what the frame had there when nothing was written |
| Tiles.StrokeShows | src/render/mod.rs:73-197 | a tile writes each frame pixel at most once, so it leaves at each pixel exactly the colour of the cell drawn there, or nothing where the pixel is transparent, clipped or outside its square |
| Tiles.StrokesShow | src/render/mod.rs:65-198 | tiles drawn one after another: at each pixel the last tile that draws there wins |
| Tiles.TopOfOne | src/render/mod.rs:65-104 | where the tiles' squares do not overlap, the one tile whose square holds a pixel alone decides its colour |
| Tiles.ApplyStrokes | src/render/mod.rs:65-198 | drawing tiles over a frame: a pixel some tile draws shows the last such tile's colour, every other pixel keeps what the frame had |
| Render.AttributeField | src/render/mod.rs:12-18 | the palette number picked for a tile's quadrant is below 4, so the panicking arm of the quadrant match is never reached |
| Render.AttributeFieldBits | src/render/mod.rs:12-18 | quadrant (`qx`, `qy`) takes bits `2qx + 4qy` and `2qx + 4qy + 1` of the attribute byte |
| Render.BgPalette | src/render/mod.rs:8-27 | `bg_pallette` returns four entries whose first is the universal background colour `palette_table[0]` |
| Render.BgPaletteEntries | src/render/mod.rs:8-27 | value 0 of a background tile is palette entry 0 and value `v` > 0 is entry `palette << 2 \| v` of the quadrant's palette |
| Render.BgPaletteBlocks | src/render/mod.rs:9-18 | the four tiles of a 2x2-tile block share one background palette |
| Render.SpritePalette | src/render/mod.rs:29-37 | `sprite_palette` returns four entries, the first 0 (transparent) |
| Render.SpritePaletteEntries | src/render/mod.rs:29-37 | value `v` > 0 of a sprite is palette entry `0x10 \| palette << 2 \| v` |
| Render.NameTableChunk | src/render/mod.rs:65-71 | tile `i` of a nametable is tile column `i % 32` and row `i / 32`, its pattern inside the pattern memory and its palette of four colours |
| Render.BackgroundWrite | src/render/mod.rs:78-101 | pixel (`x`, `y`) of a background tile is written only inside the view, at the table pixel moved by the shift, in the colour chosen for its value |
| Render.NameTableInside | src/render/mod.rs:65-104 | a frame pixel over a table pixel shows that pixel's background colour when it is inside the view, and nothing of the table otherwise |
| Render.NameTableShows | src/render/mod.rs:52-105 | after `render_name_table` each frame pixel holds the colour of the one table pixel the shift moves there, when it lies in the view, and no other write of the table reaches it |
| Render.RenderNameTable | src/render/mod.rs:52-105 | the loop over the 960 tiles leaves the frame those tiles paint in order |
| Render.RenderNameTableTile | src/render/mod.rs:66-71 | one pass of the tile loop looks up the tile in the pattern bank and its palette and paints that one tile more |
| Render.DrawBackgroundTile | src/render/mod.rs:73-103 | the eight rows of a background tile, top to bottom, paint the tile's 64 steps |
| Render.DrawBackgroundRow | src/render/mod.rs:73-102 | one row, from column 7 down to 0, paints the row's eight steps: value 0 in the universal background colour, others in the palette, only inside the view |
| Render.PlaneBits | src/render/mod.rs:78-174 | the value read from the low bits of the shifted planes is the pixel's pattern value, and both planes shift right once more |
| Render.SpriteChunk | src/render/mod.rs:155-166 | sprite `j` reads its y from OAM byte 0, tile from byte 1, flips from bits 7 and 6 of byte 2, palette from bits 0-1, x from byte 3 |
| Render.SpriteChunks | src/render/mod.rs:154 | the 64 sprites are drawn from OAM entry 63 down to entry 0 |
| Render.SpriteEntry | src/render/mod.rs:154-166 | the `n`-th sprite drawn is the OAM entry at `252 - 4n`, its tile inside the pattern memory |
| Render.SpritePixel | src/render/mod.rs:168-197 | a pixel of a sprite's 8x8 square shows the pattern cell the flips map there, transparent for value 0; the sprite covers nothing outside its square |
| Render.SpriteWrite | src/render/mod.rs:171-195 | pixel (`x`, `y`) of a sprite is skipped for value 0 and otherwise written at the position the four flip cases choose |
| Render.SpriteStep | src/render/mod.rs:171-195 | one pass of the column loop leaves the frame unchanged for value 0 and writes the palette colour at the flipped position otherwise |
| Render.SpritesShowPrefix | src/render/mod.rs:154-198 | after sprites 63 down to `64 - n`, a pixel shows the lowest-numbered of them that is opaque there |
| Render.SpritesShow | src/render/mod.rs:154-198 | among overlapping opaque sprites the one with the lowest OAM index shows, and transparent pixels let the others through |
| Render.RenderSprites | src/render/mod.rs:154-198 | the sprite loop leaves the frame the 64 sprites paint, entry 63 first |
| Render.RenderSpriteTile | src/render/mod.rs:155-166 | one pass of the sprite loop decodes the OAM entry and paints that sprite more |
| Render.DrawSpriteTile | src/render/mod.rs:168-197 | the eight rows of a sprite tile, top to bottom, paint the tile's 64 steps |
| Render.DrawSpriteRow | src/render/mod.rs:169-196 | one sprite row, from column 7 down to 0, paints the row's eight steps |
| Render.DrawSpritePixel | src/render/mod.rs:175-195 | one sprite pixel: value 0 is skipped, otherwise the colour lands on the frame pixel its flip case chooses |
| Render.HalvesFollowMirroring | src/render/mod.rs:111-124 | the main nametable is the half of VRAM the PPU's mirroring maps the base nametable to and the second is the other half; only four-screen mirroring panics |
| Render.MainTable | src/render/mod.rs:111-124 | the main nametable is a 1 KiB half of VRAM whose tiles lie in the background pattern table |
| Render.SecondTable | src/render/mod.rs:111-124 | the second nametable is a 1 KiB half of VRAM whose tiles lie in the background pattern table |
| Render.MainLayer | src/render/mod.rs:126-133 | the main nametable is drawn from the scroll point on, moved to the frame's top-left corner |
| Render.SecondLayer | src/render/mod.rs:134-152 | the second nametable is drawn beside the main one when scrolled sideways, below it when scrolled down, and not at all otherwise; its offsets are never negative, since a downward scroll past 240 rows, whose unsigned `240 - scroll_y` underflows and panics, is excluded by `ValidScreen` |
| Render.Render | src/render/mod.rs:107-199 | `render` leaves the frame the main nametable, then the second, then the sprites paint |
| Render.RenderLayer | src/render/mod.rs:126-152 | one `render_name_table` call of `render` paints that layer's tiles |
| Render.LayerTop | src/render/mod.rs:126-152 | a layer's tiles leave at each frame pixel the layer's shifted table pixel |
| Render.BackgroundShows | src/render/mod.rs:126-152 | after both nametables a pixel shows the second table's colour where it draws, the main table's elsewhere, or what the frame had |
| Render.RenderShows | src/render/mod.rs:107-199 | after `render` a pixel shows the first opaque sprite, else the background, else what the frame held |
| Render.LayerSource | src/render/mod.rs:126-152 | the table pixel a layer shows at a frame pixel is the one the layer's shift moves there, and it lies inside the 256x240 table |
| Render.BackgroundSource | src/render/mod.rs:126-152 | the background at a frame pixel comes from the second table where its layer draws and from the main table otherwise, always from a pixel inside the 256x240 table |
| Render.LayerFromSource | src/render/mod.rs:126-152 | a layer's pixel is the background colour of the table pixel it shows, and empty where it shows none |
| Render.BackgroundFromSource | src/render/mod.rs:126-152 | the background at a frame pixel is the colour of the table pixel it comes from, and empty where no layer draws |
| Render.HorizontalScroll | src/render/mod.rs:126-142 | scrolled sideways only, every frame pixel has a background source: main-table pixel (x + `scroll_x`, y) while that is inside the table, then second-table pixel (x + `scroll_x` - 256, y) |
| Render.VerticalScroll | src/render/mod.rs:126-152 | scrolled down only, every frame pixel has a background source: main-table pixel (x, y + `scroll_y`) while that is inside the table, then second-table pixel (x, y + `scroll_y` - 240) |
| Render.DiagonalGap | src/render/mod.rs:134-152 | scrolled both ways, only the second table's columns are drawn, so the bottom-left block of `256 - scroll_x` by `scroll_y` pixels has no background source and no background colour |
| TileViewer.SwapPlanes | src/tile_viewer.rs:25-29 | the plane-swapped tile has the second plane's row `y` where the first had it, and the first plane's where the second had it |
| TileViewer.SwapPlanesTwice | src/tile_viewer.rs:25-29 | swapping the two planes twice gives the tile back |
| TileViewer.ViewerValue | src/tile_viewer.rs:29-38 | the viewer's 2-bit value is below 4, so the panicking arm of its colour match is never reached |
| TileViewer.ViewerSwapsPlanes | src/tile_viewer.rs:25-31 | the viewer's value of a pixel is the renderer's value for the plane-swapped tile |
| TileViewer.ViewerValueBits | src/tile_viewer.rs:25-31 | column `x` is bit `7 - x` of both planes, the first plane (`tile[y]`) giving the high bit |
| TileViewer.ViewerAgainstRenderer | src/tile_viewer.rs:29 | the viewer and the frame renderer give a pixel the same value exactly when its two plane bits agree; otherwise one reads 1 where the other reads 2 |
| TileViewer.ViewerFirstPlaneExample | src/tile_viewer.rs:29 | a tile whose only set bit is the top bit of the first plane shows value 2 at its top-left pixel in the viewer and 1 in the renderer |
| TileViewer.ViewerTile | src/tile_viewer.rs:24-41 | a viewer tile is a well-formed tile of 16 pattern bytes and four colours, with value 0 painted too |
| TileViewer.ViewerTileShows | src/tile_viewer.rs:24-41 | a viewer tile paints every pixel of its 8x8 square in the colour of the viewer's value there (0x01, 0x23, 0x27 or 0x30) and nothing outside it |
| TileViewer.TileFrameShows | src/tile_viewer.rs:16-44 | the frame `show_tile` returns holds exactly the 8x8 square at the corner, each pixel in the viewer's colour for that pixel of tile `tile_n` of the bank |
| TileViewer.ShowTile | src/tile_viewer.rs:16-44 | `show_tile`, for bank 0 or 1 and a tile inside the CHR-ROM, returns the tile drawn at the corner of a fresh frame |
| TileViewer.DrawViewerTile | src/tile_viewer.rs:24-78 | the eight rows of a tile, top to bottom, paint the tile's 64 steps |
| TileViewer.DrawViewerRow | src/tile_viewer.rs:28-77 | one row, from column 7 down to 0, paints the row's eight steps, each pixel in the colour of its value |
| TileViewer.ViewerBits | src/tile_viewer.rs:29-68 | the value read from the low bits of the shifted planes is the viewer's value of the pixel, and both planes shift right once more |
| TileViewer.BankChunks | src/tile_viewer.rs:54-81 | `show_tile_bank` draws 255 well-formed tiles |
| TileViewer.GridNext | src/tile_viewer.rs:54-80 | each tile goes 10 pixels right of the one before, except that every 20th tile starts the next grid row 10 pixels lower at column 0 |
| TileViewer.GridCellOrigin | src/tile_viewer.rs:54-80 | a pixel on tile `k` of the grid lies at column `dx` and row `dy`, both below 8, of that tile's square |
| TileViewer.BankHit | src/tile_viewer.rs:46-83 | a pixel on tile `k` of the grid shows the viewer's colour for its pixel of tile `k` of the bank |
| TileViewer.BankFrameShows | src/tile_viewer.rs:46-83 | `show_tile_bank` paints the grid's 255 squares, each pixel in the viewer's colour for its tile, and leaves the two-pixel gaps and everything past the grid unpainted |
| TileViewer.ShowTileBank | src/tile_viewer.rs:46-83 | `show_tile_bank`, for bank 0 or 1 with all 255 tiles inside the CHR-ROM, returns the grid of tiles 0 to 254 |

## Left out

- Panic messages and logging (`debug!`, `info!`, `trace!` and the log-level flags) are not modelled. Only the fact that a call panics is modelled, as a precondition or as a `None` outcome.
- The KIL arm of `execute_instruction` (nes/src/cpu/mod.rs:576-585) is modelled by its `cfg(test)` branch, which stops the CPU. The non-test build panics there instead.
- CpuMachine.Cpu.ExecuteInstruction: assigns, in one step, the state that `CpuExecute.Execute` computes for the instruction. It does not perform each arm's reads and writes on the bus one at a time. The arms themselves are modelled and proved as functions in `CpuExecute` and `CpuProperties`.
- CpuMachine.Cpu.RunWithCallback: the callback the source calls before each instruction is foreign code and is not modelled. The interrupt the bus reports on each iteration is given as the finite sequence `polls`, so the loop also stops when the polls run out.
- The CPU model reads and writes a flat 64 KiB image (`CpuBus`). It does not go through the console bus, so:
  - the side effects of reading or writing a device port through an instruction or a stack access are not modelled;
  - the CPU's memory is not wired to `NesBus` or `Mapper000`. Those are modelled separately over the same address map.
- NesBus.Bus.Tick: `ppu.tick(cycles * 3)` in nes/src/bus/mod.rs does not match the PPU's own `tick` signature. It is modelled as three PPU steps per CPU cycle. The render callback is foreign code; only the number of its calls is kept.
- The PPU status register file (nes/src/ppu/registers/status.rs) is not part of this model. The status register is a byte with bit 7 vblank, bit 6 sprite-zero hit and bit 5 sprite overflow.
- `tools::nth_bit` and `tools::BitPlane` have no member of their own: they appear inline, as a bit of a byte and as a pair of plane bytes.
- The `read` and `write` methods of `AddressingMode` in nes/src/cpu/addr.rs are `todo!()` and always panic, so they have no model.
- The mnemonics of the older opcode table (nes/src/cpu/instruction.rs) are stored as written. They are not cross-checked against the instruction names (for example `NOP_ALT` spelled "NOP").
- The frame the window renderers draw on (src/render/frame.rs) is not part of this model. It is a canvas from pixel to the system-palette index drawn there, and the lookup of that index in `SYSTEM_PALLETE` (src/render/palette.rs) is left out.
- `Frame::update` hashes the pixel buffer with `FxBuildHasher`. The hash is computed by the caller and passed in.
- The `main` of src/tile_viewer.rs is left out: it opens an SDL window, reads `pacman.nes` and runs an event loop.
- `text_with_colors` calls ImGui. Its calls are modelled as the list of text, same-line and new-line segments it emits. A colour is kept as its three bytes rather than as the `f32` quadruple ImGui receives.
- `format_duration` takes a `std::time::Duration`. It is modelled on the total number of milliseconds. The clock readings and the timing loop of `test_region_timings` are left out.
- Mapper000.Mapper.ConnectInputDevice: the `assert!` on the slot number is a precondition, since a slot outside 1..=2 panics.
- The controllers are modelled as the standard controller of nes/src/input_device/joypad.rs. Other input devices behind the mapper's device slots are not modelled.

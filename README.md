# AICA interface and libretro input helpers — a Dafny model

This project models the AICA interface block of a Dreamcast emulator
(`core/hw/aica/aica_if.cpp`) and a few helpers of its libretro frontend
(`core/libretro/libretro.cpp`). It proves properties of that model.

**AICA interface** (`aica_if.dfy`, module `AicaIf`):

- the real-time clock (RTC): seeding it from host time, the once-per-second
  tick, and the RTC register block. The block holds the two 16-bit halves and
  a one-shot write-enable latch;
- the VREG/ARMRST byte pair at 0x2C00/0x2C01 behind a 15-bit address decoder.
  Writes to ARMRST enable or hold the ARM7 sound CPU. Every other register
  access is forwarded to the AICA register file;
- the four G2-bus DMA channels:
  - the AICA channel, SB_AD*, whose completion may be deferred to the scheduler;
  - external 1 (SB_E1*), external 2 (SB_E2*) and device (SB_DD*), which complete
    within the start write;
- the init and reset hooks.

All globals live in one class, `AicaIf.AicaState`. The pure register semantics
are functions with meaning contracts, and the methods are proved against them.
Calls into collaborators are recorded in a ghost log of `Effect`s. These
collaborators are the block move, the interrupt controller, the scheduler, ARM
enable, the AICA register file and the register routing table.

**Keyboard** (`keyboard.dfy`, module `LibretroKeyboard`): the six-slot
pressed-key buffer `kb_key`/`kb_used` and the modifier byte `kb_shift`.
`release_key` and `retro_keyboard_event` operate on them. The buffer is a
`Keyboard` class over an `array`. It is specified by the sequence of its
occupied slots and the sequence functions `Without` and `Press`.

**Controller buttons** (`input.dfy`, module `LibretroInput`): the active-low
button words `kcode[4]` and `setDeviceButtonState`.

**Paths** (`paths.dfy`, module `LibretroPaths`): `extract_directory` and
`extract_basename` on C strings of bounded buffer size.

**Bit helpers** (`bits.dfy`, module `Bits`): the C bit operations on naturals.
`Or` is `|` and `AndNot` is `& ~`. `Bit(x, i)` is bit `i` of `x`, and
`BitsDetermine` states that equal bits mean equal values.

Registers are unbounded integers restricted to their C width (`u32`, `u16`,
`byte`). Masks and shifts are written as the arithmetic they amount to, and
the 32-bit wrap-around of `+=`, of `<<` and of the cycle product is explicit.

## Model

| member | source | states |
|---|---|---|
| AicaIf.Add | core/hw/aica/aica_if.cpp:296-297 | `+=` on a u32 register is the sum, or the sum minus 2^32 when it overflows |
| AicaIf.RtcNow | core/hw/aica/aica_if.cpp:23-36 | the RTC seed is epoch offset + host time + timezone offset, which is the exact sum when it fits and always congruent to it modulo 2^32 |
| AicaIf.RtcNowAtUnixEpoch | core/hw/aica/aica_if.cpp:34-35 | at the Unix epoch in UTC the counter reads 631152000 (1950 to 1970) |
| AicaIf.RtcNowTick | core/hw/aica/aica_if.cpp:35 | one more second of host time is one more tick of the counter, wrapping at 2^32; one more second of timezone offset is the same as one more second of host time |
| AicaIf.RtcRead | core/hw/aica/aica_if.cpp:38-52 | offset 0 reads the high 16 bits of the counter, offset 4 the low 16 bits, and any other offset reads 0 |
| AicaIf.RtcHalvesRecombine | core/hw/aica/aica_if.cpp:42-45 | the high half shifted up, or'ed with the low half, is the whole counter |
| AicaIf.RtcWrite | core/hw/aica/aica_if.cpp:54-78 | a write to offset 0 while the latch is set replaces the high half and clears the latch; a write to offset 4 while the latch is set replaces the low half and keeps the latch; a write to offset 8 loads the latch from bit 0; every other write changes nothing |
| AicaIf.RtcArmedWriteSequence | core/hw/aica/aica_if.cpp:58-76 | arm, write the low half, then write the high half: the counter becomes the two halves written, the latch is clear, and a further high write is ignored |
| AicaIf.RtcHighWriteReadBack | core/hw/aica/aica_if.cpp:38-65 | an applied high-half write reads back at offset 0 and leaves offset 4 unchanged |
| AicaIf.AicaState.WriteMemRtc | core/hw/aica/aica_if.cpp:54-78 | the counter and latch after the write are `RtcWrite` of the old ones |
| AicaIf.Decode | core/hw/aica/aica_if.cpp:80-109 | only the low 15 address bits count: byte access at 0x2C01 is VREG and at 0x2C00 is ARMRST (both directions); any wider access at 0x2C00 is the pair; every other access is external, at the masked address |
| AicaIf.DecodeMirrors | core/hw/aica/aica_if.cpp:82 | address bits 15 and up never change what an access reaches |
| AicaIf.PairValue | core/hw/aica/aica_if.cpp:102 | VREG shifted left by 8 and or'ed with ARMRST has VREG in the second byte and ARMRST in the first when both are bytes |
| AicaIf.RegRead | core/hw/aica/aica_if.cpp:80-109 | a read is forwarded exactly when it decodes as external, at the masked address and width; VREG and ARMRST read as stored; the 2-byte pair read combines them |
| AicaIf.LatchWrite | core/hw/aica/aica_if.cpp:116-152 | a byte write to VREG stores the data verbatim; writes reaching ARMRST leave only bit 0 of the data; the pair write takes VREG from bits 8-15; external writes leave both registers unchanged |
| AicaIf.PairWriteReadBack | core/hw/aica/aica_if.cpp:100-102 | a pair write reads back as its VREG byte shifted up, plus ARMRST bit 0 |
| AicaIf.VregWriteReadBack | core/hw/aica/aica_if.cpp:85-91 | a VREG byte write reads back verbatim and leaves ARMRST unchanged |
| AicaIf.AicaState.ArmSetRst | core/hw/aica/aica_if.cpp:111-115 | ARMRST keeps only bit 0, and the ARM7 is enabled exactly when that bit is 0 |
| AicaIf.AicaState.WriteMemReg | core/hw/aica/aica_if.cpp:116-152 | VREG and ARMRST become `LatchWrite` of the decoded target; an ARMRST or pair write also enables the ARM7 according to bit 0; an external write is forwarded unchanged to the AICA register file at the masked address |
| AicaIf.AicaState.DreamcastSecond | core/hw/aica/aica_if.cpp:154-163 | one tick of the counter (wrapping), one periodic block-manager call, and the next call one main-clock second later |
| AicaIf.AicaState.Init | core/hw/aica/aica_if.cpp:166-174 | the counter is seeded from host time; the one-second timer is registered and armed only when no timer exists yet |
| AicaIf.AicaState.Reset | core/hw/aica/aica_if.cpp:176-182 | VREG and ARMRST become 0; a non-manual reset also runs Init, and a manual one leaves the RTC and the timer unchanged |
| AicaIf.AicaState.SbInit | core/hw/aica/aica_if.cpp:369-383 | the four start-register write handlers are routed in order, then the DMA-end callback is registered and its handle kept |
| AicaIf.AicaState.SbReset | core/hw/aica/aica_if.cpp:385-387 | the G2 reset changes no DMA register |
| AicaIf.Triggered | core/hw/aica/aica_if.cpp:220-222 | a start write takes effect exactly when bit 0 of the data and bit 0 of EN are both set (the same test at lines 264-266, 308 and 337) |
| AicaIf.AutoEnable | core/hw/aica/aica_if.cpp:192 | the auto-enable test on LEN holds exactly when bit 31 of LEN is set (the same test at lines 291, 323 and 355) |
| AicaIf.ByteCount | core/hw/aica/aica_if.cpp:226 | the byte count is LEN without bit 31, and bit 31 plus the count is LEN |
| AicaIf.MoveOf | core/hw/aica/aica_if.cpp:224-236 | a triggered channel moves ByteCount bytes from STAR to STAG, or from STAG to STAR when swapped |
| AicaIf.ExtComplete | core/hw/aica/aica_if.cpp:291-299 | on completion both addresses advance by the byte count (wrapping), ST and LEN become 0, and EN becomes 1 exactly when bit 31 of LEN was set |
| AicaIf.ClearSuspBit | core/hw/aica/aica_if.cpp:240 | `SB_ADSUSP &= ~0x10` clears bit 4 and keeps every other bit |
| AicaIf.SetSuspBit | core/hw/aica/aica_if.cpp:203 | setting 0x10 in SB_ADSUSP sets bit 4 and keeps every other bit |
| AicaIf.AdStart | core/hw/aica/aica_if.cpp:238-240 | starting the AICA channel sets ST to 1 and clears suspend bit 4, nothing else |
| AicaIf.AdComplete | core/hw/aica/aica_if.cpp:189-208 | AICA completion advances both addresses, clears ST and LEN, sets suspend bit 4, and makes EN 0 exactly when bit 31 of LEN was set |
| AicaIf.EnableAfterCompletionIsOpposite | core/hw/aica/aica_if.cpp:192-195 | the same LEN gives the AICA channel the opposite EN from the external channels (lines 291-294), and every other register is the same |
| AicaIf.InlineCompletionHidesBusy | core/hw/aica/aica_if.cpp:239-245 | an inline completion ends as if the busy marking never happened |
| AicaIf.DirectionTestsDiffer | core/hw/aica/aica_if.cpp:228 | the AICA channel swaps on bit 0 of DIR but the others only on DIR == 1 (line 272), so DIR == 3 moves in opposite directions |
| AicaIf.CompletionChainsTransfers | core/hw/aica/aica_if.cpp:296-297 | after completion the next transfer starts where the last one ended |
| AicaIf.DmaCycles | core/hw/aica/aica_if.cpp:243 | the cycle count is a signed 32-bit value; it equals len × cycles-per-byte when that fits and is congruent to it modulo 2^32 |
| AicaIf.DmaCyclesAt200MHz | core/hw/aica/aica_if.cpp:243-247 | at 200 MHz a 0x2000-byte transfer takes 32768 cycles and is deferred; 1023 bytes take 4092 cycles and complete inline |
| AicaIf.DmaCyclesAt200MHzBands | core/hw/aica/aica_if.cpp:243-247 | at 200 MHz (4 cycles per byte) the count is 4 × len below 2^29; it is negative for lengths in [2^29, 2^30) and in [3 × 2^29, 2^31), so those complete inline; lengths in [2^30, 3 × 2^29) wrap back to 4 × len − 2^32 ≥ 0 and are deferred once that reaches 4096 |
| AicaIf.DmaCyclesWrapExamples | core/hw/aica/aica_if.cpp:243-247 | 2^29 bytes give −2^31 cycles (inline), and 2^30 + 1024 bytes give 4096 cycles (deferred) |
| AicaIf.AicaState.DmaEndSched | core/hw/aica/aica_if.cpp:189-208 | the AICA channel and SB_ADSUSP become `AdComplete` of the old ones, SPU_DMA is raised, and the callback returns 0 |
| AicaIf.AicaState.WriteAdst | core/hw/aica/aica_if.cpp:210-251 | without bit 0 of the data and of EN nothing happens; otherwise the block is moved (swapped on bit 0 of DIR) and the channel is marked busy; under 4096 cycles it is then completed inline, else the DMA-end call is requested that many cycles later |
| AicaIf.AicaState.ExtTransfer | core/hw/aica/aica_if.cpp:264-302 | one move (swapped when DIR == 1), then `ExtComplete`, then the channel's interrupt |
| AicaIf.AicaState.WriteE1st | core/hw/aica/aica_if.cpp:253-304 | an untriggered write changes nothing; a triggered one moves the block, completes the channel and raises EXT_DMA1 |
| AicaIf.AicaState.WriteE2st | core/hw/aica/aica_if.cpp:306-333 | the same for external channel 2 with EXT_DMA2 |
| AicaIf.AicaState.WriteDdst | core/hw/aica/aica_if.cpp:335-367 | the same for the device channel with DEV_DMA |
| AicaIf.AicaState.constructor | core/hw/aica/aica_if.cpp:16-21 | static storage starts zeroed, with the timer handle -1 |
| LibretroKeyboard.Without | core/libretro/libretro.cpp:2137-2155 | releasing a held key removes it and shortens the keys by one; releasing an absent key changes nothing; on valid keys the result is valid, lacks the key and keeps every other key |
| LibretroKeyboard.Press | core/libretro/libretro.cpp:2186-2201 | a nonzero code that is absent is appended when fewer than six keys are held; otherwise the keys are unchanged; validity is kept |
| LibretroKeyboard.WithoutAt | core/libretro/libretro.cpp:2146-2151 | removing the key found at slot p is cutting slot p out |
| LibretroKeyboard.ReleaseTwice | core/libretro/libretro.cpp:2137-2155 | releasing a key twice is releasing it once |
| LibretroKeyboard.PressThenRelease | core/libretro/libretro.cpp:2186-2206 | pressing a new key when there is room, then releasing it, restores the keys |
| LibretroKeyboard.PressTwice | core/libretro/libretro.cpp:2188-2200 | pressing a key twice is pressing it once |
| LibretroKeyboard.ModifierBitPositions | core/libretro/libretro.cpp:2160-2169 | the Shift bits of `kb_shift` are bits 1 and 5, the Ctrl bits bits 0 and 4 |
| LibretroKeyboard.SetBits | core/libretro/libretro.cpp:2161-2164 | the given bits are set on a press and cleared on a release, and every other bit is kept |
| LibretroKeyboard.ShiftAfter | core/libretro/libretro.cpp:2160-2169 | either Shift key sets or clears both Shift bits, either Ctrl key both Ctrl bits, and no other bit changes |
| LibretroKeyboard.ShiftPressRelease | core/libretro/libretro.cpp:2160-2164 | left Shift down and then right Shift up restores a `kb_shift` that had no Shift bit |
| LibretroKeyboard.ModifierRelease | core/libretro/libretro.cpp:2171-2181 | with the Shift flag absent the left-Shift code is no longer held, with the Ctrl flag absent neither Ctrl code is; a held key is kept exactly when it is none of the codes released; no key is added; valid keys stay valid |
| LibretroKeyboard.EventKeys | core/libretro/libretro.cpp:2157-2208 | every event keeps the keys valid (at most six, nonzero, distinct); a key without a code does only the clean-up; a released code is no longer held; a pressed code is held whenever fewer than six keys were held; no key but the event's code appears |
| LibretroKeyboard.RightShiftNeverReleased | core/libretro/libretro.cpp:2172-2176 | with the Shift flag absent, the left-Shift code is released, but a held right-Shift code that differs from the left-Shift and both Ctrl codes stays held, whatever the Ctrl flag |
| LibretroKeyboard.ModifiersHeldKeepKeys | core/libretro/libretro.cpp:2172-2181 | with both modifier flags present, the modifier clean-up changes nothing |
| LibretroKeyboard.ShiftOutRemoves | core/libretro/libretro.cpp:2148-2151 | moving the later slots down over a held key keeps the slots well formed and removes exactly that key |
| LibretroKeyboard.Keyboard.constructor | core/libretro/libretro.cpp:2133-2135 | static storage: no key held, `kb_shift` 0 |
| LibretroKeyboard.Keyboard.ReleaseKey | core/libretro/libretro.cpp:2137-2155 | the held keys become `Without(old keys, code)` and the buffer stays valid |
| LibretroKeyboard.Keyboard.RemoveSlot | core/libretro/libretro.cpp:2148-2151 | the slots after i move down by one, the last slot becomes 0, and the count drops by one |
| LibretroKeyboard.Keyboard.UpdateModifierBits | core/libretro/libretro.cpp:2160-2169 | `kb_shift` becomes `ShiftAfter` of the old one |
| LibretroKeyboard.Keyboard.PressKey | core/libretro/libretro.cpp:2186-2201 | the held keys become `Press(old keys, code)` and the buffer stays valid |
| LibretroKeyboard.Keyboard.KeyboardEvent | core/libretro/libretro.cpp:2157-2208 | `kb_shift` becomes `ShiftAfter` of the old one, the held keys become `EventKeys` of the old ones, and the buffer stays valid |
| LibretroInput.ButtonWord | core/libretro/libretro.cpp:1848-1851 | the button's bits are cleared when it is down and set when it is up; every other bit is kept |
| LibretroInput.PressThenReleaseRestores | core/libretro/libretro.cpp:1848-1851 | press then release restores a word in which the button was released |
| LibretroInput.LastReportWins | core/libretro/libretro.cpp:1848-1851 | the last report of a button decides the word, whatever came before |
| LibretroInput.DisjointButtonsCommute | core/libretro/libretro.cpp:1848-1851 | buttons sharing no bit can be reported in either order |
| LibretroInput.Pads.constructor | core/libretro/libretro.cpp:54 | four ports, every button released (0xFFFF) |
| LibretroInput.Pads.SetDeviceButtonState | core/libretro/libretro.cpp:1844-1852 | the port's word becomes `ButtonWord` of the old word with the mapped button bits and the reported state; other ports are unchanged |
| LibretroPaths.LastIndexOf | core/libretro/libretro.cpp:1147 | `strrchr`: None exactly when the character is absent, otherwise the index of its last occurrence |
| LibretroPaths.Truncate | core/libretro/libretro.cpp:1144-1145 | `strncpy` into a NUL-terminated buffer keeps at most n characters of the prefix, and the whole string when it fits |
| LibretroPaths.ExtractDirectory | core/libretro/libretro.cpp:1142-1155 | the result fits the buffer and is a prefix of the path; it ends before the last '/' of the truncated path, or else before its last '\\', or else is empty |
| LibretroPaths.ExtractBasename | core/libretro/libretro.cpp:1245-1256 | the result fits the buffer and contains no separator; it is the truncated text after the path's last separator, or the whole truncated path when there is none |
| LibretroPaths.DirectoryThenBasename | core/libretro/libretro.cpp:1142-1256 | for a fitting path with a '/', directory + '/' + basename is the path |
| LibretroPaths.ForwardSlashWins | core/libretro/libretro.cpp:1147-1149 | for any path that fits the buffer and holds a '/', appending text without '/' (with or without '\\') never changes the directory |
| LibretroPaths.DirectoryOfTruncatedPath | core/libretro/libretro.cpp:1144-1154 | for every path and buffer size, the directory of the path is the directory of its truncation to the buffer, and it is empty when the truncation holds no separator, whatever lies beyond |
| LibretroPaths.DirectoryExamples | core/libretro/libretro.cpp:1142-1155 | examples: "ab/cd" gives "ab" in a 1024-byte buffer and "" in a 3-byte one; "a\\b/c\\d" gives "a\\b" |

## Left out

- Host time: `time`, `localtime`, `gmtime` and `mktime` are not modelled. `RtcNow` takes the raw time and the local-minus-UTC offset as parameters.
- Logging (`INFO_LOG`, `WARN_LOG`, `DEBUG_LOG`) has no observable state and is left out.
- `aica_Term` and `aica_sb_Term` have empty bodies and have no model member.
- `aica_ram`, the sound RAM declared in this file, is not accessed by any of its functions and is not modelled.
- The collaborators are modelled only as entries in the ghost `effects` log, which records the order of calls. This covers the block move, `asic_RaiseInterrupt`, `sh4_sched_register`/`sh4_sched_request`, `arm_SetEnabled`, `libAICA_WriteReg`, `sb_rio_register` and `bm_Periodical_1s`. What these calls do inside is not part of this model.
- `bm_Periodical_1s` is taken as compiled in, as it is whenever a dynarec is built.
- The scheduler handles that `sh4_sched_register` returns are parameters (`newId`).
- `SH4_MAIN_CLOCK` is the constant field `mainClock` of the class rather than a fixed number.
- AicaIf.RegRead: the value of a forwarded read, the value `libAICA_ReadReg` returns, is not modelled. The result is `Forwarded(addr, sz)`, which names that call.
- AicaIf.RegRead: the pair value is stated only when VREG and ARMRST hold bytes. A byte write can store a wider value in VREG, and `PairValue` then computes the 32-bit combination without stating its bytes.
- The `sz` argument of the RTC handlers, the `addr` argument of the start-register handlers, and the `tag`/`cycl`/`jitt` scheduler arguments are ignored by the source and only passed through here.
- LibretroKeyboard.Keyboard.ReleaseKey: requires the buffer invariant `Valid()`, which the constructor establishes and every operation keeps. Nonzero, distinct codes before `kb_used` and zeros after it are what the source's scan relies on. The source runs on any buffer contents.
- LibretroKeyboard.Keyboard.KeyboardEvent: requires `Valid()` for the same reason. It also requires the key-map table `kbMap` to cover `keycode` and the modifier keys, because the source indexes `kb_map` with them. The `character` argument is unused by the source.
- The table `kb_map` comes from a header that is not part of this model, so it is the parameter `kbMap`. The joypad map `joymap` is also a parameter.
- `input_cb`, the host input callback, is replaced by its answer, the parameter `isDown`. The `deviceType` argument is only passed on to it.
- The rest of the libretro frontend is not modelled: option handling, video, audio, game loading, analog input and rumble.
- The path helpers model a C string as its characters before the NUL. A path with an embedded NUL cannot arise.
- `slash` is a parameter of `ExtractBasename` (it is '\\' on Windows and Xbox builds and '/' elsewhere), and it is never NUL.
- Concurrency between the emulator threads and the frontend is not modelled.

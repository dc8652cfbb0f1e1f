/**
 * The AICA interface block of the Dreamcast emulator: the real-time clock
 * register pair with its one-shot write-enable latch, the VREG/ARMRST byte
 * pair that controls the ARM7 sound co-processor, the register decoder that
 * forwards everything else to the AICA register file, and the four G2-bus
 * DMA channels (AICA, external 1, external 2, device).
 *
 * Registers are unsigned 32-bit values, `u32`. The C masks and shifts on
 * them are written as the arithmetic they amount to: `x & 0xFFFF` is
 * `x % 0x10000`, `x >> 16` is `x / 0x10000`, `x & 1` is `x % 2`, and `+=` is
 * `Add`, which wraps at 2^32. The collaborators this block calls (block
 * move, interrupt controller, scheduler, ARM enable, AICA register file) are
 * recorded as `Effect`s appended to the ghost log `effects`.
 */
module AicaIf {

  import opened Bits

  const U32_LIMIT: int := 0x1_0000_0000

  type u32 = x: int | 0 <= x < 0x1_0000_0000

  /** SH4_MAIN_CLOCK is a C `int` constant; its value is a parameter here. */
  type Clock = c: int | 0 <= c < 0x8000_0000

  /** Interrupt identities raised on DMA completion. */
  datatype Irq = SpuDma | ExtDma1 | ExtDma2 | DevDma

  /** Scheduler callbacks this block registers. */
  datatype Callback = DreamcastSecondCb | DmaEndSchedCb

  /** The start registers whose writes are routed to this block. */
  datatype StartReg = AdSt | E1St | E2St | DdSt

  /** One call into a collaborator, in the order it is made. */
  datatype Effect =
    | BlockMove(dst: u32, src: u32, len: u32)     // WriteMemBlock_nommu_dma
    | Interrupt(irq: Irq)                          // asic_RaiseInterrupt
    | SchedRegister(tag: int, cb: Callback)        // sh4_sched_register
    | SchedRequest(id: int, cycles: int)           // sh4_sched_request
    | ArmEnable(enabled: bool)                     // arm_SetEnabled
    | AicaRegWrite(addr: u32, data: u32, sz: u32)  // libAICA_WriteReg
    | RioRegister(reg: StartReg)                   // sb_rio_register (write handler)
    | Periodical1s                                 // bm_Periodical_1s

  // ---------------------------------------------------------------------------
  // 32-bit arithmetic

  /** `a + b` on u32: the sum reduced modulo 2^32. */
  function Add(a: u32, b: u32): (r: u32)
    ensures a + b < U32_LIMIT ==> r == a + b
    ensures a + b >= U32_LIMIT ==> r == a + b - U32_LIMIT
  {
    (a + b) % U32_LIMIT
  }

  // ---------------------------------------------------------------------------
  // Time source

  /** Seconds from 1/1/1950 to 1/1/1970: 20 years and 5 leap days. */
  const DC_EPOCH_OFFSET: int := (20 * 365 + 5) * 24 * 60 * 60

  /**
   * The RTC value for host time `rawtime` (seconds since the Unix epoch) and
   * the local-minus-UTC offset `timeOffset`: the 64-bit sum reduced modulo
   * 2^32, as the conversion to the 32-bit counter does.
   */
  function RtcNow(rawtime: int, timeOffset: int): (r: u32)
    ensures 0 <= DC_EPOCH_OFFSET + rawtime + timeOffset < U32_LIMIT ==>
      r == DC_EPOCH_OFFSET + rawtime + timeOffset
    ensures (r - (DC_EPOCH_OFFSET + rawtime + timeOffset)) % U32_LIMIT == 0
  {
    (DC_EPOCH_OFFSET + rawtime + timeOffset) % U32_LIMIT
  }

  /** At the Unix epoch in UTC the counter reads 631152000 seconds. */
  lemma RtcNowAtUnixEpoch()
    ensures RtcNow(0, 0) == 631152000
  {
  }

  /**
   * One second of host time is one tick of the counter, wrapping at 2^32,
   * and a timezone offset one second larger reads as one second later.
   */
  lemma RtcNowTick(rawtime: int, timeOffset: int)
    ensures RtcNow(rawtime + 1, timeOffset) == Add(RtcNow(rawtime, timeOffset), 1)
    ensures RtcNow(rawtime, timeOffset + 1) == RtcNow(rawtime + 1, timeOffset)
  {
    var x := DC_EPOCH_OFFSET + rawtime + timeOffset;
    var q := x / U32_LIMIT;
    assert x == q * U32_LIMIT + x % U32_LIMIT;
    if x % U32_LIMIT == U32_LIMIT - 1 {
      assert x + 1 == (q + 1) * U32_LIMIT;
    } else {
      assert x + 1 == q * U32_LIMIT + (x % U32_LIMIT + 1);
    }
  }

  // ---------------------------------------------------------------------------
  // RTC register file

  /**
   * A read of the RTC block at `addr`: offset 0 is the high half of the
   * counter, offset 4 the low half, offset 8 and every other offset read 0.
   */
  function RtcRead(rtc: u32, addr: u32): (r: u32)
    ensures r <= 0xFFFF
    ensures addr % 0x100 == 0 ==> r * 0x10000 <= rtc < (r + 1) * 0x10000
    ensures addr % 0x100 == 4 ==> (rtc - r) % 0x10000 == 0
    ensures addr % 0x100 != 0 && addr % 0x100 != 4 ==> r == 0
  {
    var off := addr % 0x100;
    if off == 0 then rtc / 0x10000
    else if off == 4 then rtc % 0x10000
    else 0
  }

  /** The two halves read back recombine into the whole counter. */
  lemma RtcHalvesRecombine(rtc: u32)
    ensures Or(RtcRead(rtc, 0) * 0x10000, RtcRead(rtc, 4)) == rtc
  {
    Pow2Widths();
    OrDisjoint(RtcRead(rtc, 0), RtcRead(rtc, 4), 16);
  }

  /**
   * A write of `data` to the RTC block at `addr`, as the new counter and the
   * new write-enable latch. The high half is written only while the latch is
   * set and clears it; the low half is written only while the latch is set
   * and keeps it; offset 8 loads the latch from bit 0 of `data`.
   */
  function RtcWrite(rtc: u32, en: u32, addr: u32, data: u32): (r: (u32, u32))
    ensures var off := addr % 0x100;
      && (off == 0 && en != 0 ==>
            r.0 / 0x10000 == data % 0x10000 && r.0 % 0x10000 == rtc % 0x10000 && r.1 == 0)
      && (off == 4 && en != 0 ==>
            r.0 % 0x10000 == data % 0x10000 && r.0 / 0x10000 == rtc / 0x10000 && r.1 == en)
      && (off == 8 ==> r.0 == rtc && r.1 <= 1 && (r.1 == 1 <==> data % 2 == 1))
      && ((off != 0 && off != 4 && off != 8) || (off != 8 && en == 0) ==> r == (rtc, en))
  {
    var off := addr % 0x100;
    if off == 0 then
      if en != 0 then ((data % 0x10000) * 0x10000 + rtc % 0x10000, 0) else (rtc, en)
    else if off == 4 then
      if en != 0 then ((rtc / 0x10000) * 0x10000 + data % 0x10000, en) else (rtc, en)
    else if off == 8 then
      (rtc, data % 2)
    else
      (rtc, en)
  }

  /**
   * Arming the latch, writing the low half and then the high half sets the
   * counter to the two halves written; the latch is then clear, so a further
   * high-half write changes nothing.
   */
  lemma RtcArmedWriteSequence(rtc: u32, en: u32, lo: u32, hi: u32, again: u32)
    ensures var armed := RtcWrite(rtc, en, 8, 1);
      var afterLo := RtcWrite(armed.0, armed.1, 4, lo);
      var afterHi := RtcWrite(afterLo.0, afterLo.1, 0, hi);
      && afterHi.0 == (hi % 0x10000) * 0x10000 + lo % 0x10000
      && afterHi.1 == 0
      && RtcWrite(afterHi.0, afterHi.1, 0, again) == afterHi
  {
  }

  /** A high-half write that is applied reads back through offset 0. */
  lemma RtcHighWriteReadBack(rtc: u32, en: u32, data: u32)
    requires en != 0
    ensures RtcRead(RtcWrite(rtc, en, 0, data).0, 0) == data % 0x10000
    ensures RtcRead(RtcWrite(rtc, en, 0, data).0, 4) == RtcRead(rtc, 4)
  {
  }

  // ---------------------------------------------------------------------------
  // Register decoder

  /** The AICA register space seen through the 15-bit address decoder. */
  datatype RegTarget = Vreg | Armrst | VregArmrst | External(addr: u32)

  /**
   * Which register an access of width `sz` at `addr` reaches: only the lower
   * 15 address bits are decoded; byte accesses at 0x2C01 and 0x2C00 reach
   * VREG and ARMRST, any other width at 0x2C00 reaches the pair, and every
   * other access goes to the AICA register file at the masked address.
   */
  function Decode(addr: u32, sz: u32): (t: RegTarget)
    ensures t == Vreg <==> sz == 1 && addr % 0x8000 == 0x2C01
    ensures t == Armrst <==> sz == 1 && addr % 0x8000 == 0x2C00
    ensures t == VregArmrst <==> sz != 1 && addr % 0x8000 == 0x2C00
    ensures t.External? ==> t.addr == addr % 0x8000
  {
    var a := addr % 0x8000;
    if sz == 1 then
      if a == 0x2C01 then Vreg else if a == 0x2C00 then Armrst else External(a)
    else
      if a == 0x2C00 then VregArmrst else External(a)
  }

  /** The address bits above bit 14 never change what is reached. */
  lemma DecodeMirrors(addr: u32, high: nat, sz: u32)
    requires addr % 0x8000 + high * 0x8000 < U32_LIMIT
    ensures Decode(addr % 0x8000 + high * 0x8000, sz) == Decode(addr, sz)
  {
    assert (addr % 0x8000 + high * 0x8000) % 0x8000 == addr % 0x8000;
  }

  /** The value of a register read: local, or the AICA register file's value. */
  datatype RegValue = Local(value: u32) | Forwarded(addr: u32, sz: u32)

  /**
   * `(VREG << 8) | ARMRST` in 32 bits: for byte-sized registers, VREG in the
   * second byte and ARMRST in the first.
   */
  function PairValue(vreg: u32, armrst: u32): (r: u32)
    ensures vreg <= 0xFF && armrst <= 0xFF ==> r / 0x100 == vreg && r % 0x100 == armrst
  {
    Pow2Widths();
    OrBound((vreg * 0x100) % U32_LIMIT, armrst, 32);
    PairValueSmall(vreg, armrst);
    Or((vreg * 0x100) % U32_LIMIT, armrst)
  }

  lemma PairValueSmall(vreg: u32, armrst: u32)
    ensures vreg <= 0xFF && armrst <= 0xFF ==>
      Or((vreg * 0x100) % U32_LIMIT, armrst) == vreg * 0x100 + armrst
  {
    if vreg <= 0xFF && armrst <= 0xFF {
      Pow2Widths();
      assert vreg * 0x100 <= 0xFF * 0x100;
      assert (vreg * 0x100) % U32_LIMIT == vreg * Pow2(8);
      OrDisjoint(vreg, armrst, 8);
    }
  }

  /**
   * A read of width `sz` at `addr` with the given VREG and ARMRST; a 2-byte
   * read of the pair is `(VREG << 8) | ARMRST`.
   */
  function RegRead(vreg: u32, armrst: u32, addr: u32, sz: u32): (r: RegValue)
    ensures r.Forwarded? <==> Decode(addr, sz).External?
    ensures r.Forwarded? ==> r.addr == addr % 0x8000 && r.sz == sz
    ensures Decode(addr, sz) == Vreg ==> r == Local(vreg)
    ensures Decode(addr, sz) == Armrst ==> r == Local(armrst)
    ensures Decode(addr, sz) == VregArmrst && vreg <= 0xFF && armrst <= 0xFF ==>
      r.Local? && r.value / 0x100 == vreg && r.value % 0x100 == armrst
  {
    match Decode(addr, sz)
    case Vreg => Local(vreg)
    case Armrst => Local(armrst)
    case VregArmrst => Local(PairValue(vreg, armrst))
    case External(a) => Forwarded(a, sz)
  }

  /**
   * VREG and ARMRST after a write of `data` reaching `t`: VREG stores a byte
   * write verbatim, the pair write splits `data` into its two low bytes, and
   * ARMRST keeps only bit 0 of what reaches it.
   */
  function LatchWrite(t: RegTarget, vreg: u32, armrst: u32, data: u32): (r: (u32, u32))
    ensures t.External? ==> r == (vreg, armrst)
    ensures t == Vreg ==> r == (data, armrst)
    ensures t == Armrst ==> r.0 == vreg
    ensures t == VregArmrst ==> r.0 <= 0xFF && r.0 == (data / 0x100) % 0x100
    ensures t == Armrst || t == VregArmrst ==> r.1 <= 1 && (r.1 == 0 <==> data % 2 == 0)
  {
    match t
    case Vreg => (data, armrst)
    case Armrst => (vreg, data % 2)
    case VregArmrst => ((data / 0x100) % 0x100, (data % 0x100) % 2)
    case External(_) => (vreg, armrst)
  }

  /** A 2-byte write of the pair reads back as its VREG byte and ARMRST bit 0. */
  lemma PairWriteReadBack(vreg: u32, armrst: u32, addr: u32, sz: u32, data: u32)
    requires Decode(addr, sz) == VregArmrst
    ensures var w := LatchWrite(VregArmrst, vreg, armrst, data);
      RegRead(w.0, w.1, addr, sz) == Local(((data / 0x100) % 0x100) * 0x100 + data % 2)
  {
  }

  /** A byte write of VREG reads back verbatim and leaves ARMRST as it was. */
  lemma VregWriteReadBack(vreg: u32, armrst: u32, data: u32)
    ensures var w := LatchWrite(Vreg, vreg, armrst, data);
      RegRead(w.0, w.1, 0x2C01, 1) == Local(data) && RegRead(w.0, w.1, 0x2C00, 1) == Local(armrst)
  {
  }

  // ---------------------------------------------------------------------------
  // G2 DMA channels

  /**
   * The registers of one G2 DMA channel: system memory address (STAR), G2
   * address (STAG), length with the auto-enable flag in bit 31 (LEN),
   * direction (DIR), enable (EN) and start/status (ST).
   */
  datatype Channel = Channel(star: u32, stag: u32, len: u32, dir: u32, en: u32, st: u32)

  /** A start write takes effect only when bit 0 of the data and of EN are set. */
  function Triggered(ch: Channel, data: u32): (b: bool)
    ensures b <==> Bit(data, 0) && Bit(ch.en, 0)
  {
    data % 2 == 1 && ch.en % 2 == 1
  }

  /** Bit 31 of LEN, the auto-enable flag. */
  function AutoEnable(len: u32): (b: bool)
    ensures b <==> Bit(len, 31)
  {
    Pow2Widths();
    assert Pow2(32) == 2 * Pow2(31);
    TopBit(len, 31);
    len >= 0x8000_0000
  }

  /** The byte count of a transfer: LEN without its flag bit. */
  function ByteCount(len: u32): (n: u32)
    ensures n < 0x8000_0000
    ensures n + (if AutoEnable(len) then 0x8000_0000 else 0) == len
  {
    len % 0x8000_0000
  }

  /**
   * The block move a triggered channel performs: from system memory (STAR)
   * to G2 memory (STAG), or the other way round when `swap` holds.
   */
  function MoveOf(ch: Channel, swap: bool): (e: Effect)
    ensures e.BlockMove? && e.len == ByteCount(ch.len)
    ensures e.src == (if swap then ch.stag else ch.star)
    ensures e.dst == (if swap then ch.star else ch.stag)
  {
    var n := ByteCount(ch.len);
    if swap then BlockMove(ch.star, ch.stag, n) else BlockMove(ch.stag, ch.star, n)
  }

  /**
   * Completion of an external or device channel: both addresses advance by
   * the byte count whatever the direction, start and length are cleared, and
   * EN becomes 1 exactly when the auto-enable flag was set.
   */
  function ExtComplete(ch: Channel): (r: Channel)
    ensures r.star == Add(ch.star, ByteCount(ch.len)) && r.stag == Add(ch.stag, ByteCount(ch.len))
    ensures r.st == 0 && r.len == 0 && r.dir == ch.dir
    ensures r.en <= 1 && (r.en == 1 <==> AutoEnable(ch.len))
  {
    var n := ByteCount(ch.len);
    ch.(en := if AutoEnable(ch.len) then 1 else 0,
        star := Add(ch.star, n), stag := Add(ch.stag, n), st := 0, len := 0)
  }

  /** SB_ADSUSP with bit 4 cleared (`& ~0x10`). */
  function ClearSuspBit(susp: u32): (r: u32)
    ensures (r / 0x10) % 2 == 0 && r / 0x20 == susp / 0x20 && r % 0x10 == susp % 0x10
  {
    if (susp / 0x10) % 2 == 1 then susp - 0x10 else susp
  }

  /** SB_ADSUSP with bit 4 set (`| 0x10`). */
  function SetSuspBit(susp: u32): (r: u32)
    ensures (r / 0x10) % 2 == 1 && r / 0x20 == susp / 0x20 && r % 0x10 == susp % 0x10
  {
    if (susp / 0x10) % 2 == 1 then susp else susp + 0x10
  }

  /**
   * The AICA channel marked busy: ST = 1 and suspend bit 4 cleared, nothing
   * else changed.
   */
  function AdStart(ch: Channel, susp: u32): (r: (Channel, u32))
    ensures r.0 == ch.(st := 1)
    ensures r.1 == ClearSuspBit(susp)
  {
    (ch.(st := 1), ClearSuspBit(susp))
  }

  /**
   * Completion of the AICA channel (dma_end_sched): both addresses advance by
   * the byte count, start and length are cleared, suspend bit 4 is set, and
   * EN becomes 0 exactly when the auto-enable flag was set.
   */
  function AdComplete(ch: Channel, susp: u32): (r: (Channel, u32))
    ensures r.0.star == Add(ch.star, ByteCount(ch.len)) && r.0.stag == Add(ch.stag, ByteCount(ch.len))
    ensures r.0.st == 0 && r.0.len == 0 && r.0.dir == ch.dir
    ensures r.0.en <= 1 && (r.0.en == 0 <==> AutoEnable(ch.len))
    ensures r.1 == SetSuspBit(susp)
  {
    var n := ByteCount(ch.len);
    (ch.(en := if AutoEnable(ch.len) then 0 else 1,
         star := Add(ch.star, n), stag := Add(ch.stag, n), st := 0, len := 0),
     SetSuspBit(susp))
  }

  /**
   * The same LEN leaves the AICA channel and the other channels with
   * opposite enable bits after completion, and with all else equal.
   */
  lemma EnableAfterCompletionIsOpposite(ch: Channel, susp: u32)
    ensures AdComplete(ch, susp).0.en == 1 - ExtComplete(ch).en
    ensures AdComplete(ch, susp).0.(en := 0) == ExtComplete(ch).(en := 0)
  {
  }

  /** An inline completion hides the busy marking: ST ends 0 and bit 4 set. */
  lemma InlineCompletionHidesBusy(ch: Channel, susp: u32)
    ensures var s := AdStart(ch, susp);
      AdComplete(s.0, s.1) == AdComplete(ch, susp)
  {
    var c := ClearSuspBit(susp);
    assert SetSuspBit(c) == SetSuspBit(susp);
  }

  /**
   * Bit 0 of DIR swaps the AICA channel, but the other channels swap only on
   * DIR == 1 exactly: with DIR == 3 they disagree.
   */
  lemma DirectionTestsDiffer(ch: Channel)
    requires ch.dir == 3 && ch.star != ch.stag
    ensures MoveOf(ch, ch.dir % 2 == 1) != MoveOf(ch, ch.dir == 1)
  {
  }

  /** A completed transfer leaves the channel addressing the next block. */
  lemma CompletionChainsTransfers(ch: Channel, len2: u32)
    ensures var next := ExtComplete(ch).(len := len2);
      MoveOf(next, false) ==
        BlockMove(Add(ch.stag, ByteCount(ch.len)), Add(ch.star, ByteCount(ch.len)), ByteCount(len2))
  {
  }

  /** Bus cycles per byte: 16 bits at 25 MHz against the main clock. */
  function CyclesPerByte(mainClock: Clock): nat {
    mainClock / 2 / 25000000
  }

  /**
   * The duration of an AICA-channel transfer of `len` bytes in main-clock
   * cycles: the product is formed in 32-bit unsigned arithmetic and then
   * stored in a signed 32-bit `int`.
   */
  function DmaCycles(len: u32, mainClock: Clock): (cycles: int)
    ensures -0x8000_0000 <= cycles < 0x8000_0000
    ensures len * CyclesPerByte(mainClock) < 0x8000_0000 ==>
      cycles == len * CyclesPerByte(mainClock)
    ensures (cycles - len * CyclesPerByte(mainClock)) % U32_LIMIT == 0
  {
    var p := len * CyclesPerByte(mainClock);
    var product := p % U32_LIMIT;
    assert p == (p / U32_LIMIT) * U32_LIMIT + product;
    if product < 0x8000_0000 then product else product - U32_LIMIT
  }

  /** Completion is deferred only for transfers of 4096 cycles or more. */
  const INLINE_LIMIT: int := 4096

  /**
   * At a 200 MHz main clock a 0x2000-byte transfer takes 32768 cycles and is
   * deferred, while a 1023-byte transfer completes within the start write.
   */
  lemma DmaCyclesAt200MHz()
    ensures DmaCycles(0x2000, 200_000_000) == 32768
    ensures DmaCycles(1023, 200_000_000) == 4092 < INLINE_LIMIT
  {
  }

  /**
   * At a 200 MHz main clock a byte takes 4 cycles, and the 32-bit product
   * wraps twice over the possible byte counts: lengths in [2^29, 2^30) and
   * in [3 * 2^29, 2^31) give a negative count, so they complete within the
   * start write, while lengths in [2^30, 3 * 2^29) wrap back to a
   * non-negative count and are deferred once it reaches 4096.
   */
  lemma DmaCyclesAt200MHzBands(len: u32)
    requires len < 0x8000_0000
    ensures len < 0x2000_0000 ==> DmaCycles(len, 200_000_000) == 4 * len
    ensures 0x2000_0000 <= len < 0x4000_0000 ==> DmaCycles(len, 200_000_000) == 4 * len - U32_LIMIT < 0
    ensures 0x4000_0000 <= len < 0x6000_0000 ==> 0 <= DmaCycles(len, 200_000_000) == 4 * len - U32_LIMIT
    ensures 0x6000_0000 <= len ==> DmaCycles(len, 200_000_000) == 4 * len - 2 * U32_LIMIT < 0
  {
    assert CyclesPerByte(200_000_000) == 4;
  }

  /**
   * Wrap-around in both directions: 2^29 bytes take a negative count and
   * complete inline, while 2^30 + 1024 bytes take 4096 cycles and are
   * deferred.
   */
  lemma DmaCyclesWrapExamples()
    ensures DmaCycles(0x2000_0000, 200_000_000) == -0x8000_0000 < INLINE_LIMIT
    ensures DmaCycles(0x4000_0400, 200_000_000) == 4096 == INLINE_LIMIT
  {
    DmaCyclesAt200MHzBands(0x2000_0000);
    DmaCyclesAt200MHzBands(0x4000_0400);
  }

  // ---------------------------------------------------------------------------
  // The state of the block

  class AicaState {
    /** SH4_MAIN_CLOCK, the main clock in cycles per second. */
    const mainClock: Clock

    /** settings.dreamcast.RTC and its write-enable latch rtc_EN. */
    var rtc: u32
    var rtcEN: u32
    var vreg: u32
    var armrst: u32
    /** The scheduler handles of the one-second timer (-1: none) and of DMA end. */
    var rtcSchid: int
    var dmaSchedId: int

    /** The four channels: SB_AD*, SB_E1*, SB_E2*, SB_DD*, and SB_ADSUSP. */
    var ad: Channel
    var e1: Channel
    var e2: Channel
    var dd: Channel
    var adSusp: u32

    /** Every call made into a collaborator, oldest first. */
    ghost var effects: seq<Effect>

    /** Static storage starts zeroed, with no timer registered yet. */
    constructor (mainClock: Clock)
      ensures this.mainClock == mainClock
      ensures rtc == 0 && rtcEN == 0 && vreg == 0 && armrst == 0
      ensures rtcSchid == -1 && dmaSchedId == 0 && adSusp == 0
      ensures ad == e1 == e2 == dd == Channel(0, 0, 0, 0, 0, 0)
      ensures effects == []
    {
      this.mainClock := mainClock;
      rtc, rtcEN, vreg, armrst := 0, 0, 0, 0;
      rtcSchid, dmaSchedId, adSusp := -1, 0, 0;
      ad, e1, e2, dd := Channel(0, 0, 0, 0, 0, 0), Channel(0, 0, 0, 0, 0, 0),
                        Channel(0, 0, 0, 0, 0, 0), Channel(0, 0, 0, 0, 0, 0);
      effects := [];
    }

    /** Applies a write to the RTC block. */
    method WriteMemRtc(addr: u32, data: u32, sz: u32)
      modifies this`rtc, this`rtcEN
      ensures (rtc, rtcEN) == RtcWrite(old(rtc), old(rtcEN), addr, data)
    {
      var off := addr % 0x100;
      if off == 0 {
        if rtcEN != 0 {
          rtc := rtc % 0x10000;
          rtc := (data % 0x10000) * 0x10000 + rtc;
          rtcEN := 0;
        }
      } else if off == 4 {
        if rtcEN != 0 {
          rtc := (rtc / 0x10000) * 0x10000;
          rtc := rtc + data % 0x10000;
        }
      } else if off == 8 {
        rtcEN := data % 2;
      }
    }

    /** Keeps bit 0 of ARMRST and enables the ARM7 exactly when it is 0. */
    method ArmSetRst()
      modifies this`armrst, this`effects
      ensures armrst == old(armrst) % 2
      ensures effects == old(effects) + [ArmEnable(old(armrst) % 2 == 0)]
    {
      armrst := armrst % 2;
      effects := effects + [ArmEnable(armrst == 0)];
    }

    /** Applies a write of width `sz` through the register decoder. */
    method WriteMemReg(addr: u32, data: u32, sz: u32)
      modifies this`vreg, this`armrst, this`effects
      ensures (vreg, armrst) == LatchWrite(Decode(addr, sz), old(vreg), old(armrst), data)
      ensures Decode(addr, sz) == Vreg ==> effects == old(effects)
      ensures Decode(addr, sz) == Armrst || Decode(addr, sz) == VregArmrst ==>
        (effects == old(effects) + [ArmEnable(data % 2 == 0)])
      ensures Decode(addr, sz).External? ==>
        (effects == old(effects) + [AicaRegWrite(addr % 0x8000, data, sz)])
    {
      var a := addr % 0x8000;
      if sz == 1 {
        if a == 0x2C01 {
          vreg := data;
        } else if a == 0x2C00 {
          armrst := data;
          ArmSetRst();
        } else {
          effects := effects + [AicaRegWrite(a, data, sz)];
        }
      } else {
        if a == 0x2C00 {
          vreg := (data / 0x100) % 0x100;
          armrst := data % 0x100;
          ArmSetRst();
        } else {
          effects := effects + [AicaRegWrite(a, data, sz)];
        }
      }
    }

    /** The once-per-second timer: one tick, and one second until the next. */
    method DreamcastSecond(tag: int, c: int, j: int) returns (next: int)
      modifies this`rtc, this`effects
      ensures rtc == Add(old(rtc), 1)
      ensures effects == old(effects) + [Periodical1s]
      ensures next == mainClock
    {
      rtc := Add(rtc, 1);
      effects := effects + [Periodical1s];
      next := mainClock;
    }

    /**
     * Seeds the RTC from host time and, the first time only, registers the
     * one-second timer and arms it; `newId` is the handle the scheduler hands
     * back for the registration.
     */
    method Init(rawtime: int, timeOffset: int, newId: int)
      modifies this`rtc, this`rtcSchid, this`effects
      ensures rtc == RtcNow(rawtime, timeOffset)
      ensures old(rtcSchid) == -1 ==> (rtcSchid == newId &&
        effects == old(effects) + [SchedRegister(0, DreamcastSecondCb), SchedRequest(newId, mainClock)])
      ensures old(rtcSchid) != -1 ==> rtcSchid == old(rtcSchid) && effects == old(effects)
    {
      rtc := RtcNow(rawtime, timeOffset);
      if rtcSchid == -1 {
        rtcSchid := newId;
        effects := effects + [SchedRegister(0, DreamcastSecondCb)];
        effects := effects + [SchedRequest(rtcSchid, mainClock)];
      }
    }

    /**
     * Resets VREG and ARMRST; a reset that is not manual also reseeds the
     * RTC. Neither the latch rtc_EN nor the ARM7 enable state is touched.
     */
    method Reset(manual: bool, rawtime: int, timeOffset: int, newId: int)
      modifies this`rtc, this`rtcSchid, this`effects, this`vreg, this`armrst
      ensures vreg == 0 && armrst == 0
      ensures manual ==> rtc == old(rtc) && rtcSchid == old(rtcSchid) && effects == old(effects)
      ensures !manual ==> rtc == RtcNow(rawtime, timeOffset)
      ensures !manual && old(rtcSchid) == -1 ==> (rtcSchid == newId &&
        effects == old(effects) + [SchedRegister(0, DreamcastSecondCb), SchedRequest(newId, mainClock)])
      ensures !manual && old(rtcSchid) != -1 ==> rtcSchid == old(rtcSchid) && effects == old(effects)
    {
      if !manual {
        Init(rawtime, timeOffset, newId);
      }
      vreg := 0;
      armrst := 0;
    }

    /**
     * Routes the four start registers to their handlers and registers the
     * DMA-end callback; `newId` is the handle the scheduler hands back.
     */
    method SbInit(newId: int)
      modifies this`dmaSchedId, this`effects
      ensures dmaSchedId == newId
      ensures effects == old(effects) +
        [RioRegister(AdSt), RioRegister(E1St), RioRegister(E2St), RioRegister(DdSt),
         SchedRegister(0, DmaEndSchedCb)]
    {
      effects := effects + [RioRegister(AdSt), RioRegister(E1St), RioRegister(E2St), RioRegister(DdSt)];
      dmaSchedId := newId;
      effects := effects + [SchedRegister(0, DmaEndSchedCb)];
    }

    /** The G2 reset leaves every DMA register as it is. */
    method SbReset(manual: bool)
      ensures ad == old(ad) && e1 == old(e1) && e2 == old(e2) && dd == old(dd)
      ensures adSusp == old(adSusp)
    {
    }

    /**
     * Completion of the AICA channel, run inline or by the scheduler: applies
     * AdComplete to the registers as they are now and raises SPU_DMA; it asks
     * for no further call.
     */
    method DmaEndSched(tag: int, cycl: int, jitt: int) returns (r: int)
      modifies this`ad, this`adSusp, this`effects
      ensures (ad, adSusp) == AdComplete(old(ad), old(adSusp))
      ensures effects == old(effects) + [Interrupt(SpuDma)]
      ensures r == 0
    {
      var len := ad.len % 0x8000_0000;
      if ad.len >= 0x8000_0000 {
        ad := ad.(en := 0);
      } else {
        ad := ad.(en := 1);
      }
      ad := ad.(star := Add(ad.star, len));
      ad := ad.(stag := Add(ad.stag, len));
      ad := ad.(st := 0);
      ad := ad.(len := 0);
      adSusp := SetSuspBit(adSusp);
      effects := effects + [Interrupt(SpuDma)];
      r := 0;
    }

    /**
     * A write to SB_ADST. When triggered it moves the block, marks the channel
     * busy and then completes at once if the transfer takes fewer than 4096
     * cycles, or else asks the scheduler for the DMA-end call that many
     * cycles later. Otherwise nothing changes.
     */
    method WriteAdst(addr: u32, data: u32)
      modifies this`ad, this`adSusp, this`effects
      ensures !Triggered(old(ad), data) ==>
        (ad == old(ad) && adSusp == old(adSusp) && effects == old(effects))
      ensures Triggered(old(ad), data) ==>
        var cycles := DmaCycles(ByteCount(old(ad).len), mainClock);
        var busy := AdStart(old(ad), old(adSusp));
        var move := MoveOf(old(ad), old(ad).dir % 2 == 1);
        if cycles < INLINE_LIMIT then
          (ad, adSusp) == AdComplete(busy.0, busy.1) &&
          effects == old(effects) + [move, Interrupt(SpuDma)]
        else
          (ad, adSusp) == busy &&
          effects == old(effects) + [move, SchedRequest(dmaSchedId, cycles)]
    {
      if data % 2 == 1 {
        if ad.en % 2 == 1 {
          var src := ad.star;
          var dst := ad.stag;
          var len := ad.len % 0x8000_0000;
          if ad.dir % 2 == 1 {
            var tmp := src;
            src := dst;
            dst := tmp;
          }
          effects := effects + [BlockMove(dst, src, len)];
          ad := ad.(st := 1);
          adSusp := ClearSuspBit(adSusp);
          var cycles := DmaCycles(len, mainClock);
          if cycles < INLINE_LIMIT {
            var _ := DmaEndSched(0, 0, 0);
          } else {
            effects := effects + [SchedRequest(dmaSchedId, cycles)];
          }
        }
      }
    }

    /**
     * The transfer shared by the external and device channels: one block
     * move, completion and the channel's interrupt, all within the write.
     */
    method ExtTransfer(ch: Channel, irq: Irq) returns (done: Channel)
      modifies this`effects
      ensures done == ExtComplete(ch)
      ensures effects == old(effects) + [MoveOf(ch, ch.dir == 1), Interrupt(irq)]
    {
      var src := ch.star;
      var dst := ch.stag;
      var len := ch.len % 0x8000_0000;
      if ch.dir == 1 {
        var t := src;
        src := dst;
        dst := t;
      }
      effects := effects + [BlockMove(dst, src, len)];
      done := ch;
      if ch.len >= 0x8000_0000 {
        done := done.(en := 1);
      } else {
        done := done.(en := 0);
      }
      done := done.(star := Add(done.star, len), stag := Add(done.stag, len));
      done := done.(st := 0, len := 0);
      effects := effects + [Interrupt(irq)];
    }

    /** A write to SB_E1ST: a triggered transfer completes within the write. */
    method WriteE1st(addr: u32, data: u32)
      modifies this`e1, this`effects
      ensures !Triggered(old(e1), data) ==> (e1 == old(e1) && effects == old(effects))
      ensures Triggered(old(e1), data) ==>
        (e1 == ExtComplete(old(e1)) &&
         effects == old(effects) + [MoveOf(old(e1), old(e1).dir == 1), Interrupt(ExtDma1)])
    {
      if data % 2 == 1 {
        if e1.en % 2 == 1 {
          e1 := ExtTransfer(e1, ExtDma1);
        }
      }
    }

    /** A write to SB_E2ST: a triggered transfer completes within the write. */
    method WriteE2st(addr: u32, data: u32)
      modifies this`e2, this`effects
      ensures !Triggered(old(e2), data) ==> (e2 == old(e2) && effects == old(effects))
      ensures Triggered(old(e2), data) ==>
        (e2 == ExtComplete(old(e2)) &&
         effects == old(effects) + [MoveOf(old(e2), old(e2).dir == 1), Interrupt(ExtDma2)])
    {
      if data % 2 == 1 && e2.en % 2 == 1 {
        e2 := ExtTransfer(e2, ExtDma2);
      }
    }

    /** A write to SB_DDST: a triggered transfer completes within the write. */
    method WriteDdst(addr: u32, data: u32)
      modifies this`dd, this`effects
      ensures !Triggered(old(dd), data) ==> (dd == old(dd) && effects == old(effects))
      ensures Triggered(old(dd), data) ==>
        (dd == ExtComplete(old(dd)) &&
         effects == old(effects) + [MoveOf(old(dd), old(dd).dir == 1), Interrupt(DevDma)])
    {
      if data % 2 == 1 && dd.en % 2 == 1 {
        dd := ExtTransfer(dd, DevDma);
      }
    }
  }
}

/**
 * The AK8963 magnetometer driver. Each bus-level operation is specified by a
 * function from the bus state before the call to the bus state after it (and
 * the values the operation returns); the `AK8963` class keeps the driver's own
 * fields and ties each of its methods to those functions.
 */
module AK8963Driver {
  import opened Bytes
  import opened Bitfield
  import opened RegisterBus
  import opened AK8963Registers

  /** The bus after a one-bit read, whether the read succeeded, and the bit (false when it failed). */
  datatype FlagReply = FlagReply(bus: BusState, ok: bool, flag: bool)

  /** The bus after a field read, whether the read succeeded, and the field (0 when it failed). */
  datatype FieldReply = FieldReply(bus: BusState, ok: bool, bits: Byte)

  /** What one `readRawMag` call found. */
  datatype MagRead = ReadFailed | NotReady | Overflowed | Sample(x: Int16, y: Int16, z: Int16)

  datatype MagReply = MagReply(bus: BusState, status: MagRead)

  /** The bus after the fuse-ROM sequence and the three adjustment factors it computed. */
  datatype AdjReply = AdjReply(bus: BusState, x: real, y: real, z: real)

  /** The upper nibble of CNTL1, which the mode field does not cover (it holds the resolution bit). */
  function OutsideMode(cntl1: Byte): Byte
  {
    cntl1 & 0xF0
  }

  /** The operation mode held in CNTL1. */
  function ModeOf(cntl1: Byte): Byte
  {
    cntl1 & 0x0F
  }

  // ---------------------------------------------------------------------
  // Register read-modify-write (`_readBit`, `_writeBit`, `_readBits`, `_writeBits`)
  // ---------------------------------------------------------------------

  /**
   * `_readBit`: one register read; on success the flag is bit `position` of that register.
   * On a failed read `_readBit` leaves `*bit` alone; every caller presets it to
   * false, which is the `false` the flag takes here.
   */
  function ReadBitTxn(s: BusState, dev: Byte, reg: Byte, position: Byte): (r: FlagReply)
    requires position < 8
    ensures r.bus.regs == s.regs
    ensures r.ok <==> Next(s.script).Pass?
    ensures r.flag <==> r.ok && BitAt(Peek(s.regs, dev, reg), position)
  {
    var rd := ReadTxn(s, dev, reg, 1);
    FlagReply(rd.bus, rd.ok, rd.ok && BitAt(rd.data[0], position))
  }

  /**
   * `_writeBit`: read the register, set or clear one bit, write it back.
   * A failed read issues no write.
   */
  function WriteBitTxn(s: BusState, dev: Byte, reg: Byte, bit: bool, position: Byte): (r: WriteReply)
    requires position < 8
    ensures r.ok <==> Passes(s.script, 2)
    ensures !Next(s.script).Pass? ==> r.bus == BusState(s.regs, Rest(s.script), s.trace + [Read(dev, reg, 1, false)])
    ensures !r.ok ==> r.bus.regs == s.regs
    ensures r.ok ==> BitAt(Peek(r.bus.regs, dev, reg), position) == bit
    ensures forall i: Byte :: i < 8 && i != position ==>
      BitAt(Peek(r.bus.regs, dev, reg), i) == BitAt(Peek(s.regs, dev, reg), i)
  {
    var rd := ReadTxn(s, dev, reg, 1);
    PassesTwo(s.script);
    if !rd.ok then WriteReply(rd.bus, false)
    else
      var b := WriteBitValue(rd.data[0], bit, position);
      WriteOne(rd.bus, dev, reg, b);
      WriteTxn(rd.bus, dev, reg, [b])
  }

  /**
   * `_readBits`: one register read; on success the field, moved down to bit 0.
   * On a failed read `_readBits` leaves `*bits` alone; every caller presets it
   * to 0, which is the 0 the field takes here.
   */
  function ReadBitsTxn(s: BusState, dev: Byte, reg: Byte, firstBit: Byte, length: Byte): (r: FieldReply)
    requires ValidField(firstBit, length)
    ensures r.bus.regs == s.regs
    ensures r.ok <==> Next(s.script).Pass?
    ensures r.ok ==> r.bits == ReadBitsValue(Peek(s.regs, dev, reg), firstBit, length)
    ensures !r.ok ==> r.bits == 0
  {
    var rd := ReadTxn(s, dev, reg, 1);
    FieldReply(rd.bus, rd.ok, if rd.ok then ReadBitsValue(rd.data[0], firstBit, length) else 0)
  }

  /**
   * `_writeBits`: read the register, replace the field by `bits` (truncated to
   * the field's width), write it back. A failed read issues no write.
   */
  function WriteBitsTxn(s: BusState, dev: Byte, reg: Byte, bits: Byte, firstBit: Byte, length: Byte): (r: WriteReply)
    requires ValidField(firstBit, length)
    ensures r.ok <==> Passes(s.script, 2)
    ensures !Next(s.script).Pass? ==> r.bus == BusState(s.regs, Rest(s.script), s.trace + [Read(dev, reg, 1, false)])
    ensures Next(s.script).Pass? ==>
      r.bus.script == Rest(Rest(s.script)) &&
      r.bus.trace == s.trace + [Read(dev, reg, 1, true),
                                Write(dev, reg, [WriteBitsValue(Peek(s.regs, dev, reg), bits, firstBit, length)], r.ok)]
    ensures !r.ok ==> r.bus.regs == s.regs
    ensures r.ok ==> Peek(r.bus.regs, dev, reg) == WriteBitsValue(Peek(s.regs, dev, reg), bits, firstBit, length)
    ensures r.ok ==> ReadBitsValue(Peek(r.bus.regs, dev, reg), firstBit, length) == bits & LowOnes(length)
  {
    var rd := ReadTxn(s, dev, reg, 1);
    PassesTwo(s.script);
    if !rd.ok then WriteReply(rd.bus, false)
    else
      assert rd.data[0] == Peek(s.regs, dev, reg + 0);
      var b := WriteBitsValue(rd.data[0], bits, firstBit, length);
      WriteOne(rd.bus, dev, reg, b);
      WriteTxn(rd.bus, dev, reg, [b])
  }

  /** `_writeBit` changes no register but its own. */
  lemma {:induction false} WriteBitKeepsOthers(s: BusState, dev: Byte, reg: Byte, bit: bool, position: Byte)
    requires position < 8
    ensures SameExcept(WriteBitTxn(s, dev, reg, bit, position).bus.regs, s.regs, dev, reg)
  {
    var rd := ReadTxn(s, dev, reg, 1);
    if rd.ok {
      WriteOne(rd.bus, dev, reg, WriteBitValue(rd.data[0], bit, position));
    }
  }

  /** `_writeBits` changes no register but its own. */
  lemma {:induction false} WriteBitsKeepsOthers(s: BusState, dev: Byte, reg: Byte, bits: Byte, firstBit: Byte, length: Byte)
    requires ValidField(firstBit, length)
    ensures SameExcept(WriteBitsTxn(s, dev, reg, bits, firstBit, length).bus.regs, s.regs, dev, reg)
  {
    var rd := ReadTxn(s, dev, reg, 1);
    if rd.ok {
      WriteOne(rd.bus, dev, reg, WriteBitsValue(rd.data[0], bits, firstBit, length));
    }
  }

  /** Reading a field right after writing it gives the written value, truncated to the field's width. */
  lemma {:induction false} WriteThenReadBits(s: BusState, dev: Byte, reg: Byte, bits: Byte, firstBit: Byte, length: Byte)
    requires ValidField(firstBit, length)
    requires WriteBitsTxn(s, dev, reg, bits, firstBit, length).ok
    requires Next(WriteBitsTxn(s, dev, reg, bits, firstBit, length).bus.script).Pass?
    ensures ReadBitsTxn(WriteBitsTxn(s, dev, reg, bits, firstBit, length).bus, dev, reg, firstBit, length).bits
         == bits & LowOnes(length)
  {
    var w := WriteBitsTxn(s, dev, reg, bits, firstBit, length);
    assert ReadBitsValue(Peek(w.bus.regs, dev, reg), firstBit, length) == bits & LowOnes(length);
  }

  /** Reading a bit right after writing it gives the written bit. */
  lemma {:induction false} WriteThenReadBit(s: BusState, dev: Byte, reg: Byte, bit: bool, position: Byte)
    requires position < 8
    requires WriteBitTxn(s, dev, reg, bit, position).ok
    requires Next(WriteBitTxn(s, dev, reg, bit, position).bus.script).Pass?
    ensures ReadBitTxn(WriteBitTxn(s, dev, reg, bit, position).bus, dev, reg, position).flag == bit
  {
    var w := WriteBitTxn(s, dev, reg, bit, position);
    assert BitAt(Peek(w.bus.regs, dev, reg), position) == bit;
  }

  // ---------------------------------------------------------------------
  // Operation mode and resolution
  // ---------------------------------------------------------------------

  /** The byte a mode write leaves in CNTL1: the upper nibble kept, the mode's low nibble in the field. */
  lemma ModeWriteValue(c: Byte, mode: Byte)
    ensures WriteBitsValue(c, mode, MODE, MODE_LENGTH) == OutsideMode(c) | (mode & 0x0F)
    ensures OutsideMode(OutsideMode(c) | (mode & 0x0F)) == OutsideMode(c)
    ensures ModeOf(OutsideMode(c) | (mode & 0x0F)) == mode & 0x0F
  {
    ModeFieldIsLowNibble();
  }

  /** Writing the mode field keeps CNTL1's upper nibble and every other register. */
  lemma {:induction false} ModeWriteKeeps(s: BusState, dev: Byte, mode: Byte)
    ensures SameExcept(WriteBitsTxn(s, dev, CNTL1, mode, MODE, MODE_LENGTH).bus.regs, s.regs, dev, CNTL1)
    ensures OutsideMode(Peek(WriteBitsTxn(s, dev, CNTL1, mode, MODE, MODE_LENGTH).bus.regs, dev, CNTL1))
         == OutsideMode(Peek(s.regs, dev, CNTL1))
    ensures WriteBitsTxn(s, dev, CNTL1, mode, MODE, MODE_LENGTH).ok ==>
      ModeOf(Peek(WriteBitsTxn(s, dev, CNTL1, mode, MODE, MODE_LENGTH).bus.regs, dev, CNTL1)) == mode & 0x0F
  {
    ModeWriteValue(Peek(s.regs, dev, CNTL1), mode);
    WriteBitsKeepsOthers(s, dev, CNTL1, mode, MODE, MODE_LENGTH);
  }

  /**
   * `setMode`: power down (the mode field := 0), wait 100 us, then write the
   * requested mode. The power-down's outcome is not checked.
   */
  function SetModeTxn(s: BusState, dev: Byte, mode: Byte): (r: BusState)
    ensures OutsideMode(Peek(r.regs, dev, CNTL1)) == OutsideMode(Peek(s.regs, dev, CNTL1))
    ensures Passes(s.script, 4) ==> ModeOf(Peek(r.regs, dev, CNTL1)) == mode & 0x0F
    ensures Passes(s.script, 4) ==>
      var c := Peek(s.regs, dev, CNTL1);
      r.trace == s.trace + [Read(dev, CNTL1, 1, true), Write(dev, CNTL1, [OutsideMode(c)], true), Delay(100),
                            Read(dev, CNTL1, 1, true), Write(dev, CNTL1, [OutsideMode(c) | (mode & 0x0F)], true)]
  {
    var pd := WriteBitsTxn(s, dev, CNTL1, POWER_DOWN, MODE, MODE_LENGTH);
    var s1 := DelayTxn(pd.bus, 100);
    ModeWriteKeeps(s, dev, POWER_DOWN);
    ModeWriteKeeps(s1, dev, mode);
    SetModeAllPass(s, dev, mode);
    WriteBitsTxn(s1, dev, CNTL1, mode, MODE, MODE_LENGTH).bus
  }

  /** `setMode` changes no register but CNTL1, and keeps CNTL1's resolution bit. */
  lemma {:induction false} SetModeKeepsOthers(s: BusState, dev: Byte, mode: Byte)
    ensures SameExcept(SetModeTxn(s, dev, mode).regs, s.regs, dev, CNTL1)
    ensures BitAt(Peek(SetModeTxn(s, dev, mode).regs, dev, CNTL1), BIT) == BitAt(Peek(s.regs, dev, CNTL1), BIT)
  {
    var c, c' := Peek(s.regs, dev, CNTL1), Peek(SetModeTxn(s, dev, mode).regs, dev, CNTL1);
    ModeFieldIsLowNibble();
    ResolutionBitOutsideModeField(c);
    ResolutionBitOutsideModeField(c');
    assert c' & !FieldMask(MODE, MODE_LENGTH) == OutsideMode(c') == OutsideMode(c) == c & !FieldMask(MODE, MODE_LENGTH);
    var s1 := DelayTxn(WriteBitsTxn(s, dev, CNTL1, POWER_DOWN, MODE, MODE_LENGTH).bus, 100);
    WriteBitsKeepsOthers(s, dev, CNTL1, POWER_DOWN, MODE, MODE_LENGTH);
    WriteBitsKeepsOthers(s1, dev, CNTL1, mode, MODE, MODE_LENGTH);
    SameExceptTransitive(s.regs, s1.regs, SetModeTxn(s, dev, mode).regs, dev, CNTL1);
  }

  /** A mode write whose two transfers succeed: its read and write in the trace, the new mode in CNTL1. */
  lemma {:induction false} ModeWriteAllPass(s: BusState, dev: Byte, mode: Byte)
    requires Passes(s.script, 2)
    ensures
      var w := WriteBitsTxn(s, dev, CNTL1, mode, MODE, MODE_LENGTH);
      var c := Peek(s.regs, dev, CNTL1);
      w.ok && w.bus.script == Rest(Rest(s.script)) &&
      Peek(w.bus.regs, dev, CNTL1) == OutsideMode(c) | (mode & 0x0F) &&
      w.bus.trace == s.trace + [Read(dev, CNTL1, 1, true), Write(dev, CNTL1, [OutsideMode(c) | (mode & 0x0F)], true)]
  {
    ModeWriteValue(Peek(s.regs, dev, CNTL1), mode);
    PassesTwo(s.script);
  }

  /** When the four transfers of `setMode` succeed: the mode write succeeds and the trace is power-down, delay, mode. */
  lemma {:induction false} SetModeAllPass(s: BusState, dev: Byte, mode: Byte)
    ensures
      var pd := WriteBitsTxn(s, dev, CNTL1, POWER_DOWN, MODE, MODE_LENGTH);
      var w := WriteBitsTxn(DelayTxn(pd.bus, 100), dev, CNTL1, mode, MODE, MODE_LENGTH);
      var c := Peek(s.regs, dev, CNTL1);
      Passes(s.script, 4) ==>
        w.ok &&
        w.bus.trace == s.trace + [Read(dev, CNTL1, 1, true), Write(dev, CNTL1, [OutsideMode(c)], true), Delay(100),
                                  Read(dev, CNTL1, 1, true), Write(dev, CNTL1, [OutsideMode(c) | (mode & 0x0F)], true)]
  {
    if Passes(s.script, 4) {
      PassesStep(s.script, 3);
      PassesStep(Rest(s.script), 2);
      assert Passes(s.script, 2);
      var c := Peek(s.regs, dev, CNTL1);
      var pd := WriteBitsTxn(s, dev, CNTL1, POWER_DOWN, MODE, MODE_LENGTH);
      ModeWriteAllPass(s, dev, POWER_DOWN);
      assert OutsideMode(c) | (POWER_DOWN & 0x0F) == OutsideMode(c);
      var s1 := DelayTxn(pd.bus, 100);
      assert s1.script == Rest(Rest(s.script));
      var r1, w1 := Read(dev, CNTL1, 1, true), Write(dev, CNTL1, [OutsideMode(c)], true);
      assert s1.trace == s.trace + [r1, w1] + [Delay(100)];
      ModeWriteAllPass(s1, dev, mode);
      assert OutsideMode(Peek(s1.regs, dev, CNTL1)) == OutsideMode(c) by {
        ModeWriteValue(c, POWER_DOWN);
      }
      var w := WriteBitsTxn(s1, dev, CNTL1, mode, MODE, MODE_LENGTH);
      var r2, w2 := Read(dev, CNTL1, 1, true), Write(dev, CNTL1, [OutsideMode(c) | (mode & 0x0F)], true);
      assert w.bus.trace == s1.trace + [r2, w2];
      AppendFive(s.trace, r1, w1, Delay(100), r2, w2);
    }
  }

  /**
   * Appending two, one and two events is appending the five (kept apart from
   * `SetModeAllPass`, whose context makes this step costly).
   */
  lemma AppendFive(t: seq<Event>, a: Event, b: Event, c: Event, d: Event, e: Event)
    ensures t + [a, b] + [c] + [d, e] == t + [a, b, c, d, e]
  {
  }

  /**
   * `setMode` ignores a failed power-down: when the first read fails and the
   * next two transfers succeed, the requested mode is still written, with no
   * power-down write before the delay.
   */
  lemma {:induction false} SetModeIgnoresPowerDownFailure(s: BusState, dev: Byte, mode: Byte)
    requires !Next(s.script).Pass? && Passes(Rest(s.script), 2)
    ensures ModeOf(Peek(SetModeTxn(s, dev, mode).regs, dev, CNTL1)) == mode & 0x0F
    ensures SetModeTxn(s, dev, mode).trace[..|s.trace| + 2] == s.trace + [Read(dev, CNTL1, 1, false), Delay(100)]
  {
    var pd := WriteBitsTxn(s, dev, CNTL1, POWER_DOWN, MODE, MODE_LENGTH);
    var s1 := DelayTxn(pd.bus, 100);
    assert s1.script == Rest(s.script);
    ModeWriteKeeps(s1, dev, mode);
    var w := WriteBitsTxn(s1, dev, CNTL1, mode, MODE, MODE_LENGTH);
    assert s1.trace == s.trace + [Read(dev, CNTL1, 1, false), Delay(100)];
    assert w.bus.trace[..|s.trace| + 2] == s1.trace;
  }

  /** `getMode`: the mode field, or 0 when the read fails. */
  function GetModeTxn(s: BusState, dev: Byte): (r: FieldReply)
    ensures r.bus.regs == s.regs
    ensures r.ok ==> r.bits == ModeOf(Peek(s.regs, dev, CNTL1))
    ensures !r.ok ==> r.bits == POWER_DOWN
  {
    ModeFieldIsLowNibble();
    ReadBitsTxn(s, dev, CNTL1, MODE, MODE_LENGTH)
  }

  /**
   * After a fully successful `setMode`, `getMode` reads back the requested
   * mode's low nibble, which for every mode code is the code itself.
   */
  lemma {:induction false} SetModeThenGetMode(s: BusState, dev: Byte, mode: Byte)
    requires Passes(s.script, 4)
    requires Next(SetModeTxn(s, dev, mode).script).Pass?
    ensures GetModeTxn(SetModeTxn(s, dev, mode), dev).bits == mode & 0x0F
    ensures mode in ModeCodes ==> GetModeTxn(SetModeTxn(s, dev, mode), dev).bits == mode
  {
    var r := SetModeTxn(s, dev, mode);
    assert ModeOf(Peek(r.regs, dev, CNTL1)) == mode & 0x0F;
    ModeCodesFitField();
  }

  /** The sensitivity in uT per count that `resolution` caches; other codes keep the cached value. */
  function SensitivityFor(res: Byte, current: real): (ut: real)
  {
    if res == BITS_14 then 0.6 else if res == BITS_16 then 0.15 else current
  }

  /** The resolution code the output-bit value denotes (`getResolution`). */
  function ResolutionOf(bit: bool): (res: Byte)
    ensures res == BITS_14 || res == BITS_16
    ensures (res != BITS_14) == bit
  {
    if bit then BITS_16 else BITS_14
  }

  /**
   * `resolution` followed by `getResolution`: when the CNTL1 write succeeded,
   * the bit reads back as the requested resolution and the cached
   * sensitivity is the one that resolution denotes.
   */
  lemma {:induction false} ResolutionReadBack(s: BusState, dev: Byte, res: Byte, current: real)
    requires res == BITS_14 || res == BITS_16
    requires WriteBitTxn(s, dev, CNTL1, res != 0, BIT).ok
    requires Next(WriteBitTxn(s, dev, CNTL1, res != 0, BIT).bus.script).Pass?
    ensures ResolutionOf(ReadBitTxn(WriteBitTxn(s, dev, CNTL1, res != 0, BIT).bus, dev, CNTL1, BIT).flag) == res
    ensures SensitivityFor(ResolutionOf(ReadBitTxn(WriteBitTxn(s, dev, CNTL1, res != 0, BIT).bus, dev, CNTL1, BIT).flag), 0.0)
         == SensitivityFor(res, current)
  {
    WriteThenReadBit(s, dev, CNTL1, res != 0, BIT);
  }

  /**
   * The cached sensitivity is updated even when the CNTL1 write fails: with
   * a failing bus the register keeps 14-bit output while the cache says 16 bit.
   */
  lemma ResolutionCacheNotTiedToWrite(s: BusState, dev: Byte, cached: real)
    requires !Next(s.script).Pass? && !BitAt(Peek(s.regs, dev, CNTL1), BIT)
    ensures WriteBitTxn(s, dev, CNTL1, BITS_16 != 0, BIT).bus.regs == s.regs
    ensures var after := Peek(WriteBitTxn(s, dev, CNTL1, BITS_16 != 0, BIT).bus.regs, dev, CNTL1);
      ResolutionOf(BitAt(after, BIT)) == BITS_14 &&
      SensitivityFor(BITS_16, cached) != SensitivityFor(ResolutionOf(BitAt(after, BIT)), cached)
  {
  }

  // ---------------------------------------------------------------------
  // Measurement data
  // ---------------------------------------------------------------------

  /**
   * The data-ready test as the C expression `st1 & (1 << position) == 1`
   * parses: `==` binds tighter than `&`, so it is `st1 & ((1 << position) == 1)`.
   */
  function ReadyTestAsParsed(st1: Byte, position: Byte): bool
    requires position < 8
  {
    st1 & (if (1 as Byte) << position == 1 then 1 else 0) != 0
  }

  /** Because DRDY is bit 0, the test as parsed is exactly the data-ready bit. */
  lemma ReadyTestIsDataReadyBit(st1: Byte)
    ensures ReadyTestAsParsed(st1, DRDY) <==> BitAt(st1, DRDY)
  {
  }

  /** The same expression at any other position never holds, whatever the bit. */
  lemma ReadyTestFailsElsewhere(st1: Byte, position: Byte)
    requires 0 < position < 8
    ensures !ReadyTestAsParsed(st1, position)
    ensures BitAt(st1 | (1 << position), position)
  {
  }

  /** What `readRawMag` makes of the bytes ST1, HXL..HZH, ST2. Each axis is sent low byte first. */
  function DecodeMagFrame(data: seq<Byte>): (m: MagRead)
    requires |data| == 8
    ensures !m.ReadFailed?
    ensures m.NotReady? <==> !BitAt(data[0], DRDY)
    ensures m.Overflowed? <==> BitAt(data[0], DRDY) && BitAt(data[7], HOFL)
    ensures m.Sample? <==> BitAt(data[0], DRDY) && !BitAt(data[7], HOFL)
  {
    ReadyTestIsDataReadyBit(data[0]);
    if !ReadyTestAsParsed(data[0], DRDY) then NotReady
    else if data[7] & (1 << HOFL) != 0 then Overflowed
    else Sample(Int16Of(data[2], data[1]), Int16Of(data[4], data[3]), Int16Of(data[6], data[5]))
  }

  /** The frame a device sends for a sample: status, then each axis low byte first, then status 2. */
  function EncodeMagFrame(st1: Byte, x: Int16, y: Int16, z: Int16, st2: Byte): (data: seq<Byte>)
    ensures |data| == 8 && data[0] == st1 && data[7] == st2
  {
    [st1, LowByte(x), HighByte(x), LowByte(y), HighByte(y), LowByte(z), HighByte(z), st2]
  }

  /** A ready, non-overflowed frame decodes to the sample it encodes. */
  lemma {:induction false} DecodeEncodeMagFrame(st1: Byte, x: Int16, y: Int16, z: Int16, st2: Byte)
    requires BitAt(st1, DRDY) && !BitAt(st2, HOFL)
    ensures DecodeMagFrame(EncodeMagFrame(st1, x, y, z, st2)) == Sample(x, y, z)
  {
    DecodeEncode(x);
    DecodeEncode(y);
    DecodeEncode(z);
  }

  /** A decoded sample determines the data bytes it came from. */
  lemma {:induction false} EncodeDecodeMagFrame(data: seq<Byte>)
    requires |data| == 8 && DecodeMagFrame(data).Sample?
    ensures var m := DecodeMagFrame(data); EncodeMagFrame(data[0], m.x, m.y, m.z, data[7]) == data
  {
    EncodeDecode(data[2], data[1]);
    EncodeDecode(data[4], data[3]);
    EncodeDecode(data[6], data[5]);
  }

  /** `readRawMag`: one 8-byte read from ST1, decoded. */
  function MagReadTxn(s: BusState, dev: Byte): (r: MagReply)
    ensures r.bus.regs == s.regs
    ensures r.status.ReadFailed? <==> !Next(s.script).Pass?
    ensures !r.status.ReadFailed? ==> r.status == DecodeMagFrame(Burst(s.regs, dev, ST1, 8))
    ensures r.bus.trace == s.trace + [Read(dev, ST1, 8, Next(s.script).Pass?)]
  {
    var rd := ReadTxn(s, dev, ST1, 8);
    MagReply(rd.bus, if rd.ok then DecodeMagFrame(rd.data) else ReadFailed)
  }

  /**
   * `readRawMag` in register terms: a failed read, or else DRDY of ST1, HOFL
   * of ST2 and each axis from its HxH/HxL register pair.
   */
  lemma {:induction false} MagReadRegisters(s: BusState, dev: Byte)
    ensures MagReadTxn(s, dev).status ==
      if !Next(s.script).Pass? then ReadFailed
      else if !BitAt(Peek(s.regs, dev, ST1), DRDY) then NotReady
      else if BitAt(Peek(s.regs, dev, ST2), HOFL) then Overflowed
      else Sample(Int16Of(Peek(s.regs, dev, HXH), Peek(s.regs, dev, HXL)),
                  Int16Of(Peek(s.regs, dev, HYH), Peek(s.regs, dev, HYL)),
                  Int16Of(Peek(s.regs, dev, HZH), Peek(s.regs, dev, HZL)))
  {
    if Next(s.script).Pass? {
      var b := Burst(s.regs, dev, ST1, 8);
      StatusBurstLayout();
      assert b[0] == Peek(s.regs, dev, ST1) && b[7] == Peek(s.regs, dev, ST2);
      assert b[1] == Peek(s.regs, dev, HXL) && b[2] == Peek(s.regs, dev, HXH);
      assert b[3] == Peek(s.regs, dev, HYL) && b[4] == Peek(s.regs, dev, HYH);
      assert b[5] == Peek(s.regs, dev, HZL) && b[6] == Peek(s.regs, dev, HZH);
      assert MagReadTxn(s, dev).status == DecodeMagFrame(b);
    }
  }

  /** `isDataMagReady`: a one-byte read of ST1, true only when it succeeds and DRDY is set. */
  function DataReadyTxn(s: BusState, dev: Byte): (r: FlagReply)
    ensures r.bus.regs == s.regs
    ensures r.flag <==> Next(s.script).Pass? && BitAt(Peek(s.regs, dev, ST1), DRDY)
  {
    var rd := ReadTxn(s, dev, ST1, 1);
    ReadyTestIsDataReadyBit(rd.data[0]);
    FlagReply(rd.bus, rd.ok, rd.ok && ReadyTestAsParsed(rd.data[0], DRDY))
  }

  /** `getDeviceId`: the WIA register, or 0 when the read fails. */
  function DeviceIdTxn(s: BusState, dev: Byte): (r: FieldReply)
    ensures r.bus.regs == s.regs
    ensures r.ok <==> Next(s.script).Pass?
    ensures r.bits == if r.ok then Peek(s.regs, dev, WIA) else 0
  {
    var rd := ReadTxn(s, dev, WIA, 1);
    FieldReply(rd.bus, rd.ok, if rd.ok then rd.data[0] else 0)
  }

  /** `checkConnection` holds exactly when WIA could be read and holds the AK8963's ID. */
  lemma {:induction false} CheckConnectionMeans(s: BusState, dev: Byte)
    ensures DeviceIdTxn(s, dev).bits == ID <==> Next(s.script).Pass? && Peek(s.regs, dev, WIA) == ID
  {
    assert ID != 0;
  }

  // ---------------------------------------------------------------------
  // Fuse-ROM sensitivity adjustment and initialisation
  // ---------------------------------------------------------------------

  /** The adjustment factor for a fuse-ROM byte: `(asa - 128) / 256 + 1`. */
  function SensitivityAdjustment(asa: Byte): (adj: real)
    ensures 0.5 <= adj <= 1.49609375
  {
    (asa as int as real - 128.0) / 256.0 + 1.0
  }

  /** The fuse-ROM byte an adjustment factor came from. */
  function AdjustmentCode(adj: real): int
  {
    ((adj - 1.0) * 256.0 + 128.0).Floor
  }

  /** The adjustment loses nothing: the fuse-ROM byte can be recovered from it. */
  lemma {:induction false} AdjustmentInverse(asa: Byte)
    ensures AdjustmentCode(SensitivityAdjustment(asa)) == asa as int
  {
    var a := SensitivityAdjustment(asa);
    assert (a - 1.0) * 256.0 + 128.0 == asa as int as real;
  }

  /**
   * `_initializeSensitivityAdjustment`: power down, wait 100 us, enter fuse-ROM
   * mode, read ASAX..ASAZ, power down. No outcome is checked; a failed read
   * leaves whatever the buffer held.
   */
  function SensAdjTxn(s: BusState, dev: Byte): (r: AdjReply)
    ensures 0.5 <= r.x <= 1.49609375 && 0.5 <= r.y <= 1.49609375 && 0.5 <= r.z <= 1.49609375
    ensures Passes(s.script, 5) ==>
      r.x == SensitivityAdjustment(Peek(s.regs, dev, ASAX)) &&
      r.y == SensitivityAdjustment(Peek(s.regs, dev, ASAY)) &&
      r.z == SensitivityAdjustment(Peek(s.regs, dev, ASAZ))
  {
    var s1 := DelayTxn(WriteBitsTxn(s, dev, CNTL1, POWER_DOWN, MODE, MODE_LENGTH).bus, 100);
    var fr := WriteBitsTxn(s1, dev, CNTL1, FUSE_ROM_ACCESS, MODE, MODE_LENGTH);
    var rd := ReadTxn(fr.bus, dev, ASAX, 3);
    var pd2 := WriteBitsTxn(rd.bus, dev, CNTL1, POWER_DOWN, MODE, MODE_LENGTH);
    FuseReadPasses(s, dev);
    AdjReply(pd2.bus, SensitivityAdjustment(rd.data[0]), SensitivityAdjustment(rd.data[1]),
      SensitivityAdjustment(rd.data[2]))
  }

  /** The three mode writes of the fuse-ROM sequence touch only CNTL1's mode field. */
  lemma {:induction false} SensAdjKeeps(s: BusState, dev: Byte)
    ensures SameExcept(SensAdjTxn(s, dev).bus.regs, s.regs, dev, CNTL1)
    ensures OutsideMode(Peek(SensAdjTxn(s, dev).bus.regs, dev, CNTL1)) == OutsideMode(Peek(s.regs, dev, CNTL1))
  {
    var s1 := DelayTxn(WriteBitsTxn(s, dev, CNTL1, POWER_DOWN, MODE, MODE_LENGTH).bus, 100);
    var fr := WriteBitsTxn(s1, dev, CNTL1, FUSE_ROM_ACCESS, MODE, MODE_LENGTH);
    var rd := ReadTxn(fr.bus, dev, ASAX, 3);
    ModeWriteKeeps(s, dev, POWER_DOWN);
    ModeWriteKeeps(s1, dev, FUSE_ROM_ACCESS);
    ModeWriteKeeps(rd.bus, dev, POWER_DOWN);
    SameExceptTransitive(s.regs, s1.regs, fr.bus.regs, dev, CNTL1);
    SameExceptTransitive(s.regs, rd.bus.regs, WriteBitsTxn(rd.bus, dev, CNTL1, POWER_DOWN, MODE, MODE_LENGTH).bus.regs, dev, CNTL1);
  }

  /** When the first five transfers succeed, the fuse-ROM read is the fifth and returns ASAX..ASAZ. */
  lemma {:induction false} FuseReadPasses(s: BusState, dev: Byte)
    ensures
      var s1 := DelayTxn(WriteBitsTxn(s, dev, CNTL1, POWER_DOWN, MODE, MODE_LENGTH).bus, 100);
      var fr := WriteBitsTxn(s1, dev, CNTL1, FUSE_ROM_ACCESS, MODE, MODE_LENGTH);
      Passes(s.script, 5) ==>
        SameExcept(fr.bus.regs, s.regs, dev, CNTL1) && Next(fr.bus.script).Pass?
  {
    var s1 := DelayTxn(WriteBitsTxn(s, dev, CNTL1, POWER_DOWN, MODE, MODE_LENGTH).bus, 100);
    var fr := WriteBitsTxn(s1, dev, CNTL1, FUSE_ROM_ACCESS, MODE, MODE_LENGTH);
    ModeWriteKeeps(s, dev, POWER_DOWN);
    ModeWriteKeeps(s1, dev, FUSE_ROM_ACCESS);
    if Passes(s.script, 5) {
      var t := s.script;
      PassesStep(t, 4);
      PassesStep(Rest(t), 3);
      PassesStep(Rest(Rest(t)), 2);
      PassesStep(Rest(Rest(Rest(t))), 1);
      PassesStep(Rest(Rest(Rest(Rest(t)))), 0);
      assert s1.script == Rest(Rest(t));
      assert fr.bus.script == Rest(Rest(Rest(Rest(t))));
    }
  }

  /** `initialize`: a soft reset, then the fuse-ROM sequence; only the soft reset decides the result. */
  function InitializeTxn(s: BusState, dev: Byte): (r: (WriteReply, AdjReply))
    ensures r.0.ok <==> Passes(s.script, 2)
    ensures r.0.ok ==> BitAt(Peek(r.1.bus.regs, dev, CNTL2), SRST)
  {
    var rst := WriteBitTxn(s, dev, CNTL2, true, SRST);
    var adj := SensAdjTxn(rst.bus, dev);
    SensAdjKeeps(rst.bus, dev);
    (rst, adj)
  }

  // ---------------------------------------------------------------------
  // The driver object
  // ---------------------------------------------------------------------

  class AK8963 {
    const address: Byte
    var com: Com?
    var xSensAdj: real
    var ySensAdj: real
    var zSensAdj: real
    var sensitivityUt: real
    var overflow: bool

    constructor (address: Byte)
      ensures this.address == address && com == null
      ensures sensitivityUt == INITIAL_SENSITIVITY_UT && !overflow
      ensures xSensAdj == INITIAL_SENS_ADJ && ySensAdj == INITIAL_SENS_ADJ && zSensAdj == INITIAL_SENS_ADJ
    {
      this.address := address;
      com := null;
      sensitivityUt := INITIAL_SENSITIVITY_UT;
      overflow := false;
      xSensAdj, ySensAdj, zSensAdj := INITIAL_SENS_ADJ, INITIAL_SENS_ADJ, INITIAL_SENS_ADJ;
    }

    method AttachInterface(c: Com?)
      modifies this`com
      ensures com == c
    {
      com := c;
    }

    /** `_readBytes`: fails without a bus. */
    method ReadBytes(reg: Byte, size: nat) returns (ok: bool, data: seq<Byte>)
      requires size < 256
      modifies com
      ensures |data| == size
      ensures com == null ==> !ok
      ensures com != null ==> ReadReply(com.State(), ok, data) == ReadTxn(old(com.State()), address, reg, size)
    {
      if com == null {
        return false, seq(size, _ => 0);
      }
      ok, data := com.ReadCom(address, reg, size);
    }

    /** `_writeBytes`: fails without a bus. */
    method WriteBytes(reg: Byte, data: seq<Byte>) returns (ok: bool)
      modifies com
      ensures com == null ==> !ok
      ensures com != null ==> WriteReply(com.State(), ok) == WriteTxn(old(com.State()), address, reg, data)
    {
      if com == null {
        return false;
      }
      ok := com.WriteCom(address, reg, data);
    }

    method ReadBit(reg: Byte, position: Byte) returns (ok: bool, bit: bool)
      requires position < 8
      modifies com
      ensures com == null ==> !ok && !bit
      ensures com != null ==> FlagReply(com.State(), ok, bit) == ReadBitTxn(old(com.State()), address, reg, position)
    {
      var data;
      ok, data := ReadBytes(reg, 1);
      bit := ok && data[0] & (1 << position) != 0;
    }

    method WriteBit(reg: Byte, bit: bool, position: Byte) returns (ok: bool)
      requires position < 8
      modifies com
      ensures com == null ==> !ok
      ensures com != null ==> WriteReply(com.State(), ok) == WriteBitTxn(old(com.State()), address, reg, bit, position)
    {
      var readOk, data := ReadBytes(reg, 1);
      if !readOk {
        return false;
      }
      ok := WriteBytes(reg, [WriteBitValue(data[0], bit, position)]);
    }

    method ReadBits(reg: Byte, firstBit: Byte, length: Byte) returns (ok: bool, bits: Byte)
      requires ValidField(firstBit, length)
      modifies com
      ensures com == null ==> !ok && bits == 0
      ensures com != null ==> FieldReply(com.State(), ok, bits) == ReadBitsTxn(old(com.State()), address, reg, firstBit, length)
    {
      var data;
      ok, data := ReadBytes(reg, 1);
      bits := 0;
      if ok {
        bits := ReadBitsValue(data[0], firstBit, length);
      }
    }

    method WriteBits(reg: Byte, bits: Byte, firstBit: Byte, length: Byte) returns (ok: bool)
      requires ValidField(firstBit, length)
      modifies com
      ensures com == null ==> !ok
      ensures com != null ==> WriteReply(com.State(), ok) == WriteBitsTxn(old(com.State()), address, reg, bits, firstBit, length)
    {
      var readOk, data := ReadBytes(reg, 1);
      if !readOk {
        return false;
      }
      ok := WriteBytes(reg, [WriteBitsValue(data[0], bits, firstBit, length)]);
    }

    method GetDeviceId() returns (id: Byte)
      modifies com
      ensures com == null ==> id == 0
      ensures com != null ==> var r := DeviceIdTxn(old(com.State()), address); com.State() == r.bus && id == r.bits
    {
      var ok, data := ReadBytes(WIA, 1);
      id := if ok then data[0] else 0;
    }

    method CheckConnection() returns (connected: bool)
      modifies com
      ensures com == null ==> !connected
      ensures com != null ==> var r := DeviceIdTxn(old(com.State()), address); com.State() == r.bus && (connected <==> r.bits == ID)
    {
      var id := GetDeviceId();
      connected := id == ID;
    }

    method GetDataReady() returns (ready: bool)
      modifies com
      ensures com == null ==> !ready
      ensures com != null ==> var r := ReadBitTxn(old(com.State()), address, ST1, DRDY); com.State() == r.bus && ready == r.flag
    {
      var _, bit := ReadBit(ST1, DRDY);
      ready := bit;
    }

    method GetDataOverrun() returns (overrun: bool)
      modifies com
      ensures com == null ==> !overrun
      ensures com != null ==> var r := ReadBitTxn(old(com.State()), address, ST1, DOR); com.State() == r.bus && overrun == r.flag
    {
      var _, bit := ReadBit(ST1, DOR);
      overrun := bit;
    }

    method GetOverflow() returns (o: bool)
      ensures o == overflow
    {
      o := overflow;
    }

    method PowerDown()
      modifies com
      ensures com != null ==> com.State() == WriteBitsTxn(old(com.State()), address, CNTL1, POWER_DOWN, MODE, MODE_LENGTH).bus
    {
      var _ := WriteBits(CNTL1, POWER_DOWN, MODE, MODE_LENGTH);
    }

    method StartMeasurement()
      modifies com
      ensures com != null ==> com.State() == WriteBitsTxn(old(com.State()), address, CNTL1, SINGLE_MEASUREMENT, MODE, MODE_LENGTH).bus
    {
      var _ := WriteBits(CNTL1, SINGLE_MEASUREMENT, MODE, MODE_LENGTH);
    }

    method SetMode(mode: Byte)
      modifies com
      ensures com != null ==> com.State() == SetModeTxn(old(com.State()), address, mode)
    {
      PowerDown();
      if com != null {
        com.Delay(100);
      }
      var _ := WriteBits(CNTL1, mode, MODE, MODE_LENGTH);
    }

    method GetMode() returns (mode: Byte)
      modifies com
      ensures com == null ==> mode == POWER_DOWN
      ensures com != null ==> var r := GetModeTxn(old(com.State()), address); com.State() == r.bus && mode == r.bits
    {
      ModeFieldIsLowNibble();
      var _, bits := ReadBits(CNTL1, MODE, MODE_LENGTH);
      mode := bits;
    }

    method Resolution(res: Byte)
      modifies this`sensitivityUt, com
      ensures sensitivityUt == SensitivityFor(res, old(sensitivityUt))
      ensures com != null ==> com.State() == WriteBitTxn(old(com.State()), address, CNTL1, res != 0, BIT).bus
    {
      var _ := WriteBit(CNTL1, res != 0, BIT);
      if res == BITS_14 {
        sensitivityUt := 0.6;
      } else if res == BITS_16 {
        sensitivityUt := 0.15;
      }
    }

    method GetResolution() returns (res: Byte)
      modifies com
      ensures com == null ==> res == BITS_14
      ensures com != null ==> var r := ReadBitTxn(old(com.State()), address, CNTL1, BIT); com.State() == r.bus && res == ResolutionOf(r.flag)
    {
      var _, bit := ReadBit(CNTL1, BIT);
      res := if bit then BITS_16 else BITS_14;
    }

    method SoftReset() returns (ok: bool)
      modifies com
      ensures com == null ==> !ok
      ensures com != null ==> WriteReply(com.State(), ok) == WriteBitTxn(old(com.State()), address, CNTL2, true, SRST)
    {
      ok := WriteBit(CNTL2, true, SRST);
    }

    /** `readRawMag`: the three axes of a ready, non-overflowed sample go to `mag`; otherwise `mag` is untouched. */
    method ReadRawMag(mag: array<Int16>) returns (ok: bool)
      requires mag.Length == 3
      modifies this`overflow, com, mag
      ensures com == null ==> !ok && overflow == old(overflow) && mag[..] == old(mag[..])
      ensures com != null ==>
        var m := MagReadTxn(old(com.State()), address);
        com.State() == m.bus && (ok <==> m.status.Sample?) &&
        (m.status.Sample? ==> !overflow && mag[..] == [m.status.x, m.status.y, m.status.z]) &&
        (m.status.Overflowed? ==> overflow) &&
        (!m.status.Sample? ==> mag[..] == old(mag[..])) &&
        (m.status.ReadFailed? || m.status.NotReady? ==> overflow == old(overflow))
    {
      var readOk, data := ReadBytes(ST1, 8);
      if !readOk {
        return false;
      }
      if ReadyTestAsParsed(data[0], DRDY) {
        if data[7] & (1 << HOFL) == 0 {
          mag[0] := Int16Of(data[2], data[1]);
          mag[1] := Int16Of(data[4], data[3]);
          mag[2] := Int16Of(data[6], data[5]);
          overflow := false;
          return true;
        }
        overflow := true;
      }
      return false;
    }

    method GetDataMagRaw(data: array<Int16>) returns (ok: bool)
      requires data.Length == 3
      modifies this`overflow, com, data
      ensures com == null ==> !ok && overflow == old(overflow) && data[..] == old(data[..])
      ensures com != null ==>
        var m := MagReadTxn(old(com.State()), address);
        com.State() == m.bus && (ok <==> m.status.Sample?) &&
        (m.status.Sample? ==> !overflow && data[..] == [m.status.x, m.status.y, m.status.z]) &&
        (m.status.Overflowed? ==> overflow) &&
        (!m.status.Sample? ==> data[..] == old(data[..])) &&
        (m.status.ReadFailed? || m.status.NotReady? ==> overflow == old(overflow))
    {
      ok := ReadRawMag(data);
    }

    method IsDataMagReady() returns (ready: bool)
      modifies com
      ensures com == null ==> !ready
      ensures com != null ==> var r := DataReadyTxn(old(com.State()), address); com.State() == r.bus && ready == r.flag
    {
      var ok, data := ReadBytes(ST1, 1);
      ready := ok && ReadyTestAsParsed(data[0], DRDY);
    }

    method InitializeSensitivityAdjustment()
      modifies this`xSensAdj, this`ySensAdj, this`zSensAdj, com
      ensures com != null ==>
        var r := SensAdjTxn(old(com.State()), address);
        com.State() == r.bus && xSensAdj == r.x && ySensAdj == r.y && zSensAdj == r.z
      ensures 0.5 <= xSensAdj <= 1.49609375 && 0.5 <= ySensAdj <= 1.49609375 && 0.5 <= zSensAdj <= 1.49609375
    {
      PowerDown();
      if com != null {
        com.Delay(100);
      }
      var _ := WriteBits(CNTL1, FUSE_ROM_ACCESS, MODE, MODE_LENGTH);
      var _, data := ReadBytes(ASAX, 3);
      xSensAdj := SensitivityAdjustment(data[0]);
      ySensAdj := SensitivityAdjustment(data[1]);
      zSensAdj := SensitivityAdjustment(data[2]);
      PowerDown();
    }

    method Initialize() returns (ok: bool)
      modifies this`xSensAdj, this`ySensAdj, this`zSensAdj, com
      ensures com == null ==> !ok
      ensures com != null ==>
        var r := InitializeTxn(old(com.State()), address);
        com.State() == r.1.bus && ok == r.0.ok && xSensAdj == r.1.x && ySensAdj == r.1.y && zSensAdj == r.1.z
    {
      ok := SoftReset();
      InitializeSensitivityAdjustment();
    }
  }
}

/** What the driver's bus-level behaviour amounts to: which transactions each
    operation issues, what it returns, and what is refused before the bus is
    touched. Every lemma is about the Spec functions the `Iqs231` methods are
    proved to follow. */
module DeviceFacts {
  import opened Bus
  import opened Errors
  import opened RegisterMap
  import opened Flags
  import opened RegValues
  import opened Bitfields
  import opened Device

  /** Neither of the next two transactions is scripted to fail. */
  predicate NextTwoSucceed(s: BusState) {
    |s.log| !in s.faults && |s.log| + 1 !in s.faults
  }

  // ----- single register reads

  /** A healthy register read returns the first response byte as the event
      set and the second as the value, and consumes both. */
  lemma ReadRegDecodes(s: BusState, device: bv8, reg: Register, e: bv8, v: bv8, rest: seq<bv8>)
    requires |s.log| !in s.faults && s.script == [e, v] + rest
    ensures ReadRegSpec(s, device, reg).result == Ok(RegValue(MainEvents(e), v))
    ensures ReadRegSpec(s, device, reg).bus.script == rest
  {
    var rx := Received(s.script, 2);
    assert rx == [e, v];
    assert Remaining(s.script, 2) == rest;
  }

  /** A typed read applies its conversion to the value byte and keeps the events byte. */
  lemma ReadRegTDecodes<T>(s: BusState, device: bv8, reg: Register, conv: bv8 -> T, e: bv8, v: bv8, rest: seq<bv8>)
    requires |s.log| !in s.faults && s.script == [e, v] + rest
    ensures ReadRegTSpec(s, device, reg, conv).result == Ok(RegValue(MainEvents(e), conv(v)))
    ensures ReadRegTSpec(s, device, reg, conv).bus == ReadRegSpec(s, device, reg).bus
  {
    ReadRegDecodes(s, device, reg, e, v, rest);
  }

  /** Example from the register map: status 0x01 (PROX) and value 0x40. */
  lemma ReadRegExample(s: BusState, device: bv8)
    requires |s.log| !in s.faults && s.script == [0x01, 0x40]
    ensures ReadRegSpec(s, device, Register.ProductNumber).result == Ok(RegValue(MainEvents.PROX, 0x40))
    ensures ReadRegSpec(s, device, Register.ProductNumber).bus.log == s.log + [WriteRead(device, [0x00], 2)]
  {
    ReadRegDecodes(s, device, Register.ProductNumber, 0x01, 0x40, []);
  }

  // ----- 16-bit reads

  /** A healthy 16-bit read issues two write_reads, at `reg` and at the next
      address, and combines the two value bytes high-then-low and the two
      event bytes by union. */
  lemma ReadReg16Pairs(s: BusState, device: bv8, reg: Register, e1: bv8, hi: bv8, e2: bv8, lo: bv8, rest: seq<bv8>)
    requires reg != TimerRedoAti && NextTwoSucceed(s)
    requires s.script == [e1, hi, e2, lo] + rest
    ensures var st := ReadReg16Spec(s, device, reg);
      && st.bus.log == s.log + [WriteRead(device, [Address(reg) as bv8], 2), WriteRead(device, [(Address(reg) + 1) as bv8], 2)]
      && st.bus.script == rest
      && st.result == Ok(RegValue(MainEvents(e1 | e2), ((hi as bv16) << 8) | (lo as bv16)))
  {
    var first := ReadRegSpec(s, device, reg);
    ReadRegDecodes(s, device, reg, e1, hi, [e2, lo] + rest);
    var low := Next(reg).value;
    assert Address(low) == Address(reg) + 1;
    var second := ReadRegSpec(first.bus, device, low);
    ReadRegDecodes(first.bus, device, low, e2, lo, rest);
    assert ReadReg16Spec(s, device, reg) == Step(Ok(Combine16(first.result.value, second.result.value)), second.bus);
  }

  /** Whatever the script holds, a healthy 16-bit read consumes exactly four
      response bytes: the first and third are the two event bytes, the second
      and fourth the high and low value bytes (0x00 past the script's end). */
  lemma ReadReg16Consumes(s: BusState, device: bv8, reg: Register)
    requires reg != TimerRedoAti && NextTwoSucceed(s)
    ensures var rx := Received(s.script, 4);
      var st := ReadReg16Spec(s, device, reg);
      && st.result == Ok(RegValue(MainEvents(rx[0] | rx[2]), ((rx[1] as bv16) << 8) | (rx[3] as bv16)))
      && st.bus.script == Remaining(s.script, 4)
  {
    var rx := Received(s.script, 4);
    ReceivedThenReceived(s.script, 2, 2);
    var first := ReadRegSpec(s, device, reg);
    assert first.result.value == RegValue(MainEvents(rx[0]), rx[1]);
    var second := ReadRegSpec(first.bus, device, Next(reg).value);
    assert second.result.value == RegValue(MainEvents(rx[2]), rx[3]);
    assert ReadReg16Spec(s, device, reg) == Step(Ok(Combine16(first.result.value, second.result.value)), second.bus);
  }

  /** Example: events 0x02 then 0x04, bytes 0x03 then 0x05, give 0x0305 with events 0x06. */
  lemma ReadReg16Example(s: BusState, device: bv8)
    requires NextTwoSucceed(s) && s.script == [0x02, 0x03, 0x04, 0x05]
    ensures ReadReg16Spec(s, device, Register.CH0_ACF_H).result == Ok(RegValue(MainEvents(0x06), 0x0305))
  {
    ReadReg16Pairs(s, device, Register.CH0_ACF_H, 0x02, 0x03, 0x04, 0x05, []);
  }

  /** Asking for a 16-bit value at the last register fails with
      InvalidRegister, after the first read has been issued. */
  lemma ReadReg16AtLastRegister(s: BusState, device: bv8)
    requires |s.log| !in s.faults
    ensures ReadReg16Spec(s, device, TimerRedoAti).result == Err(InvalidRegister)
    ensures ReadReg16Spec(s, device, TimerRedoAti).bus.log == s.log + [WriteRead(device, [0x29], 2)]
  {
  }

  /** A failing first read ends the 16-bit read: one transaction, nothing consumed. */
  lemma ReadReg16FirstReadFails(s: BusState, device: bv8, reg: Register)
    requires |s.log| in s.faults
    ensures ReadReg16Spec(s, device, reg).result == Err(IoError(s.faults[|s.log|]))
    ensures ReadReg16Spec(s, device, reg).bus == s.(log := s.log + [WriteRead(device, [Address(reg) as bv8], 2)])
  {
  }

  /** A failing second read reports its own transport error after both transactions. */
  lemma ReadReg16SecondReadFails(s: BusState, device: bv8, reg: Register)
    requires reg != TimerRedoAti && |s.log| !in s.faults && |s.log| + 1 in s.faults
    ensures ReadReg16Spec(s, device, reg).result == Err(IoError(s.faults[|s.log| + 1]))
    ensures |ReadReg16Spec(s, device, reg).bus.log| == |s.log| + 2
  {
  }

  // ----- writes

  /** A read-only register is never written: nothing reaches the bus. */
  lemma WriteRegReadOnly(s: BusState, device: bv8, reg: Register, value: bv8)
    requires Address(reg) < 0x03 || Address(reg) > 0x10
    ensures WriteRegSpec(s, device, reg, value) == Step(Err(RegisterNotWritable), s)
  {
  }

  /** A writable register gets one two-byte write: its address, then the value. */
  lemma WriteRegWritable(s: BusState, device: bv8, reg: Register, value: bv8)
    requires 0x03 <= Address(reg) <= 0x10 && |s.log| !in s.faults
    ensures WriteRegSpec(s, device, reg, value) == Step(Ok(()), s.(log := s.log + [Transaction.Write(device, [Address(reg) as bv8, value])]))
  {
  }

  /** Writing a configuration value and reading the register back, when the
      chip answers with the byte just stored, yields the value written. */
  lemma SetThenGetOtpBank1(s: BusState, device: bv8, v: OtpBank1, e: bv8)
    requires NextTwoSucceed(s) && s.script == [e, EncodeOtpBank1(v)]
    ensures var w := WriteRegSpec(s, device, Register.OtpBank1, EncodeOtpBank1(v));
      && w.result == Ok(())
      && ReadRegTSpec(w.bus, device, Register.OtpBank1, DecodeOtpBank1).result == Ok(RegValue(MainEvents(e), v))
  {
    var w := WriteRegSpec(s, device, Register.OtpBank1, EncodeOtpBank1(v));
    ReadRegTDecodes(w.bus, device, Register.OtpBank1, DecodeOtpBank1, e, EncodeOtpBank1(v), []);
    OtpBank1RoundTrip(v);
  }

  lemma SetThenGetOtpBank2(s: BusState, device: bv8, v: OtpBank2, e: bv8)
    requires NextTwoSucceed(s) && s.script == [e, EncodeOtpBank2(v)]
    ensures var w := WriteRegSpec(s, device, Register.OtpBank2, EncodeOtpBank2(v));
      && w.result == Ok(())
      && ReadRegTSpec(w.bus, device, Register.OtpBank2, DecodeOtpBank2).result == Ok(RegValue(MainEvents(e), v))
  {
    var w := WriteRegSpec(s, device, Register.OtpBank2, EncodeOtpBank2(v));
    ReadRegTDecodes(w.bus, device, Register.OtpBank2, DecodeOtpBank2, e, EncodeOtpBank2(v), []);
    OtpBank2RoundTrip(v);
  }

  lemma SetThenGetOtpBank3(s: BusState, device: bv8, v: OtpBank3, e: bv8)
    requires NextTwoSucceed(s) && s.script == [e, EncodeOtpBank3(v)]
    ensures var w := WriteRegSpec(s, device, Register.OtpBank3, EncodeOtpBank3(v));
      && w.result == Ok(())
      && ReadRegTSpec(w.bus, device, Register.OtpBank3, DecodeOtpBank3).result == Ok(RegValue(MainEvents(e), v))
  {
    var w := WriteRegSpec(s, device, Register.OtpBank3, EncodeOtpBank3(v));
    ReadRegTDecodes(w.bus, device, Register.OtpBank3, DecodeOtpBank3, e, EncodeOtpBank3(v), []);
    OtpBank3RoundTrip(v);
  }

  lemma SetThenGetQuickRelease(s: BusState, device: bv8, v: QuickRelease, e: bv8)
    requires NextTwoSucceed(s) && s.script == [e, EncodeQuickRelease(v)]
    ensures var w := WriteRegSpec(s, device, Register.QuickRelease, EncodeQuickRelease(v));
      && w.result == Ok(())
      && ReadRegTSpec(w.bus, device, Register.QuickRelease, DecodeQuickRelease).result == Ok(RegValue(MainEvents(e), v))
  {
    var w := WriteRegSpec(s, device, Register.QuickRelease, EncodeQuickRelease(v));
    ReadRegTDecodes(w.bus, device, Register.QuickRelease, DecodeQuickRelease, e, EncodeQuickRelease(v), []);
    QuickReleaseRoundTrip(v);
  }

  lemma SetThenGetCh0Multipliers(s: BusState, device: bv8, v: ChannelMultiplier, e: bv8)
    requires NextTwoSucceed(s) && s.script == [e, EncodeChannelMultiplier(v)]
    ensures var w := WriteRegSpec(s, device, Register.CH0_Multipliers, EncodeChannelMultiplier(v));
      && w.result == Ok(())
      && ReadRegTSpec(w.bus, device, Register.CH0_Multipliers, DecodeChannelMultiplier).result == Ok(RegValue(MainEvents(e), v))
  {
    var w := WriteRegSpec(s, device, Register.CH0_Multipliers, EncodeChannelMultiplier(v));
    ReadRegTDecodes(w.bus, device, Register.CH0_Multipliers, DecodeChannelMultiplier, e, EncodeChannelMultiplier(v), []);
    ChannelMultiplierRoundTrip(v);
  }

  lemma SetThenGetProximityThreshold(s: BusState, device: bv8, v: ProximityThreshold, e: bv8)
    requires NextTwoSucceed(s) && s.script == [e, ProximityThresholdByte(v)]
    ensures var w := WriteRegSpec(s, device, Register.ProximityThreshold, ProximityThresholdByte(v));
      && w.result == Ok(())
      && ReadRegTSpec(w.bus, device, Register.ProximityThreshold, ProximityThresholdFrom).result == Ok(RegValue(MainEvents(e), v))
  {
    var w := WriteRegSpec(s, device, Register.ProximityThreshold, ProximityThresholdByte(v));
    ReadRegTDecodes(w.bus, device, Register.ProximityThreshold, ProximityThresholdFrom, e, ProximityThresholdByte(v), []);
  }

  // ----- touch threshold

  /** Decoding a stored code and encoding it again gives back the same code. */
  lemma TouchThresholdCodeRoundTrip(c: bv8)
    ensures TouchThresholdCode(TouchThresholdFromCode(c)) == Ok(c)
  {
  }

  /** An out-of-range touch threshold is refused before anything is sent. */
  lemma SetTouchThresholdOutOfRange(s: BusState, device: bv8, t: bv16)
    requires t < 4 || t > 1024
    ensures SetTouchThresholdSpec(s, device, t) == Step(Err(TouchThresholdOutOfRange), s)
  {
  }

  /** An in-range touch threshold is written to register 0x0A as a code that
      reads back as the request rounded down to 4 + a multiple of 4. */
  lemma SetTouchThresholdInRange(s: BusState, device: bv8, t: bv16)
    requires 4 <= t <= 1024 && |s.log| !in s.faults
    ensures var st := SetTouchThresholdSpec(s, device, t);
      && st.result == Ok(())
      && |st.bus.log| == |s.log| + 1
      && st.bus.log[..|s.log|] == s.log
      && var last := st.bus.log[|s.log|];
         && last.Write? && last.device == device && |last.bytes| == 2 && last.bytes[0] == 0x0A
         && TouchThresholdFromCode(last.bytes[1]) <= t <= TouchThresholdFromCode(last.bytes[1]) + 3
  {
    var code := TouchThresholdCode(t).value;
    var st := SetTouchThresholdSpec(s, device, t);
    assert st.bus.log == s.log + [Transaction.Write(device, [0x0A, code])];
  }

  /** Example: 1000 is stored as code 249, which reads back as exactly 1000. */
  lemma TouchThresholdExample()
    ensures TouchThresholdCode(1000) == Ok(249) && TouchThresholdFromCode(249) == 1000
    ensures TouchThresholdCode(7) == Ok(0) && TouchThresholdFromCode(0) == 4
  {
  }

  // ----- commands

  /** `send_commands` refuses exactly the command sets with bit 0 (STANDALONE)
      set, leaving the bus untouched; any other set is written to register 0x04. */
  lemma SendCommandsRefusesStandalone(s: BusState, device: bv8, c: Commands)
    ensures c.bits & 0x01 == 0x01 ==> SendCommandsSpec(s, device, c) == Step(Err(ShutdownCommandNotAllowed), s)
    ensures c.bits & 0x01 == 0x00 ==>
      SendCommandsSpec(s, device, c).bus == s.(log := s.log + [Transaction.Write(device, [0x04, c.bits])])
  {
    StandaloneIsBitZero(c);
  }

  /** `into_standalone` issues the single write [0x04, 0x01] that
      `send_commands` refuses. */
  lemma IntoStandaloneWrite(s: BusState, device: bv8)
    ensures WriteRegSpec(s, device, Register.Commands, Commands.STANDALONE.bits).bus
      == s.(log := s.log + [Transaction.Write(device, [0x04, 0x01])])
    ensures SendCommandsSpec(s, device, Commands.STANDALONE) == Step(Err(ShutdownCommandNotAllowed), s)
  {
    assert Address(Register.Commands) == 0x04 && IsWritable(Register.Commands);
  }

  // ----- identity and the as-written addresses

  /** On a chip that answers its register 0x00 with 0x40, `get_prod_nr` succeeds. */
  lemma ProdNrGenuineChip(s: BusState, device: bv8, e: bv8)
    requires |s.log| !in s.faults && s.script == [e, 0x40]
    ensures GetProdNrSpec(s, device).result == Ok(0x40)
  {
    ReadRegDecodes(s, device, Register.ProductNumber, e, 0x40, []);
  }

  /** Any other product number is reported back inside the error. */
  lemma ProdNrWrongChip(s: BusState, device: bv8, e: bv8, b: bv8)
    requires |s.log| !in s.faults && s.script == [e, b] && b != 0x40
    ensures GetProdNrSpec(s, device).result == Err(IncorrectProductNumber(b))
  {
    ReadRegDecodes(s, device, Register.ProductNumber, e, b, []);
  }

  /** As written, `get_software_version` reads register 0x00, so on a genuine
      chip (which answers 0x40 there) it always reports UnknownSoftwareVersion(0x40). */
  lemma SoftwareVersionReadsProductNumber(s: BusState, device: bv8, e: bv8)
    requires |s.log| !in s.faults && s.script == [e, 0x40]
    ensures GetSoftwareVersionSpec(s, device).bus.log == s.log + [WriteRead(device, [0x00], 2)]
    ensures GetSoftwareVersionSpec(s, device).result == Err(UnknownSoftwareVersion(0x40))
  {
    ReadRegDecodes(s, device, Register.ProductNumber, e, 0x40, []);
  }

  /** As written, `get_debug_events` reads register 0x00 rather than 0x02. */
  lemma DebugEventsReadsProductNumber(s: BusState, device: bv8, e: bv8, b: bv8)
    requires |s.log| !in s.faults && s.script == [e, b]
    ensures var st := ReadFlagsSpec(s, device, Register.ProductNumber, (x: bv8) => Flags.DebugEvents(x));
      st.bus.log == s.log + [WriteRead(device, [0x00], 2)] && st.result == Ok(Flags.DebugEvents(b))
  {
    ReadRegDecodes(s, device, Register.ProductNumber, e, b, []);
  }

  /** As written, `get_move_lower_reference_count` pairs 0x20 (high) with
      0x21 (low) instead of 0x1F with 0x20. */
  lemma MoveLowerReferencePairing(s: BusState, device: bv8, e1: bv8, hi: bv8, e2: bv8, lo: bv8)
    requires NextTwoSucceed(s) && s.script == [e1, hi, e2, lo]
    ensures var st := ReadReg16Spec(s, device, Register.CH1_LMOV_L);
      st.bus.log == s.log + [WriteRead(device, [0x20], 2), WriteRead(device, [0x21], 2)]
      && st.result == Ok(RegValue(MainEvents(e1 | e2), ((hi as bv16) << 8) | (lo as bv16)))
  {
    assert s.script == [e1, hi, e2, lo] + [];
    ReadReg16Pairs(s, device, Register.CH1_LMOV_L, e1, hi, e2, lo, []);
    LowerReferenceAddresses();
  }

  /** CH1_LMOV_L lives at 0x20 and the register after it at 0x21. */
  lemma LowerReferenceAddresses()
    ensures Address(Register.CH1_LMOV_L) as bv8 == 0x20 && (Address(Register.CH1_LMOV_L) + 1) as bv8 == 0x21
  {
  }
}

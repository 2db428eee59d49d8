/** The device handle: a bus plus the chip's 7-bit address. Each accessor
    issues one or two bus transactions and decodes the answer; each setter
    encodes its value, checks that the register is writable and issues a
    single write. The pure functions ending in `Spec` say, for a bus state
    before the call, what the call returns and what the bus state is after
    it; every method of `Iqs231` is proved to behave exactly as its Spec. */
module Device {
  import opened Bus
  import opened Errors
  import opened RegisterMap
  import opened Flags
  import opened RegValues
  import opened Bitfields

  // ---------------------------------------------------------------------
  // Bus addresses the chip can be strapped to

  datatype I2cAddress = Default | Test | Alt1 | Alt2

  function AddressByte(a: I2cAddress): bv8 {
    match a
    case Default => 0x44
    case Test => 0x45   // not used in normal operation
    case Alt1 => 0x46
    case Alt2 => 0x47
  }

  /** The address whose byte is `b`, if any. */
  function I2cAddressFrom(b: bv8): (a: Option<I2cAddress>)
    ensures a.Some? <==> 0x44 <= b <= 0x47
    ensures a.Some? ==> AddressByte(a.value) == b
  {
    if b == 0x44 then Some(Default)
    else if b == 0x45 then Some(Test)
    else if b == 0x46 then Some(Alt1)
    else if b == 0x47 then Some(Alt2)
    else None
  }

  // ---------------------------------------------------------------------
  // Pure transforms and checks the accessors apply

  /** The stored code for a touch threshold: thresholds outside 4 ..= 1024
      are refused; inside, the code is the largest whose decoded threshold
      does not exceed the request, so at most 3 counts are lost. */
  function TouchThresholdCode(t: bv16): (r: Result<bv8>)
    ensures r.Err? <==> t < 4 || t > 1024
    ensures r.Err? ==> r.error == TouchThresholdOutOfRange
    ensures r.Ok? ==> TouchThresholdFromCode(r.value) <= t <= TouchThresholdFromCode(r.value) + 3
  {
    if t < 4 || t > 1024 then Err(TouchThresholdOutOfRange)
    else Ok(((t - 4) >> 2) as bv8)
  }

  /** The touch threshold a stored code stands for: always within 4 ..= 1024. */
  function TouchThresholdFromCode(c: bv8): (t: bv16)
    ensures 4 <= t <= 1024
    ensures (t - 4) % 4 == 0
  {
    ((c as bv16) << 2) + 4
  }

  /** The identity check of `get_prod_nr`. */
  function CheckProductNumber(b: bv8): (r: Result<bv8>)
    ensures r.Ok? <==> b == PRODUCT_NUMBER
    ensures r.Ok? ==> r.value == 0x40
    ensures r.Err? ==> r.error == IncorrectProductNumber(b)
  {
    if b == PRODUCT_NUMBER then Ok(b) else Err(IncorrectProductNumber(b))
  }

  /** The revision check of `get_software_version`. */
  function CheckSoftwareVersion(b: bv8): (r: Result<SoftwareVersion>)
    ensures r.Ok? <==> b == 0x06 || b == 0x07
    ensures r.Ok? ==> SoftwareVersionByte(r.value) == b
    ensures r.Err? ==> r.error == UnknownSoftwareVersion(b)
  {
    match SoftwareVersionFrom(b)
    case Some(v) => Ok(v)
    case None => Err(UnknownSoftwareVersion(b))
  }

  /** The 16-bit reading made of a high and a low register read: the value
      is high byte then low byte, and an event seen by either read is kept. */
  function Combine16(hi: RegValue<bv8>, lo: RegValue<bv8>): (rv: RegValue<bv16>)
    ensures (rv.value >> 8) as bv8 == hi.value && (rv.value & 0xFF) as bv8 == lo.value
    ensures rv.mainEvents.Contains(hi.mainEvents) && rv.mainEvents.Contains(lo.mainEvents)
    ensures rv.mainEvents.bits & !hi.mainEvents.bits & !lo.mainEvents.bits == 0
  {
    RegValue(hi.mainEvents.Union(lo.mainEvents), ((hi.value as bv16) << 8) | (lo.value as bv16))
  }

  // ---------------------------------------------------------------------
  // Specifications of the bus-level operations

  /** Rust's `?`: an error ends the operation, a value goes on to `f`. */
  function AndThen<T, U>(st: Step<Result<T>>, f: T -> Result<U>): Step<Result<U>> {
    match st.result
    case Err(e) => Step(Err(e), st.bus)
    case Ok(v) => Step(f(v), st.bus)
  }

  /** `read_main_events`: a plain one-byte read; the byte is the event set. */
  function ReadMainEventsSpec(s: BusState, device: bv8): (st: Step<Result<MainEvents>>)
    ensures st.bus.log == s.log + [Transaction.Read(device, 1)] && st.bus.faults == s.faults
    ensures st.result.Err? <==> |s.log| in s.faults
    ensures st.result.Err? ==> st.result.error == IoError(s.faults[|s.log|]) && st.bus.script == s.script
    ensures st.result.Ok? ==> [st.result.value.bits] == Received(s.script, 1) && st.bus.script == Remaining(s.script, 1)
  {
    var tx := Transact(s, Transaction.Read(device, 1));
    match tx.result
    case Failed(e) => Step(Err(IoError(e)), tx.bus)
    case Done(rx) => Step(Ok(MainEvents(rx[0])), tx.bus)
  }

  /** `read_reg`: one write_read sending the register address and reading
      two bytes, the status byte and the register value. */
  function ReadRegSpec(s: BusState, device: bv8, reg: Register): (st: Step<Result<RegValue<bv8>>>)
    ensures st.bus.log == s.log + [WriteRead(device, [Address(reg) as bv8], 2)] && st.bus.faults == s.faults
    ensures st.result.Err? <==> |s.log| in s.faults
    ensures st.result.Err? ==> st.result.error == IoError(s.faults[|s.log|]) && st.bus.script == s.script
    ensures st.result.Ok? ==> [st.result.value.mainEvents.bits, st.result.value.value] == Received(s.script, 2)
    ensures st.result.Ok? ==> st.bus.script == Remaining(s.script, 2)
  {
    WriteReadSpec(s, device, [Address(reg) as bv8])
  }

  /** One write_read of `request` reading back a status byte and a value byte. */
  function WriteReadSpec(s: BusState, device: bv8, request: seq<bv8>): Step<Result<RegValue<bv8>>> {
    var tx := Transact(s, WriteRead(device, request, 2));
    match tx.result
    case Failed(e) => Step(Err(IoError(e)), tx.bus)
    case Done(rx) => Step(Ok(FromBytes(rx)), tx.bus)
  }

  /** `read_reg_t`: a register read whose payload is converted by `conv`. */
  function ReadRegTSpec<T>(s: BusState, device: bv8, reg: Register, conv: bv8 -> T): (st: Step<Result<RegValue<T>>>)
    ensures st.bus.log == s.log + [WriteRead(device, [Address(reg) as bv8], 2)] && st.bus.faults == s.faults
    ensures st.result.Err? <==> |s.log| in s.faults
    ensures st.result.Err? ==> st.result.error == IoError(s.faults[|s.log|]) && st.bus.script == s.script
    ensures st.result.Ok? ==> st.result.value == RegValue(MainEvents(Received(s.script, 2)[0]), conv(Received(s.script, 2)[1]))
    ensures st.result.Ok? ==> st.bus.script == Remaining(s.script, 2)
  {
    AndThen(ReadRegSpec(s, device, reg), (rv: RegValue<bv8>) => Ok(rv.Map(conv)))
  }

  /** `read_reg16`: reads `reg`, then the register after it; fails with
      InvalidRegister, after the first read, when `reg` is the last one. */
  function ReadReg16Spec(s: BusState, device: bv8, reg: Register): (st: Step<Result<RegValue<bv16>>>)
    ensures st.bus.faults == s.faults
    ensures st.result.Ok? <==> |s.log| !in s.faults && reg != TimerRedoAti && |s.log| + 1 !in s.faults
    ensures |s.log| in s.faults ==> st.result == Err(IoError(s.faults[|s.log|]))
    ensures |s.log| !in s.faults && reg == TimerRedoAti ==> st.result == Err(InvalidRegister)
    ensures |s.log| !in s.faults && reg != TimerRedoAti && |s.log| + 1 in s.faults ==>
      st.result == Err(IoError(s.faults[|s.log| + 1]))
    ensures |st.bus.log| == |s.log| + (if st.result.Ok? || (|s.log| !in s.faults && reg != TimerRedoAti) then 2 else 1)
  {
    var hi := ReadRegSpec(s, device, reg);
    if hi.result.Err? then Step(Err(hi.result.error), hi.bus)
    else match Next(reg)
      case Err(e) => Step(Err(e), hi.bus)
      case Ok(low) =>
        var lo := ReadRegSpec(hi.bus, device, low);
        if lo.result.Err? then Step(Err(lo.result.error), lo.bus)
        else Step(Ok(Combine16(hi.result.value, lo.result.value)), lo.bus)
  }

  /** `write_reg`: a read-only register is refused before anything is sent;
      a writable one gets exactly one write of its address and the value. */
  function WriteRegSpec(s: BusState, device: bv8, reg: Register, value: bv8): (st: Step<Result<()>>)
    ensures !IsWritable(reg) ==> st == Step(Err(RegisterNotWritable), s)
    ensures IsWritable(reg) ==> st.bus == s.(log := s.log + [Transaction.Write(device, [Address(reg) as bv8, value])])
    ensures IsWritable(reg) ==> (st.result.Ok? <==> |s.log| !in s.faults)
    ensures IsWritable(reg) && st.result.Err? ==> st.result.error == IoError(s.faults[|s.log|])
  {
    if IsWritable(reg) then WriteBytesSpec(s, device, [Address(reg) as bv8, value])
    else Step(Err(RegisterNotWritable), s)
  }

  /** One plain write of `bytes`; a transport failure becomes IoError. */
  function WriteBytesSpec(s: BusState, device: bv8, bytes: seq<bv8>): Step<Result<()>> {
    var tx := Transact(s, Transaction.Write(device, bytes));
    match tx.result
    case Failed(e) => Step(Err(IoError(e)), tx.bus)
    case Done(_) => Step(Ok(()), tx.bus)
  }

  /** `set_touch_threshold`: range check first, then the encoded write. */
  function SetTouchThresholdSpec(s: BusState, device: bv8, t: bv16): (st: Step<Result<()>>)
    ensures t < 4 || t > 1024 ==> st == Step(Err(TouchThresholdOutOfRange), s)
    ensures 4 <= t <= 1024 ==>
      st.bus == s.(log := s.log + [Transaction.Write(device, [0x0A, TouchThresholdCode(t).value])])
    ensures 4 <= t <= 1024 ==> (st.result.Ok? <==> |s.log| !in s.faults)
    ensures 4 <= t <= 1024 && st.result.Err? ==> st.result.error == IoError(s.faults[|s.log|])
  {
    assert Address(Register.TouchThreshold) == 0x0A && IsWritable(Register.TouchThreshold);
    match TouchThresholdCode(t)
    case Err(e) => Step(Err(e), s)
    case Ok(code) => WriteRegSpec(s, device, Register.TouchThreshold, code)
  }

  /** `send_commands`: the STANDALONE bit is refused before anything is sent. */
  function SendCommandsSpec(s: BusState, device: bv8, c: Commands): (st: Step<Result<()>>)
    ensures c.bits & 0x01 == 1 ==> st == Step(Err(ShutdownCommandNotAllowed), s)
    ensures c.bits & 0x01 == 0 ==> st.bus == s.(log := s.log + [Transaction.Write(device, [0x04, c.bits])])
    ensures c.bits & 0x01 == 0 ==> (st.result.Ok? <==> |s.log| !in s.faults)
    ensures c.bits & 0x01 == 0 && st.result.Err? ==> st.result.error == IoError(s.faults[|s.log|])
  {
    assert Address(Register.Commands) == 0x04 && IsWritable(Register.Commands);
    if c.Contains(Commands.STANDALONE) then Step(Err(ShutdownCommandNotAllowed), s)
    else WriteRegSpec(s, device, Register.Commands, c.bits)
  }

  /** `get_prod_nr`. */
  function GetProdNrSpec(s: BusState, device: bv8): (st: Step<Result<bv8>>)
    ensures st.bus == ReadRegSpec(s, device, Register.ProductNumber).bus
    ensures st.result.Ok? <==> |s.log| !in s.faults && Received(s.script, 2)[1] == PRODUCT_NUMBER
    ensures st.result.Ok? ==> st.result.value == 0x40
    ensures |s.log| in s.faults ==> st.result == Err(IoError(s.faults[|s.log|]))
    ensures |s.log| !in s.faults && Received(s.script, 2)[1] != PRODUCT_NUMBER ==>
      st.result == Err(IncorrectProductNumber(Received(s.script, 2)[1]))
  {
    AndThen(ReadRegSpec(s, device, Register.ProductNumber), (rv: RegValue<bv8>) => CheckProductNumber(rv.value))
  }

  /** `get_software_version`. As written it reads register 0x00
      (ProductNumber), not 0x01 (SoftwareVersion). */
  function GetSoftwareVersionSpec(s: BusState, device: bv8): (st: Step<Result<SoftwareVersion>>)
    ensures st.bus == ReadRegSpec(s, device, Register.ProductNumber).bus
    ensures st.result.Ok? <==> |s.log| !in s.faults && Received(s.script, 2)[1] in {0x06, 0x07}
    ensures st.result.Ok? ==> SoftwareVersionByte(st.result.value) == Received(s.script, 2)[1]
    ensures |s.log| in s.faults ==> st.result == Err(IoError(s.faults[|s.log|]))
    ensures |s.log| !in s.faults && Received(s.script, 2)[1] !in {0x06, 0x07} ==>
      st.result == Err(UnknownSoftwareVersion(Received(s.script, 2)[1]))
  {
    AndThen(ReadRegSpec(s, device, Register.ProductNumber), (rv: RegValue<bv8>) => CheckSoftwareVersion(rv.value))
  }

  /** A register read whose payload is a flag set; the events byte is dropped. */
  function ReadFlagsSpec<T>(s: BusState, device: bv8, reg: Register, flags: bv8 -> T): (st: Step<Result<T>>)
    ensures st.bus == ReadRegSpec(s, device, reg).bus
    ensures st.result.Err? <==> |s.log| in s.faults
    ensures st.result.Err? ==> st.result.error == IoError(s.faults[|s.log|])
    ensures st.result.Ok? ==> st.result.value == flags(Received(s.script, 2)[1])
  {
    AndThen(ReadRegSpec(s, device, reg), (rv: RegValue<bv8>) => Ok(flags(rv.value)))
  }

  // ---------------------------------------------------------------------
  // The handle

  class Iqs231 {
    const bus: I2cBus
    const address: I2cAddress
    /** Set once the handle has been given up (`with_address`, `destroy`,
        `into_standalone` take the handle by value). */
    ghost var consumed: bool

    /** `new`: a handle at the default address 0x44. */
    constructor (bus: I2cBus)
      ensures this.bus == bus && address == Default && !consumed
    {
      this.bus := bus;
      this.address := Default;
      consumed := false;
    }

    /** The struct literal `with_address` builds. */
    constructor Assemble(bus: I2cBus, address: I2cAddress)
      ensures this.bus == bus && this.address == address && !consumed
    {
      this.bus := bus;
      this.address := address;
      consumed := false;
    }

    /** `with_address`: the same bus at another address; the old handle is given up. */
    method WithAddress(address: I2cAddress) returns (d: Iqs231)
      requires !consumed
      modifies this
      ensures fresh(d) && d.bus == bus && d.address == address && !d.consumed
      ensures consumed
    {
      d := new Iqs231.Assemble(bus, address);
      consumed := true;
    }

    /** `destroy`: gives the bus back, untouched. */
    method Destroy() returns (b: I2cBus)
      requires !consumed
      modifies this
      ensures b == bus && consumed
    {
      b := bus;
      consumed := true;
    }

    function Device(): bv8 {
      AddressByte(address)
    }

    method ReadMainEvents() returns (r: Result<MainEvents>)
      requires !consumed
      modifies bus
      ensures Step(r, bus.State()) == ReadMainEventsSpec(old(bus.State()), Device())
    {
      var buf := new bv8[1](_ => 0);
      var tx := bus.Read(Device(), buf);
      if tx.Failed? {
        return Err(IoError(tx.error));
      }
      r := Ok(MainEvents(buf[0]));
    }

    method ReadReg(reg: Register) returns (r: Result<RegValue<bv8>>)
      requires !consumed
      modifies bus
      ensures Step(r, bus.State()) == ReadRegSpec(old(bus.State()), Device(), reg)
    {
      ghost var before := bus.State();
      var request := [Address(reg) as bv8];
      assert ReadRegSpec(before, Device(), reg) == WriteReadSpec(before, Device(), request);
      var buf := new bv8[2](_ => 0);
      var tx := bus.WriteRead(Device(), request, buf);
      if tx.Failed? {
        return Err(IoError(tx.error));
      }
      r := Ok(FromBytes(buf[..]));
    }

    method ReadRegT<T>(reg: Register, conv: bv8 -> T) returns (r: Result<RegValue<T>>)
      requires !consumed
      modifies bus
      ensures Step(r, bus.State()) == ReadRegTSpec(old(bus.State()), Device(), reg, conv)
    {
      var raw := ReadReg(reg);
      if raw.Err? {
        return Err(raw.error);
      }
      r := Ok(raw.value.Map(conv));
    }

    method ReadReg16(reg: Register) returns (r: Result<RegValue<bv16>>)
      requires !consumed
      modifies bus
      ensures Step(r, bus.State()) == ReadReg16Spec(old(bus.State()), Device(), reg)
    {
      var hi := ReadReg(reg);
      if hi.Err? {
        return Err(hi.error);
      }
      var next := Next(reg);
      if next.Err? {
        return Err(next.error);
      }
      var lo := ReadReg(next.value);
      if lo.Err? {
        return Err(lo.error);
      }
      r := Ok(Combine16(hi.value, lo.value));
    }

    method WriteReg(reg: Register, value: bv8) returns (r: Result<()>)
      requires !consumed
      modifies bus
      ensures Step(r, bus.State()) == WriteRegSpec(old(bus.State()), Device(), reg, value)
    {
      if IsWritable(reg) {
        ghost var before := bus.State();
        var bytes := [Address(reg) as bv8, value];
        assert WriteRegSpec(before, Device(), reg, value) == WriteBytesSpec(before, Device(), bytes);
        var tx := bus.Write(Device(), bytes);
        if tx.Failed? {
          return Err(IoError(tx.error));
        }
        r := Ok(());
      } else {
        r := Err(RegisterNotWritable);
      }
    }

    method ReadFlags<T>(reg: Register, flags: bv8 -> T) returns (r: Result<T>)
      requires !consumed
      modifies bus
      ensures Step(r, bus.State()) == ReadFlagsSpec(old(bus.State()), Device(), reg, flags)
    {
      var raw := ReadReg(reg);
      if raw.Err? {
        return Err(raw.error);
      }
      r := Ok(flags(raw.value.value));
    }

    // ----- identity

    method GetProdNr() returns (r: Result<bv8>)
      requires !consumed
      modifies bus
      ensures Step(r, bus.State()) == GetProdNrSpec(old(bus.State()), Device())
    {
      var raw := ReadReg(Register.ProductNumber);
      if raw.Err? {
        return Err(raw.error);
      }
      r := CheckProductNumber(raw.value.value);
    }

    method GetSoftwareVersion() returns (r: Result<SoftwareVersion>)
      requires !consumed
      modifies bus
      ensures Step(r, bus.State()) == GetSoftwareVersionSpec(old(bus.State()), Device())
    {
      // As written: reads ProductNumber (0x00), not SoftwareVersion (0x01).
      var raw := ReadReg(Register.ProductNumber);
      if raw.Err? {
        return Err(raw.error);
      }
      r := CheckSoftwareVersion(raw.value.value);
    }

    // ----- OTP banks

    method SetOtpBank1(value: OtpBank1) returns (r: Result<()>)
      requires !consumed
      modifies bus
      ensures Step(r, bus.State()) == WriteRegSpec(old(bus.State()), Device(), Register.OtpBank1, EncodeOtpBank1(value))
    {
      r := WriteReg(Register.OtpBank1, EncodeOtpBank1(value));
    }

    method GetOtpBank1() returns (r: Result<RegValue<OtpBank1>>)
      requires !consumed
      modifies bus
      ensures Step(r, bus.State()) == ReadRegTSpec(old(bus.State()), Device(), Register.OtpBank1, DecodeOtpBank1)
    {
      r := ReadRegT(Register.OtpBank1, DecodeOtpBank1);
    }

    method SetOtpBank2(value: OtpBank2) returns (r: Result<()>)
      requires !consumed
      modifies bus
      ensures Step(r, bus.State()) == WriteRegSpec(old(bus.State()), Device(), Register.OtpBank2, EncodeOtpBank2(value))
    {
      r := WriteReg(Register.OtpBank2, EncodeOtpBank2(value));
    }

    method GetOtpBank2() returns (r: Result<RegValue<OtpBank2>>)
      requires !consumed
      modifies bus
      ensures Step(r, bus.State()) == ReadRegTSpec(old(bus.State()), Device(), Register.OtpBank2, DecodeOtpBank2)
    {
      r := ReadRegT(Register.OtpBank2, DecodeOtpBank2);
    }

    method SetOtpBank3(value: OtpBank3) returns (r: Result<()>)
      requires !consumed
      modifies bus
      ensures Step(r, bus.State()) == WriteRegSpec(old(bus.State()), Device(), Register.OtpBank3, EncodeOtpBank3(value))
    {
      r := WriteReg(Register.OtpBank3, EncodeOtpBank3(value));
    }

    method GetOtpBank3() returns (r: Result<RegValue<OtpBank3>>)
      requires !consumed
      modifies bus
      ensures Step(r, bus.State()) == ReadRegTSpec(old(bus.State()), Device(), Register.OtpBank3, DecodeOtpBank3)
    {
      r := ReadRegT(Register.OtpBank3, DecodeOtpBank3);
    }

    // ----- thresholds

    method SetTouchThreshold(threshold: bv16) returns (r: Result<()>)
      requires !consumed
      modifies bus
      ensures Step(r, bus.State()) == SetTouchThresholdSpec(old(bus.State()), Device(), threshold)
    {
      if threshold < 4 || threshold > 1024 {
        r := Err(TouchThresholdOutOfRange);
      } else {
        var value := (threshold - 4) >> 2;
        r := WriteReg(Register.TouchThreshold, value as bv8);
      }
    }

    method GetTouchThreshold() returns (r: Result<RegValue<bv16>>)
      requires !consumed
      modifies bus
      ensures Step(r, bus.State()) == ReadRegTSpec(old(bus.State()), Device(), Register.TouchThreshold, TouchThresholdFromCode)
    {
      r := ReadRegT(Register.TouchThreshold, TouchThresholdFromCode);
    }

    method SetProximityThreshold(threshold: ProximityThreshold) returns (r: Result<()>)
      requires !consumed
      modifies bus
      ensures Step(r, bus.State()) == WriteRegSpec(old(bus.State()), Device(), Register.ProximityThreshold, ProximityThresholdByte(threshold))
    {
      r := WriteReg(Register.ProximityThreshold, ProximityThresholdByte(threshold));
    }

    method GetProximityThreshold() returns (r: Result<RegValue<ProximityThreshold>>)
      requires !consumed
      modifies bus
      ensures Step(r, bus.State()) == ReadRegTSpec(old(bus.State()), Device(), Register.ProximityThreshold, ProximityThresholdFrom)
    {
      r := ReadRegT(Register.ProximityThreshold, ProximityThresholdFrom);
    }

    method SetTempInterferenceThreshold(threshold: bv8) returns (r: Result<()>)
      requires !consumed
      modifies bus
      ensures Step(r, bus.State()) == WriteRegSpec(old(bus.State()), Device(), Register.TempInterferenceThreshold, threshold)
    {
      r := WriteReg(Register.TempInterferenceThreshold, threshold);
    }

    // ----- channel multipliers and compensation

    method SetCh0Multipliers(mult: ChannelMultiplier) returns (r: Result<()>)
      requires !consumed
      modifies bus
      ensures Step(r, bus.State()) == WriteRegSpec(old(bus.State()), Device(), Register.CH0_Multipliers, EncodeChannelMultiplier(mult))
    {
      r := WriteReg(Register.CH0_Multipliers, EncodeChannelMultiplier(mult));
    }

    method GetCh0Multipliers() returns (r: Result<RegValue<ChannelMultiplier>>)
      requires !consumed
      modifies bus
      ensures Step(r, bus.State()) == ReadRegTSpec(old(bus.State()), Device(), Register.CH0_Multipliers, DecodeChannelMultiplier)
    {
      r := ReadRegT(Register.CH0_Multipliers, DecodeChannelMultiplier);
    }

    method SetCh0Compensation(comp: bv8) returns (r: Result<()>)
      requires !consumed
      modifies bus
      ensures Step(r, bus.State()) == WriteRegSpec(old(bus.State()), Device(), Register.CH0_Compensation, comp)
    {
      r := WriteReg(Register.CH0_Compensation, comp);
    }

    method GetCh0Compensation() returns (r: Result<RegValue<bv8>>)
      requires !consumed
      modifies bus
      ensures Step(r, bus.State()) == ReadRegSpec(old(bus.State()), Device(), Register.CH0_Compensation)
    {
      r := ReadReg(Register.CH0_Compensation);
    }

    method SetCh1Multipliers(mult: ChannelMultiplier) returns (r: Result<()>)
      requires !consumed
      modifies bus
      ensures Step(r, bus.State()) == WriteRegSpec(old(bus.State()), Device(), Register.CH1_Multipliers, EncodeChannelMultiplier(mult))
    {
      r := WriteReg(Register.CH1_Multipliers, EncodeChannelMultiplier(mult));
    }

    method GetCh1Multipliers() returns (r: Result<RegValue<ChannelMultiplier>>)
      requires !consumed
      modifies bus
      ensures Step(r, bus.State()) == ReadRegTSpec(old(bus.State()), Device(), Register.CH1_Multipliers, DecodeChannelMultiplier)
    {
      r := ReadRegT(Register.CH1_Multipliers, DecodeChannelMultiplier);
    }

    method SetCh1Compensation(comp: bv8) returns (r: Result<()>)
      requires !consumed
      modifies bus
      ensures Step(r, bus.State()) == WriteRegSpec(old(bus.State()), Device(), Register.CH1_Compensation, comp)
    {
      r := WriteReg(Register.CH1_Compensation, comp);
    }

    method GetCh1Compensation() returns (r: Result<RegValue<bv8>>)
      requires !consumed
      modifies bus
      ensures Step(r, bus.State()) == ReadRegSpec(old(bus.State()), Device(), Register.CH1_Compensation)
    {
      r := ReadReg(Register.CH1_Compensation);
    }

    // ----- status flags

    method GetDebugEvents() returns (r: Result<DebugEvents>)
      requires !consumed
      modifies bus
      ensures Step(r, bus.State()) == ReadFlagsSpec(old(bus.State()), Device(), Register.ProductNumber, (b: bv8) => Flags.DebugEvents(b))
    {
      // As written: reads ProductNumber (0x00), not DebugEvents (0x02).
      r := ReadFlags(Register.ProductNumber, (b: bv8) => Flags.DebugEvents(b));
    }

    method GetSystemFlags() returns (r: Result<SystemFlags>)
      requires !consumed
      modifies bus
      ensures Step(r, bus.State()) == ReadFlagsSpec(old(bus.State()), Device(), Register.System_Flags, (b: bv8) => SystemFlags(b))
    {
      r := ReadFlags(Register.System_Flags, (b: bv8) => SystemFlags(b));
    }

    method GetUiFlags() returns (r: Result<UiFlags>)
      requires !consumed
      modifies bus
      ensures Step(r, bus.State()) == ReadFlagsSpec(old(bus.State()), Device(), Register.UI_Flags, (b: bv8) => UiFlags(b))
    {
      r := ReadFlags(Register.UI_Flags, (b: bv8) => UiFlags(b));
    }

    method GetEventFlags() returns (r: Result<EventFlags>)
      requires !consumed
      modifies bus
      ensures Step(r, bus.State()) == ReadFlagsSpec(old(bus.State()), Device(), Register.EventFlags, (b: bv8) => Flags.EventFlags(b))
    {
      r := ReadFlags(Register.EventFlags, (b: bv8) => Flags.EventFlags(b));
    }

    // ----- quick release

    method SetQuickRelease(quickRel: QuickRelease) returns (r: Result<()>)
      requires !consumed
      modifies bus
      ensures Step(r, bus.State()) == WriteRegSpec(old(bus.State()), Device(), Register.QuickRelease, EncodeQuickRelease(quickRel))
    {
      r := WriteReg(Register.QuickRelease, EncodeQuickRelease(quickRel));
    }

    method GetQuickRelease() returns (r: Result<RegValue<QuickRelease>>)
      requires !consumed
      modifies bus
      ensures Step(r, bus.State()) == ReadRegTSpec(old(bus.State()), Device(), Register.QuickRelease, DecodeQuickRelease)
    {
      r := ReadRegT(Register.QuickRelease, DecodeQuickRelease);
    }

    // ----- 16-bit counts and 8-bit timers

    method GetProxFilteredCount() returns (r: Result<RegValue<bv16>>)
      requires !consumed
      modifies bus
      ensures Step(r, bus.State()) == ReadReg16Spec(old(bus.State()), Device(), Register.CH0_ACF_H)
    {
      r := ReadReg16(Register.CH0_ACF_H);
    }

    method GetProxReferenceCount() returns (r: Result<RegValue<bv16>>)
      requires !consumed
      modifies bus
      ensures Step(r, bus.State()) == ReadReg16Spec(old(bus.State()), Device(), Register.CH0_LTA_H)
    {
      r := ReadReg16(Register.CH0_LTA_H);
    }

    method GetProxQuickReleaseDetectReference() returns (r: Result<RegValue<bv16>>)
      requires !consumed
      modifies bus
      ensures Step(r, bus.State()) == ReadReg16Spec(old(bus.State()), Device(), Register.CH0_QRD_H)
    {
      r := ReadReg16(Register.CH0_QRD_H);
    }

    method GetMoveFilteredCount() returns (r: Result<RegValue<bv16>>)
      requires !consumed
      modifies bus
      ensures Step(r, bus.State()) == ReadReg16Spec(old(bus.State()), Device(), Register.CH1_ACF_H)
    {
      r := ReadReg16(Register.CH1_ACF_H);
    }

    method GetMoveUpperReferenceCount() returns (r: Result<RegValue<bv16>>)
      requires !consumed
      modifies bus
      ensures Step(r, bus.State()) == ReadReg16Spec(old(bus.State()), Device(), Register.CH1_UMOV_H)
    {
      r := ReadReg16(Register.CH1_UMOV_H);
    }

    method GetMoveLowerReferenceCount() returns (r: Result<RegValue<bv16>>)
      requires !consumed
      modifies bus
      ensures Step(r, bus.State()) == ReadReg16Spec(old(bus.State()), Device(), Register.CH1_LMOV_L)
    {
      // As written: starts at CH1_LMOV_L (0x20), so it pairs 0x20 with 0x21,
      // not CH1_LMOV_H (0x1F) with 0x20.
      r := ReadReg16(Register.CH1_LMOV_L);
    }

    method GetMoveUnfilteredCount() returns (r: Result<RegValue<bv16>>)
      requires !consumed
      modifies bus
      ensures Step(r, bus.State()) == ReadReg16Spec(old(bus.State()), Device(), Register.CH1_RAW_H)
    {
      r := ReadReg16(Register.CH1_RAW_H);
    }

    method GetTempReference() returns (r: Result<RegValue<bv16>>)
      requires !consumed
      modifies bus
      ensures Step(r, bus.State()) == ReadReg16Spec(old(bus.State()), Device(), Register.Temperature_H)
    {
      r := ReadReg16(Register.Temperature_H);
    }

    method GetLtaHaltTimer() returns (r: Result<RegValue<bv16>>)
      requires !consumed
      modifies bus
      ensures Step(r, bus.State()) == ReadReg16Spec(old(bus.State()), Device(), Register.LtaHaltTimer_H)
    {
      r := ReadReg16(Register.LtaHaltTimer_H);
    }

    method GetFilterHaltTimer() returns (r: Result<RegValue<bv8>>)
      requires !consumed
      modifies bus
      ensures Step(r, bus.State()) == ReadRegSpec(old(bus.State()), Device(), Register.FilterHaltTimer)
    {
      r := ReadReg(Register.FilterHaltTimer);
    }

    method GetTimerReadInput() returns (r: Result<RegValue<bv8>>)
      requires !consumed
      modifies bus
      ensures Step(r, bus.State()) == ReadRegSpec(old(bus.State()), Device(), Register.TimerReadInput)
    {
      r := ReadReg(Register.TimerReadInput);
    }

    method GetTimerRedoAti() returns (r: Result<RegValue<bv8>>)
      requires !consumed
      modifies bus
      ensures Step(r, bus.State()) == ReadRegSpec(old(bus.State()), Device(), Register.TimerRedoAti)
    {
      r := ReadReg(Register.TimerRedoAti);
    }

    // ----- commands

    /** `into_standalone`: writes STANDALONE to the Commands register and gives
        the bus back; the handle is given up whether or not the write succeeds. */
    method IntoStandalone() returns (r: Result<I2cBus>)
      requires !consumed
      modifies this, bus
      ensures consumed
      ensures var st := WriteRegSpec(old(bus.State()), Device(), Register.Commands, Commands.STANDALONE.bits);
              bus.State() == st.bus && r == (if st.result.Ok? then Ok(bus) else Err(st.result.error))
    {
      var w := WriteReg(Register.Commands, Commands.STANDALONE.bits);
      consumed := true;
      if w.Err? {
        return Err(w.error);
      }
      r := Ok(bus);
    }

    method SendCommands(commands: Commands) returns (r: Result<()>)
      requires !consumed
      modifies bus
      ensures Step(r, bus.State()) == SendCommandsSpec(old(bus.State()), Device(), commands)
    {
      if commands.Contains(Commands.STANDALONE) {
        r := Err(ShutdownCommandNotAllowed);
      } else {
        r := WriteReg(Register.Commands, commands.bits);
      }
    }
  }
}

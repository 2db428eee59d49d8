/** The chip's register file: 42 one-byte registers at addresses 0x00 to 0x29
    (IQS231A datasheet register map), which of them may be written, and how
    the register after a given one is found. Also the two identity constants
    the driver checks the chip against. */
module RegisterMap {
  import opened Errors

  /** Every register of the chip, in address order. */
  datatype Register =
    | ProductNumber | SoftwareVersion | DebugEvents
    | Reserved | Commands | OtpBank1 | OtpBank2 | OtpBank3
    | QuickRelease | Movement | TouchThreshold | ProximityThreshold | TempInterferenceThreshold
    | CH0_Multipliers | CH0_Compensation | CH1_Multipliers | CH1_Compensation
    | System_Flags | UI_Flags | ATI_Flags | EventFlags
    | CH0_ACF_H | CH0_ACF_L | CH0_LTA_H | CH0_LTA_L | CH0_QRD_H | CH0_QRD_L
    | CH1_ACF_H | CH1_ACF_L | CH1_UMOV_H | CH1_UMOV_L | CH1_LMOV_H | CH1_LMOV_L
    | CH1_RAW_H | CH1_RAW_L | Temperature_H | Temperature_L | LtaHaltTimer_H | LtaHaltTimer_L
    | FilterHaltTimer | TimerReadInput | TimerRedoAti

  /** Number of registers; they occupy addresses 0 .. Count - 1. */
  const Count := 42

  /** The address of a register (a byte on the wire). */
  function Address(r: Register): (a: nat)
    ensures a < Count
  {
    match r
    case ProductNumber => 0x00
    case SoftwareVersion => 0x01
    case DebugEvents => 0x02
    case Reserved => 0x03
    case Commands => 0x04
    case OtpBank1 => 0x05
    case OtpBank2 => 0x06
    case OtpBank3 => 0x07
    case QuickRelease => 0x08
    case Movement => 0x09
    case TouchThreshold => 0x0A
    case ProximityThreshold => 0x0B
    case TempInterferenceThreshold => 0x0C
    case CH0_Multipliers => 0x0D
    case CH0_Compensation => 0x0E
    case CH1_Multipliers => 0x0F
    case CH1_Compensation => 0x10
    case System_Flags => 0x11
    case UI_Flags => 0x12
    case ATI_Flags => 0x13
    case EventFlags => 0x14
    case CH0_ACF_H => 0x15
    case CH0_ACF_L => 0x16
    case CH0_LTA_H => 0x17
    case CH0_LTA_L => 0x18
    case CH0_QRD_H => 0x19
    case CH0_QRD_L => 0x1A
    case CH1_ACF_H => 0x1B
    case CH1_ACF_L => 0x1C
    case CH1_UMOV_H => 0x1D
    case CH1_UMOV_L => 0x1E
    case CH1_LMOV_H => 0x1F
    case CH1_LMOV_L => 0x20
    case CH1_RAW_H => 0x21
    case CH1_RAW_L => 0x22
    case Temperature_H => 0x23
    case Temperature_L => 0x24
    case LtaHaltTimer_H => 0x25
    case LtaHaltTimer_L => 0x26
    case FilterHaltTimer => 0x27
    case TimerReadInput => 0x28
    case TimerRedoAti => 0x29
  }

  /** Only the configuration block 0x03 ..= 0x10 may be written; the
      identity, debug, flag, count and timer registers are read-only. */
  predicate IsWritable(r: Register)
    ensures IsWritable(r) <==> 0x03 <= Address(r) <= 0x10
  {
    match r
    case Reserved | Commands | OtpBank1 | OtpBank2 | OtpBank3
      | QuickRelease | Movement | TouchThreshold | ProximityThreshold | TempInterferenceThreshold
      | CH0_Multipliers | CH0_Compensation | CH1_Multipliers | CH1_Compensation => true
    case _ => false
  }

  /** The register at byte address `a` (`from_u8`). */
  function FromU8(a: bv8): (r: Result<Register>)
    ensures r.Ok? <==> a as int < Count
    ensures r.Ok? ==> Address(r.value) == a as int
    ensures r.Err? ==> r.error == InvalidRegister
  {
    AddressOfFromAddress(a as int);
    FromAddress(a as int)
  }

  /** The register at address `n`, or InvalidRegister when no register lives there. */
  function FromAddress(n: int): (r: Result<Register>)
    ensures r.Ok? <==> 0 <= n < Count
    ensures r.Err? ==> r.error == InvalidRegister
  {
    if n < 0 || n >= Count then Err(InvalidRegister)
    else match n
    case 0x00 => Ok(ProductNumber)
    case 0x01 => Ok(SoftwareVersion)
    case 0x02 => Ok(DebugEvents)
    case 0x03 => Ok(Reserved)
    case 0x04 => Ok(Commands)
    case 0x05 => Ok(OtpBank1)
    case 0x06 => Ok(OtpBank2)
    case 0x07 => Ok(OtpBank3)
    case 0x08 => Ok(QuickRelease)
    case 0x09 => Ok(Movement)
    case 0x0A => Ok(TouchThreshold)
    case 0x0B => Ok(ProximityThreshold)
    case 0x0C => Ok(TempInterferenceThreshold)
    case 0x0D => Ok(CH0_Multipliers)
    case 0x0E => Ok(CH0_Compensation)
    case 0x0F => Ok(CH1_Multipliers)
    case 0x10 => Ok(CH1_Compensation)
    case 0x11 => Ok(System_Flags)
    case 0x12 => Ok(UI_Flags)
    case 0x13 => Ok(ATI_Flags)
    case 0x14 => Ok(EventFlags)
    case 0x15 => Ok(CH0_ACF_H)
    case 0x16 => Ok(CH0_ACF_L)
    case 0x17 => Ok(CH0_LTA_H)
    case 0x18 => Ok(CH0_LTA_L)
    case 0x19 => Ok(CH0_QRD_H)
    case 0x1A => Ok(CH0_QRD_L)
    case 0x1B => Ok(CH1_ACF_H)
    case 0x1C => Ok(CH1_ACF_L)
    case 0x1D => Ok(CH1_UMOV_H)
    case 0x1E => Ok(CH1_UMOV_L)
    case 0x1F => Ok(CH1_LMOV_H)
    case 0x20 => Ok(CH1_LMOV_L)
    case 0x21 => Ok(CH1_RAW_H)
    case 0x22 => Ok(CH1_RAW_L)
    case 0x23 => Ok(Temperature_H)
    case 0x24 => Ok(Temperature_L)
    case 0x25 => Ok(LtaHaltTimer_H)
    case 0x26 => Ok(LtaHaltTimer_L)
    case 0x27 => Ok(FilterHaltTimer)
    case 0x28 => Ok(TimerReadInput)
    case _ => Ok(TimerRedoAti)  // 0x29
  }

  /** The register at the following address (the low byte of a 16-bit pair
      whose high byte is `r`); fails with InvalidRegister after the last register. */
  function Next(r: Register): (n: Result<Register>)
    ensures n.Ok? <==> r != TimerRedoAti
    ensures n.Ok? ==> Address(n.value) == Address(r) + 1
    ensures n.Err? ==> n.error == InvalidRegister
  {
    var a := Address(r) + 1;
    assert (a as bv8) as int == a;
    LastAddress(r);
    FromU8(a as bv8)
  }

  /** TimerRedoAti is the only register at the last address. */
  lemma LastAddress(r: Register)
    ensures Address(r) == Count - 1 <==> r == TimerRedoAti
  {
  }

  /** The register FromAddress finds lives at the address it was asked for. */
  lemma AddressOfFromAddress(n: int)
    ensures FromAddress(n).Ok? ==> Address(FromAddress(n).value) == n
  {
  }

  /** Addresses identify registers: FromU8 inverts Address. */
  lemma FromU8Address(r: Register)
    ensures FromU8(Address(r) as bv8) == Ok(r)
  {
    var a := Address(r);
    assert (a as bv8) as int == a;
    FromAddressOfAddress(r);
  }

  /** Looking a register up by its own address finds it. */
  lemma FromAddressOfAddress(r: Register)
    ensures FromAddress(Address(r)) == Ok(r)
  {
  }

  /** The addresses holding a writable register. */
  function WritableAddresses(): set<int> {
    set a | 0 <= a < Count && FromAddress(a).Ok? && IsWritable(FromAddress(a).value)
  }

  /** The writable registers are exactly the 14 at addresses 0x03 ..= 0x10. */
  lemma WritableCount()
    ensures forall a :: a in WritableAddresses() <==> 0x03 <= a <= 0x10
    ensures |WritableAddresses()| == 14
  {
    forall a
      ensures a in WritableAddresses() <==> 0x03 <= a <= 0x10
    {
      if 0 <= a < Count {
        AddressOfFromAddress(a);
      }
    }
    assert WritableAddresses() == Interval(0x03, 0x11);
    IntervalSize(0x03, 0x11);
  }

  /** The integers lo ..< hi. */
  function Interval(lo: int, hi: int): (s: set<int>)
    ensures forall a :: a in s <==> lo <= a < hi
    decreases hi - lo
  {
    if lo >= hi then {} else {lo} + Interval(lo + 1, hi)
  }

  lemma {:induction false} IntervalSize(lo: int, hi: int)
    requires lo <= hi
    ensures |Interval(lo, hi)| == hi - lo
    decreases hi - lo
  {
    if lo < hi {
      assert Interval(lo, hi) == {lo} + Interval(lo + 1, hi);
      IntervalSize(lo + 1, hi);
    }
  }

  /** The chip always reports product number 0x40. */
  const PRODUCT_NUMBER: bv8 := 0x40

  /** The two known software revisions (the B revision runs identical software). */
  datatype SoftwareVersion = IQS231A | IQS231B

  function SoftwareVersionByte(v: SoftwareVersion): bv8 {
    match v
    case IQS231A => 0x06
    case IQS231B => 0x07
  }

  /** The revision whose version byte is `b`, if any. */
  function SoftwareVersionFrom(b: bv8): (v: Option<SoftwareVersion>)
    ensures v.Some? <==> b == 0x06 || b == 0x07
    ensures v.Some? ==> SoftwareVersionByte(v.value) == b
  {
    if b == 0x06 then Some(IQS231A)
    else if b == 0x07 then Some(IQS231B)
    else None
  }
}

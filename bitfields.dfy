/** The packed one-byte configuration registers and their field enums.
    Fields are packed least-significant bit first, in declaration order, and
    together fill all eight bits; every 2- and 4-bit enum names all of its
    bit patterns, so decoding never fails. Field widths are bit-vector types,
    so a field value that does not fit its width cannot be built. */
module Bitfields {

  // ---------------------------------------------------------------------
  // Field enums

  /** Proximity threshold of OTP bank 1 (also register 0x0B). */
  datatype ProximityThreshold = Counts4 | Counts6 | Counts8 | Counts10

  function EncodeProximityThreshold(p: ProximityThreshold): bv2 {
    match p
    case Counts4 => 0
    case Counts6 => 1
    case Counts8 => 2
    case Counts10 => 3
  }

  function DecodeProximityThreshold(x: bv2): (p: ProximityThreshold)
    ensures EncodeProximityThreshold(p) == x
  {
    if x == 0 then Counts4 else if x == 1 then Counts6 else if x == 2 then Counts8 else Counts10
  }

  /** The byte written for a proximity threshold (its discriminant, `into()`). */
  function ProximityThresholdByte(p: ProximityThreshold): (b: bv8)
    ensures b <= 3
    ensures ProximityThresholdFrom(b) == p
  {
    EncodeProximityThreshold(p) as bv8
  }

  /** The proximity threshold of a register byte (`From<u8>`): only the two
      lowest bits matter, and the byte written for the result is exactly them. */
  function ProximityThresholdFrom(b: bv8): (p: ProximityThreshold)
    ensures EncodeProximityThreshold(p) as bv8 == b & 0x03
  {
    DecodeProximityThreshold((b & 0x03) as bv2)
  }

  /** User-interface mode of OTP bank 2. */
  datatype UiSelect = ProxNoMov | ProxWithMov | ProxWithMovTouchNoMov | ProxWithMovTouchOnIo2

  function EncodeUiSelect(u: UiSelect): bv2 {
    match u
    case ProxNoMov => 0
    case ProxWithMov => 1
    case ProxWithMovTouchNoMov => 2
    case ProxWithMovTouchOnIo2 => 3
  }

  function DecodeUiSelect(x: bv2): (u: UiSelect)
    ensures EncodeUiSelect(u) == x
  {
    if x == 0 then ProxNoMov else if x == 1 then ProxWithMov else if x == 2 then ProxWithMovTouchNoMov else ProxWithMovTouchOnIo2
  }

  /** Base value of OTP bank 2. */
  datatype BaseValue = Counts100 | Counts75 | Counts150 | Counts200

  function EncodeBaseValue(v: BaseValue): bv2 {
    match v
    case Counts100 => 0
    case Counts75 => 1
    case Counts150 => 2
    case Counts200 => 3
  }

  function DecodeBaseValue(x: bv2): (v: BaseValue)
    ensures EncodeBaseValue(v) == x
  {
    if x == 0 then Counts100 else if x == 1 then Counts75 else if x == 2 then Counts150 else Counts200
  }

  /** Sample rate of OTP bank 3. */
  datatype SampleRate = Rate30Hz | Rate100Hz | Rate8Hz | Rate4Hz

  function EncodeSampleRate(s: SampleRate): bv2 {
    match s
    case Rate30Hz => 0
    case Rate100Hz => 1
    case Rate8Hz => 2
    case Rate4Hz => 3
  }

  function DecodeSampleRate(x: bv2): (s: SampleRate)
    ensures EncodeSampleRate(s) == x
  {
    if x == 0 then Rate30Hz else if x == 1 then Rate100Hz else if x == 2 then Rate8Hz else Rate4Hz
  }

  /** Function of the IO2 pin, OTP bank 3. */
  datatype Io2Function = Sensitivity | Synchronize | Movement | Ignore

  function EncodeIo2Function(f: Io2Function): bv2 {
    match f
    case Sensitivity => 0
    case Synchronize => 1
    case Movement => 2
    case Ignore => 3
  }

  function DecodeIo2Function(x: bv2): (f: Io2Function)
    ensures EncodeIo2Function(f) == x
  {
    if x == 0 then Sensitivity else if x == 1 then Synchronize else if x == 2 then Movement else Ignore
  }

  /** Charge transfer frequency of OTP bank 3. */
  datatype ChargeTransferFrequency = Freq500kHz | Freq125kHz | Freq64kHz | Freq16kHz

  function EncodeChargeTransferFrequency(f: ChargeTransferFrequency): bv2 {
    match f
    case Freq500kHz => 0
    case Freq125kHz => 1
    case Freq64kHz => 2
    case Freq16kHz => 3
  }

  function DecodeChargeTransferFrequency(x: bv2): (f: ChargeTransferFrequency)
    ensures EncodeChargeTransferFrequency(f) == x
  {
    if x == 0 then Freq500kHz else if x == 1 then Freq125kHz else if x == 2 then Freq64kHz else Freq16kHz
  }

  /** Quick-release threshold: sixteen codes, each standing for a count. */
  datatype QuickReleaseThreshold =
    | Qrt100 | Qrt150 | Qrt50 | Qrt250 | Qrt10 | Qrt20 | Qrt25 | Qrt30
    | Qrt75 | Qrt200 | Qrt300 | Qrt400 | Qrt500 | Qrt750 | Qrt850 | Qrt1000

  function EncodeQuickReleaseThreshold(t: QuickReleaseThreshold): bv4 {
    match t
    case Qrt100 => 0x0
    case Qrt150 => 0x1
    case Qrt50 => 0x2
    case Qrt250 => 0x3
    case Qrt10 => 0x4
    case Qrt20 => 0x5
    case Qrt25 => 0x6
    case Qrt30 => 0x7
    case Qrt75 => 0x8
    case Qrt200 => 0x9
    case Qrt300 => 0xA
    case Qrt400 => 0xB
    case Qrt500 => 0xC
    case Qrt750 => 0xD
    case Qrt850 => 0xE
    case Qrt1000 => 0xF
  }

  function DecodeQuickReleaseThreshold(x: bv4): (t: QuickReleaseThreshold)
    ensures EncodeQuickReleaseThreshold(t) == x
  {
    match x as int
    case 0x0 => Qrt100
    case 0x1 => Qrt150
    case 0x2 => Qrt50
    case 0x3 => Qrt250
    case 0x4 => Qrt10
    case 0x5 => Qrt20
    case 0x6 => Qrt25
    case 0x7 => Qrt30
    case 0x8 => Qrt75
    case 0x9 => Qrt200
    case 0xA => Qrt300
    case 0xB => Qrt400
    case 0xC => Qrt500
    case 0xD => Qrt750
    case 0xE => Qrt850
    case _ => Qrt1000
  }

  /** The count a quick-release threshold code stands for (`counts`). */
  function QuickReleaseCounts(t: QuickReleaseThreshold): (c: nat)
    ensures 10 <= c <= 1000
  {
    match t
    case Qrt100 => 100
    case Qrt150 => 150
    case Qrt50 => 50
    case Qrt250 => 250
    case Qrt10 => 10
    case Qrt20 => 20
    case Qrt25 => 25
    case Qrt30 => 30
    case Qrt75 => 75
    case Qrt200 => 200
    case Qrt300 => 300
    case Qrt400 => 400
    case Qrt500 => 500
    case Qrt750 => 750
    case Qrt850 => 850
    case Qrt1000 => 1000
  }

  // ---------------------------------------------------------------------
  // Packed registers

  function BitOf(b: bool): bv8 { if b then 1 else 0 }

  /** OTP bank 1 (register 0x05): bits 0-1 touch threshold, 2-3 AC filter,
      4-5 proximity threshold, 6-7 I2C address. */
  datatype OtpBank1 = OtpBank1(touchThresh: bv2, acFilter: bv2, proxThresh: ProximityThreshold, i2cAddr: bv2)

  function EncodeOtpBank1(v: OtpBank1): (b: bv8)
    ensures b & 0x03 == v.touchThresh as bv8
    ensures (b >> 2) & 0x03 == v.acFilter as bv8
    ensures (b >> 4) & 0x03 == EncodeProximityThreshold(v.proxThresh) as bv8
    ensures b >> 6 == v.i2cAddr as bv8
  {
    (v.touchThresh as bv8)
    | ((v.acFilter as bv8) << 2)
    | ((EncodeProximityThreshold(v.proxThresh) as bv8) << 4)
    | ((v.i2cAddr as bv8) << 6)
  }

  function DecodeOtpBank1(b: bv8): (v: OtpBank1)
    ensures EncodeOtpBank1(v) == b
  {
    OtpBank1(
      (b & 0x03) as bv2,
      ((b >> 2) & 0x03) as bv2,
      DecodeProximityThreshold(((b >> 4) & 0x03) as bv2),
      (b >> 6) as bv2)
  }

  /** OTP bank 2 (register 0x06): bits 0-1 UI select, 2 quick release,
      3 fail-safe pulses on IO1, 4-5 base value, 6 target, 7 increase debounce. */
  datatype OtpBank2 = OtpBank2(
    uiSelect: UiSelect, quickRelease: bv1, failsafePulsesOnIo1: bool,
    baseValue: BaseValue, target: bv1, increaseDebounce: bool)

  function EncodeOtpBank2(v: OtpBank2): (b: bv8)
    ensures b & 0x03 == EncodeUiSelect(v.uiSelect) as bv8
    ensures (b >> 2) & 0x01 == v.quickRelease as bv8
    ensures ((b >> 3) & 0x01 == 1) == v.failsafePulsesOnIo1
    ensures (b >> 4) & 0x03 == EncodeBaseValue(v.baseValue) as bv8
    ensures (b >> 6) & 0x01 == v.target as bv8
    ensures (b >> 7 == 1) == v.increaseDebounce
  {
    (EncodeUiSelect(v.uiSelect) as bv8)
    | ((v.quickRelease as bv8) << 2)
    | (BitOf(v.failsafePulsesOnIo1) << 3)
    | ((EncodeBaseValue(v.baseValue) as bv8) << 4)
    | ((v.target as bv8) << 6)
    | (BitOf(v.increaseDebounce) << 7)
  }

  function DecodeOtpBank2(b: bv8): (v: OtpBank2)
    ensures EncodeOtpBank2(v) == b
  {
    OtpBank2(
      DecodeUiSelect((b & 0x03) as bv2),
      ((b >> 2) & 0x01) as bv1,
      (b >> 3) & 0x01 == 1,
      DecodeBaseValue(((b >> 4) & 0x03) as bv2),
      ((b >> 6) & 0x01) as bv1,
      (b >> 7) == 1)
  }

  /** OTP bank 3 (register 0x07): bits 0-1 sample rate, 2 ATI events on IO1,
      3-4 IO2 function, 5 temperature and interference compensation,
      6-7 charge transfer frequency. */
  datatype OtpBank3 = OtpBank3(
    sampleRate: SampleRate, atiEventsOnIo1: bv1, io2Function: Io2Function,
    tempInterferenceCompensation: bool, chargeTransferFreq: ChargeTransferFrequency)

  function EncodeOtpBank3(v: OtpBank3): (b: bv8)
    ensures b & 0x03 == EncodeSampleRate(v.sampleRate) as bv8
    ensures (b >> 2) & 0x01 == v.atiEventsOnIo1 as bv8
    ensures (b >> 3) & 0x03 == EncodeIo2Function(v.io2Function) as bv8
    ensures ((b >> 5) & 0x01 == 1) == v.tempInterferenceCompensation
    ensures b >> 6 == EncodeChargeTransferFrequency(v.chargeTransferFreq) as bv8
  {
    (EncodeSampleRate(v.sampleRate) as bv8)
    | ((v.atiEventsOnIo1 as bv8) << 2)
    | ((EncodeIo2Function(v.io2Function) as bv8) << 3)
    | (BitOf(v.tempInterferenceCompensation) << 5)
    | ((EncodeChargeTransferFrequency(v.chargeTransferFreq) as bv8) << 6)
  }

  function DecodeOtpBank3(b: bv8): (v: OtpBank3)
    ensures EncodeOtpBank3(v) == b
  {
    OtpBank3(
      DecodeSampleRate((b & 0x03) as bv2),
      ((b >> 2) & 0x01) as bv1,
      DecodeIo2Function(((b >> 3) & 0x03) as bv2),
      (b >> 5) & 0x01 == 1,
      DecodeChargeTransferFrequency((b >> 6) as bv2))
  }

  /** Quick release (register 0x08): bits 0-3 base (beta), 4-7 threshold code. */
  datatype QuickRelease = QuickRelease(base: bv4, threshold: QuickReleaseThreshold)

  function EncodeQuickRelease(v: QuickRelease): (b: bv8)
    ensures b & 0x0F == v.base as bv8
    ensures b >> 4 == EncodeQuickReleaseThreshold(v.threshold) as bv8
  {
    (v.base as bv8) | ((EncodeQuickReleaseThreshold(v.threshold) as bv8) << 4)
  }

  function DecodeQuickRelease(b: bv8): (v: QuickRelease)
    ensures EncodeQuickRelease(v) == b
  {
    QuickRelease((b & 0x0F) as bv4, DecodeQuickReleaseThreshold((b >> 4) as bv4))
  }

  /** Channel multipliers (registers 0x0D and 0x0F): bits 0-3 compensation
      multiplier, 4-5 sensitivity multiplier, 6-7 reserved (kept as read).
      In the driver the reserved field is private with no setter, so only a
      decoded byte can carry non-zero reserved bits; here any value of
      `reserved` can be built. */
  datatype ChannelMultiplier = ChannelMultiplier(compensationMultiplier: bv4, sensitivityMultiplier: bv2, reserved: bv2)

  function EncodeChannelMultiplier(v: ChannelMultiplier): (b: bv8)
    ensures b & 0x0F == v.compensationMultiplier as bv8
    ensures (b >> 4) & 0x03 == v.sensitivityMultiplier as bv8
    ensures b >> 6 == v.reserved as bv8
  {
    (v.compensationMultiplier as bv8)
    | ((v.sensitivityMultiplier as bv8) << 4)
    | ((v.reserved as bv8) << 6)
  }

  function DecodeChannelMultiplier(b: bv8): (v: ChannelMultiplier)
    ensures EncodeChannelMultiplier(v) == b
  {
    ChannelMultiplier((b & 0x0F) as bv4, ((b >> 4) & 0x03) as bv2, (b >> 6) as bv2)
  }

  // ---------------------------------------------------------------------
  // Round trips: decoding an encoded value gives back every field

  /** Each enum's discriminant decodes back to the same variant, so no two
      variants share a code. */
  lemma ProximityThresholdRoundTrip(p: ProximityThreshold)
    ensures DecodeProximityThreshold(EncodeProximityThreshold(p)) == p
  {
  }

  lemma UiSelectRoundTrip(u: UiSelect)
    ensures DecodeUiSelect(EncodeUiSelect(u)) == u
  {
  }

  lemma BaseValueRoundTrip(v: BaseValue)
    ensures DecodeBaseValue(EncodeBaseValue(v)) == v
  {
  }

  lemma SampleRateRoundTrip(r: SampleRate)
    ensures DecodeSampleRate(EncodeSampleRate(r)) == r
  {
  }

  lemma Io2FunctionRoundTrip(f: Io2Function)
    ensures DecodeIo2Function(EncodeIo2Function(f)) == f
  {
  }

  lemma ChargeTransferFrequencyRoundTrip(f: ChargeTransferFrequency)
    ensures DecodeChargeTransferFrequency(EncodeChargeTransferFrequency(f)) == f
  {
  }

  lemma QuickReleaseThresholdRoundTrip(t: QuickReleaseThreshold)
    ensures DecodeQuickReleaseThreshold(EncodeQuickReleaseThreshold(t)) == t
  {
  }

  lemma OtpBank1RoundTrip(v: OtpBank1)
    ensures DecodeOtpBank1(EncodeOtpBank1(v)) == v
  {
  }

  lemma OtpBank2RoundTrip(v: OtpBank2)
    ensures DecodeOtpBank2(EncodeOtpBank2(v)) == v
  {
  }

  lemma OtpBank3RoundTrip(v: OtpBank3)
    ensures DecodeOtpBank3(EncodeOtpBank3(v)) == v
  {
  }

  lemma QuickReleaseRoundTrip(v: QuickRelease)
    ensures DecodeQuickRelease(EncodeQuickRelease(v)) == v
  {
  }

  lemma ChannelMultiplierRoundTrip(v: ChannelMultiplier)
    ensures DecodeChannelMultiplier(EncodeChannelMultiplier(v)) == v
  {
  }

  /** Distinct threshold codes stand for distinct counts. */
  lemma QuickReleaseCountsInjective(s: QuickReleaseThreshold, t: QuickReleaseThreshold)
    ensures QuickReleaseCounts(s) == QuickReleaseCounts(t) ==> s == t
  {
  }

  // ---------------------------------------------------------------------
  // The packings pinned down by concrete bytes

  lemma OtpBank3Examples()
    ensures EncodeOtpBank3(DecodeOtpBank3(0).(chargeTransferFreq := Freq64kHz, sampleRate := Rate8Hz)) == 0x82
    ensures EncodeOtpBank3(DecodeOtpBank3(0).(chargeTransferFreq := Freq125kHz, sampleRate := Rate30Hz,
                                              atiEventsOnIo1 := 1, tempInterferenceCompensation := true)) == 0x64
  {
  }

  lemma QuickReleaseExamples()
    ensures DecodeQuickRelease(0xb4) == QuickRelease(4, Qrt400) && QuickReleaseCounts(Qrt400) == 400
    ensures EncodeQuickRelease(DecodeQuickRelease(0).(base := 5, threshold := Qrt200)) == 0x95
    ensures DecodeQuickRelease(0x4a) == QuickRelease(0xa, Qrt10) && QuickReleaseCounts(Qrt10) == 10
    ensures QuickReleaseCounts(DecodeQuickReleaseThreshold(0x4)) == 10
    ensures QuickReleaseCounts(DecodeQuickReleaseThreshold(0xF)) == 1000
  {
  }
}

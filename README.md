# IQS231 driver model

A Dafny model of the `iqs231` Rust driver for the Azoteq IQS231A/B
capacitive touch and proximity controller. The chip is reached over a
two-wire (I2C) bus. It exposes 42 one-byte registers at addresses
0x00–0x29. Every register read (a write_read of the register's address)
returns two bytes: a MainEvents status byte, then the register value;
`read_main_events` reads the status byte alone, with a plain one-byte read.

The model covers two source files.

- `src/registers.rs` (pure): the register map and its writability, the
  register after a given one, the read envelope `RegValue`, the six bit-flag
  sets, the packed configuration bytes (OTP banks 1–3, quick release,
  channel multipliers) with their field enums, and the quick-release counts.
- `src/device.rs` (imperative): the `Iqs231` handle. It owns a bus and an
  address and issues register reads and writes.

The bus is a stub class `Bus.I2cBus`. It logs every transaction issued,
including failing ones. It answers reads from a script of response bytes,
and reads past the end of the script return 0x00. It fails the transactions
whose log index is listed in its fault map. A failing transaction consumes
no response bytes.

Each handle method that uses the bus is proved to return exactly what a
pure function `Device.*Spec` of the bus state before the call gives, and to
leave the bus in the state that function gives (`IntoStandalone` is stated
through `Device.WriteRegSpec` of the command write). The lemmas in `DeviceFacts` state what
those functions amount to: which transactions are issued, what is decoded,
and what is refused before the bus is touched.

Three accessors are modelled as written, and each is marked with a comment
at its call site:

- `get_software_version` reads register 0x00 (ProductNumber), not 0x01. On a
  genuine chip it therefore always fails with `UnknownSoftwareVersion(0x40)`
  (`DeviceFacts.SoftwareVersionReadsProductNumber`).
- `get_debug_events` also reads register 0x00, not 0x02
  (`DeviceFacts.DebugEventsReadsProductNumber`).
- `get_move_lower_reference_count` starts its 16-bit read at `CH1_LMOV_L`
  (0x20). It therefore pairs 0x20 (high) with 0x21 (low), not 0x1F with
  0x20 (`DeviceFacts.MoveLowerReferencePairing`).

Files: `errors.dfy`, `bus.dfy`, `register_map.dfy`, `flags.dfy`,
`reg_value.dfy`, `bitfields.dfy`, `device.dfy`, `device_facts.dfy`.

## Model

| member | source | states |
|---|---|---|
| RegisterMap.Address | src/registers.rs:69-115 | every register's address is below 42, the number of registers |
| RegisterMap.FromU8 | src/registers.rs:142-144 | a byte names a register iff it is below 42; the register found lives at that address; any other byte gives InvalidRegister |
| RegisterMap.FromAddress | src/registers.rs:142-144 | the register lookup succeeds exactly on 0 ..= 41 and fails with InvalidRegister elsewhere |
| RegisterMap.AddressOfFromAddress | src/registers.rs:142-144 | the register found for an address lives at that address |
| RegisterMap.FromAddressOfAddress | src/registers.rs:142-144 | looking a register up by its own address finds that register |
| RegisterMap.FromU8Address | src/registers.rs:142-144 | looking up a register's own address gives back that register |
| RegisterMap.Next | src/registers.rs:138-140 | the next register exists for every register but TimerRedoAti, lives one address higher, and the last one gives InvalidRegister |
| RegisterMap.LastAddress | src/registers.rs:114 | TimerRedoAti is the only register at the last address 0x29 |
| RegisterMap.IsWritable | src/registers.rs:118-136 | a register is writable iff its address lies in 0x03 ..= 0x10 |
| RegisterMap.WritableCount | src/registers.rs:118-136 | the writable registers are exactly those at 0x03 ..= 0x10, 14 in all |
| RegisterMap.SoftwareVersionFrom | src/registers.rs:155-160 | a version byte is known iff it is 0x06 or 0x07, and the revision found has that byte |
| Flags.MainEvents.Union | src/registers.rs:176-186 | the union contains both operands and sets no bit that neither operand sets |
| Flags.UnionIsLeast | src/registers.rs:176-186 | any set containing both operands contains their union |
| Flags.StandaloneIsBitZero | src/registers.rs:162-174 | a command set contains STANDALONE iff its bit 0 is set |
| Flags.Commands.Contains | src/device.rs:313 | a command set contains another iff adding the other's bits changes nothing |
| RegValues.RegValue.Map | src/registers.rs:20-28 | mapping converts the payload and keeps the events byte |
| RegValues.RegValue.Split | src/registers.rs:16-18 | the pair of events and payload rebuilds the same envelope, so nothing is lost |
| RegValues.FromBytes | src/registers.rs:57-64 | the envelope of two bytes holds the first as events and the second as value, with no bit dropped |
| RegValues.FromBytesSplit | src/registers.rs:57-64 | the two bytes can be rebuilt from the envelope |
| RegValues.MapIdentity | src/registers.rs:20-28 | mapping the identity changes nothing |
| RegValues.MapCompose | src/registers.rs:20-28 | mapping twice equals mapping the composition |
| Bitfields.DecodeProximityThreshold | src/registers.rs:252-260 | every 2-bit code names a proximity threshold, which encodes back to the code |
| Bitfields.ProximityThresholdFrom | src/registers.rs:262-272 | only the two low bits of the byte matter; the threshold found encodes to exactly those bits |
| Bitfields.ProximityThresholdByte | src/registers.rs:252-260 | the byte written for a threshold is at most 3 and reads back as the same threshold |
| Bitfields.DecodeUiSelect | src/registers.rs:284-291 | every 2-bit code names a UI mode, which encodes back to the code |
| Bitfields.DecodeBaseValue | src/registers.rs:293-300 | every 2-bit code names a base value, which encodes back to the code |
| Bitfields.DecodeSampleRate | src/registers.rs:312-319 | every 2-bit code names a sample rate, which encodes back to the code |
| Bitfields.DecodeIo2Function | src/registers.rs:321-328 | every 2-bit code names an IO2 function, which encodes back to the code |
| Bitfields.DecodeChargeTransferFrequency | src/registers.rs:330-337 | every 2-bit code names a frequency, which encodes back to the code |
| Bitfields.DecodeQuickReleaseThreshold | src/registers.rs:345-364 | every 4-bit code names a threshold, which encodes back to the code |
| Bitfields.ProximityThresholdRoundTrip | src/registers.rs:252-260 | each proximity threshold's discriminant decodes back to that threshold |
| Bitfields.UiSelectRoundTrip | src/registers.rs:284-291 | each UI mode's discriminant decodes back to that mode |
| Bitfields.BaseValueRoundTrip | src/registers.rs:293-300 | each base value's discriminant decodes back to that base value |
| Bitfields.SampleRateRoundTrip | src/registers.rs:312-319 | each sample rate's discriminant decodes back to that rate |
| Bitfields.Io2FunctionRoundTrip | src/registers.rs:321-328 | each IO2 function's discriminant decodes back to that function |
| Bitfields.ChargeTransferFrequencyRoundTrip | src/registers.rs:330-337 | each frequency's discriminant decodes back to that frequency |
| Bitfields.QuickReleaseThresholdRoundTrip | src/registers.rs:345-364 | each quick-release threshold's discriminant decodes back to that threshold |
| Bitfields.QuickReleaseCounts | src/registers.rs:366-387 | every threshold stands for 10 ..= 1000 counts |
| Bitfields.QuickReleaseCountsInjective | src/registers.rs:366-387 | distinct thresholds stand for distinct counts |
| Bitfields.EncodeOtpBank1 | src/registers.rs:244-250 | the packed byte holds the touch threshold in bits 0-1, the AC filter in 2-3, the proximity threshold's code in 4-5 and the I2C address in 6-7 |
| Bitfields.DecodeOtpBank1 | src/registers.rs:244-250 | every byte unpacks into OTP bank 1 fields that pack back into the same byte |
| Bitfields.OtpBank1RoundTrip | src/registers.rs:244-250 | packing then unpacking OTP bank 1 gives back every field |
| Bitfields.EncodeOtpBank2 | src/registers.rs:274-282 | the packed byte holds the UI mode's code in bits 0-1, quick release in 2, fail-safe pulses in 3, the base value's code in 4-5, target in 6 and increase debounce in 7 |
| Bitfields.DecodeOtpBank2 | src/registers.rs:274-282 | every byte unpacks into OTP bank 2 fields that pack back into the same byte |
| Bitfields.OtpBank2RoundTrip | src/registers.rs:274-282 | packing then unpacking OTP bank 2 gives back every field |
| Bitfields.EncodeOtpBank3 | src/registers.rs:302-310 | the packed byte holds the sample rate's code in bits 0-1, ATI events in 2, the IO2 function's code in 3-4, compensation in 5 and the frequency's code in 6-7 |
| Bitfields.DecodeOtpBank3 | src/registers.rs:302-310 | every byte unpacks into OTP bank 3 fields that pack back into the same byte |
| Bitfields.OtpBank3RoundTrip | src/registers.rs:302-310 | packing then unpacking OTP bank 3 gives back every field |
| Bitfields.EncodeQuickRelease | src/registers.rs:339-343 | the packed byte holds the base in bits 0-3 and the threshold's code in 4-7 |
| Bitfields.DecodeQuickRelease | src/registers.rs:339-343 | every byte unpacks into a base and a threshold that pack back into the same byte |
| Bitfields.QuickReleaseRoundTrip | src/registers.rs:339-343 | packing then unpacking a quick-release setting gives back both fields |
| Bitfields.EncodeChannelMultiplier | src/registers.rs:389-394 | the packed byte holds the compensation multiplier in bits 0-3, the sensitivity multiplier in 4-5 and the reserved bits in 6-7 |
| Bitfields.DecodeChannelMultiplier | src/registers.rs:389-394 | every byte unpacks into multiplier fields, reserved bits included, that pack back into the same byte |
| Bitfields.ChannelMultiplierRoundTrip | src/registers.rs:389-394 | packing then unpacking channel multipliers gives back every field |
| Bitfields.OtpBank3Examples | src/registers.rs:396-411 | 64 kHz with 8 Hz packs to 0x82; 125 kHz, 30 Hz, ATI events and compensation packs to 0x64 |
| Bitfields.QuickReleaseExamples | src/registers.rs:413-429 | 0xb4 is base 4 with 400 counts; base 5 with Qrt200 is 0x95; 0x4a is base 0xa with 10 counts |
| Bus.Received | src/device.rs:339-355 | a read gets exactly the requested number of bytes: the scripted ones, then zeros |
| Bus.ReceivedThenReceived | src/device.rs:320-329 | two consecutive reads of n and m bytes take, and leave, the same bytes as one read of n + m |
| Bus.I2cBus.Write | src/device.rs:364-366 | a write is logged, and fails exactly when a fault is scripted for it |
| Bus.I2cBus.Read | src/device.rs:54-57 | a read is logged and fills the buffer in place with the next response bytes, or leaves it alone on a fault |
| Bus.I2cBus.WriteRead | src/device.rs:341-345 | a write_read is logged and fills the buffer in place with the next response bytes, or leaves it alone on a fault |
| Device.I2cAddressFrom | src/device.rs:13-25 | a byte is a valid chip address iff it is in 0x44 ..= 0x47, and the address found has that byte |
| Device.TouchThresholdCode | src/device.rs:114-121 | thresholds outside 4 ..= 1024 are refused with TouchThresholdOutOfRange; otherwise the code decodes to the request rounded down by at most 3 |
| Device.TouchThresholdFromCode | src/device.rs:123-127 | every stored code stands for a threshold of the form 4 + 4k within 4 ..= 1024 |
| Device.CheckProductNumber | src/device.rs:67-74 | the check passes iff the byte is 0x40, and otherwise reports the byte read |
| Device.CheckSoftwareVersion | src/device.rs:76-79 | the check passes iff the byte is 0x06 or 0x07, and otherwise reports the byte read |
| Device.Combine16 | src/device.rs:325-328 | the 16-bit value has the first byte as its high half and the second as its low half; the events are the union of both reads |
| Device.ReadMainEventsSpec | src/device.rs:53-60 | one plain one-byte read is logged; it fails exactly on a scripted fault, with IoError of that fault and nothing consumed; otherwise the byte read is the event set and one byte is consumed |
| Device.ReadRegSpec | src/device.rs:339-355 | one write_read of the register address, reading two bytes, is logged; a fault gives IoError and consumes nothing; otherwise the two bytes read are the events and the value, and two bytes are consumed |
| Device.ReadRegTSpec | src/device.rs:332-337 | one write_read of the register address is logged; a fault gives IoError and consumes nothing; otherwise the first byte read is the events and the converted second byte the value, and two bytes are consumed |
| Device.ReadReg16Spec | src/device.rs:320-329 | the 16-bit read succeeds iff neither of its two reads fails and the register is not the last; a first-read fault, InvalidRegister at the last register and a second-read fault are reported in that order, after one, one and two transactions |
| Device.WriteRegSpec | src/device.rs:357-370 | a read-only register gives RegisterNotWritable with the bus untouched; a writable one adds exactly one write of [address, value], which fails exactly on a scripted fault |
| Device.SetTouchThresholdSpec | src/device.rs:114-121 | a threshold outside 4 ..= 1024 is refused with the bus untouched; one inside adds exactly one write of [0x0A, code], which fails exactly on a scripted fault, with IoError of that fault |
| Device.SendCommandsSpec | src/device.rs:312-318 | a command byte with bit 0 set is refused with ShutdownCommandNotAllowed and the bus untouched; any other adds exactly one write of [0x04, byte], which fails exactly on a scripted fault, with IoError of that fault |
| Device.GetProdNrSpec | src/device.rs:67-74 | the read of register 0x00 passes iff it succeeds with value byte 0x40; a fault gives IoError and a wrong byte IncorrectProductNumber of that byte |
| Device.GetSoftwareVersionSpec | src/device.rs:76-79 | the read of register 0x00 (as written) passes iff it succeeds with value byte 0x06 or 0x07, giving that revision; a fault gives IoError and another byte UnknownSoftwareVersion of that byte |
| Device.ReadFlagsSpec | src/device.rs:186-204 | the register read fails exactly on a scripted fault, with IoError; otherwise the flag set is built from the value byte with every bit kept and the events byte dropped |
| Device.Iqs231.constructor | src/device.rs:33-38 | a new handle owns the bus at the default address 0x44 |
| Device.Iqs231.WithAddress | src/device.rs:40-42 | the new handle owns the same bus at the given address; the old handle is given up |
| Device.Iqs231.Destroy | src/device.rs:44-46 | the bus is handed back; the handle is given up |
| Device.Iqs231.ReadMainEvents | src/device.rs:53-60 | behaves as ReadMainEventsSpec |
| Device.Iqs231.ReadReg | src/device.rs:339-355 | behaves as ReadRegSpec |
| Device.Iqs231.ReadRegT | src/device.rs:332-337 | behaves as ReadRegSpec with the payload converted |
| Device.Iqs231.ReadReg16 | src/device.rs:320-329 | behaves as ReadReg16Spec: two reads combined, or the first error met |
| Device.Iqs231.WriteReg | src/device.rs:357-370 | behaves as WriteRegSpec |
| Device.Iqs231.ReadFlags | src/device.rs:186-204 | behaves as ReadFlagsSpec |
| Device.Iqs231.GetProdNr | src/device.rs:67-74 | behaves as a register 0x00 read followed by the product-number check |
| Device.Iqs231.GetSoftwareVersion | src/device.rs:76-79 | behaves as a register 0x00 read followed by the revision check |
| Device.Iqs231.SetOtpBank1 | src/device.rs:81-83 | behaves as a write of the packed OTP bank 1 byte to register 0x05 |
| Device.Iqs231.GetOtpBank1 | src/device.rs:85-90 | behaves as a register 0x05 read unpacked as OTP bank 1 |
| Device.Iqs231.SetOtpBank2 | src/device.rs:92-94 | behaves as a write of the packed OTP bank 2 byte to register 0x06 |
| Device.Iqs231.GetOtpBank2 | src/device.rs:96-101 | behaves as a register 0x06 read unpacked as OTP bank 2 |
| Device.Iqs231.SetOtpBank3 | src/device.rs:103-105 | behaves as a write of the packed OTP bank 3 byte to register 0x07 |
| Device.Iqs231.GetOtpBank3 | src/device.rs:107-112 | behaves as a register 0x07 read unpacked as OTP bank 3 |
| Device.Iqs231.SetTouchThreshold | src/device.rs:114-121 | behaves as the range check followed by a write of the code to register 0x0A |
| Device.Iqs231.GetTouchThreshold | src/device.rs:123-127 | behaves as a register 0x0A read decoded to a threshold |
| Device.Iqs231.SetProximityThreshold | src/device.rs:129-134 | behaves as a write of the threshold's code to register 0x0B |
| Device.Iqs231.GetProximityThreshold | src/device.rs:136-138 | behaves as a register 0x0B read decoded from its two low bits |
| Device.Iqs231.SetTempInterferenceThreshold | src/device.rs:142-144 | behaves as a write of the byte to register 0x0C |
| Device.Iqs231.SetCh0Multipliers | src/device.rs:146-148 | behaves as a write of the packed multipliers to register 0x0D |
| Device.Iqs231.GetCh0Multipliers | src/device.rs:150-156 | behaves as a register 0x0D read unpacked as multipliers |
| Device.Iqs231.SetCh0Compensation | src/device.rs:158-160 | behaves as a write of the byte to register 0x0E |
| Device.Iqs231.GetCh0Compensation | src/device.rs:162-164 | behaves as a register 0x0E read |
| Device.Iqs231.SetCh1Multipliers | src/device.rs:166-168 | behaves as a write of the packed multipliers to register 0x0F |
| Device.Iqs231.GetCh1Multipliers | src/device.rs:170-176 | behaves as a register 0x0F read unpacked as multipliers |
| Device.Iqs231.SetCh1Compensation | src/device.rs:178-180 | behaves as a write of the byte to register 0x10 |
| Device.Iqs231.GetCh1Compensation | src/device.rs:182-184 | behaves as a register 0x10 read |
| Device.Iqs231.GetDebugEvents | src/device.rs:186-189 | behaves as a register 0x00 read whose value byte becomes the debug flags (as written) |
| Device.Iqs231.GetSystemFlags | src/device.rs:191-194 | behaves as a register 0x11 read whose value byte becomes the system flags |
| Device.Iqs231.GetUiFlags | src/device.rs:196-199 | behaves as a register 0x12 read whose value byte becomes the UI flags |
| Device.Iqs231.GetEventFlags | src/device.rs:201-204 | behaves as a register 0x14 read whose value byte becomes the event flags |
| Device.Iqs231.SetQuickRelease | src/device.rs:221-223 | behaves as a write of the packed setting to register 0x08 |
| Device.Iqs231.GetQuickRelease | src/device.rs:225-228 | behaves as a register 0x08 read unpacked as a quick-release setting |
| Device.Iqs231.GetProxFilteredCount | src/device.rs:232-234 | behaves as the 16-bit read of 0x15 and 0x16 |
| Device.Iqs231.GetProxReferenceCount | src/device.rs:238-240 | behaves as the 16-bit read of 0x17 and 0x18 |
| Device.Iqs231.GetProxQuickReleaseDetectReference | src/device.rs:244-246 | behaves as the 16-bit read of 0x19 and 0x1A |
| Device.Iqs231.GetMoveFilteredCount | src/device.rs:250-252 | behaves as the 16-bit read of 0x1B and 0x1C |
| Device.Iqs231.GetMoveUpperReferenceCount | src/device.rs:256-258 | behaves as the 16-bit read of 0x1D and 0x1E |
| Device.Iqs231.GetMoveLowerReferenceCount | src/device.rs:262-264 | behaves as the 16-bit read starting at CH1_LMOV_L (0x20), as written |
| Device.Iqs231.GetMoveUnfilteredCount | src/device.rs:268-270 | behaves as the 16-bit read of 0x21 and 0x22 |
| Device.Iqs231.GetTempReference | src/device.rs:274-276 | behaves as the 16-bit read of 0x23 and 0x24 |
| Device.Iqs231.GetLtaHaltTimer | src/device.rs:279-281 | behaves as the 16-bit read of 0x25 and 0x26 |
| Device.Iqs231.GetFilterHaltTimer | src/device.rs:285-287 | behaves as a register 0x27 read |
| Device.Iqs231.GetTimerReadInput | src/device.rs:291-293 | behaves as a register 0x28 read |
| Device.Iqs231.GetTimerRedoAti | src/device.rs:298-300 | behaves as a register 0x29 read |
| Device.Iqs231.IntoStandalone | src/device.rs:304-307 | writes STANDALONE to register 0x04 and hands back the bus on success or the write's error; the handle is given up either way |
| Device.Iqs231.SendCommands | src/device.rs:312-318 | behaves as SendCommandsSpec: the STANDALONE bit is refused before the bus is touched, anything else is written to register 0x04 |
| DeviceFacts.ReadRegDecodes | src/device.rs:339-355 | a healthy read returns the first response byte as events and the second as value, and consumes both |
| DeviceFacts.ReadRegTDecodes | src/device.rs:332-337 | a typed read converts the value byte and keeps the events byte |
| DeviceFacts.ReadRegExample | src/registers.rs:57-64 | response [0x01, 0x40] to a read of 0x00 is PROX with value 0x40 |
| DeviceFacts.ReadReg16Pairs | src/device.rs:320-329 | a healthy 16-bit read issues write_reads at the register and at the next address, in that order, and gives high byte then low byte with the union of both event bytes |
| DeviceFacts.ReadReg16Consumes | src/device.rs:320-329 | whatever the script, a healthy 16-bit read consumes exactly four bytes: events from the first and third, value high byte from the second and low byte from the fourth |
| DeviceFacts.ReadReg16Example | src/device.rs:320-329 | events 0x02 and 0x04 with bytes 0x03 and 0x05 give 0x0305 with events 0x06 |
| DeviceFacts.ReadReg16AtLastRegister | src/device.rs:320-329 | a 16-bit read at TimerRedoAti fails with InvalidRegister after exactly one transaction |
| DeviceFacts.ReadReg16FirstReadFails | src/device.rs:320-329 | a failing first read ends the 16-bit read with its IoError after one transaction, consuming nothing |
| DeviceFacts.ReadReg16SecondReadFails | src/device.rs:320-329 | a failing second read gives its own IoError after two transactions |
| DeviceFacts.WriteRegReadOnly | src/device.rs:357-370 | a register outside 0x03 ..= 0x10 is refused and nothing reaches the bus |
| DeviceFacts.WriteRegWritable | src/device.rs:357-370 | a register inside 0x03 ..= 0x10 gets exactly one write of [address, value] |
| DeviceFacts.SetThenGetOtpBank1 | src/device.rs:81-90 | writing OTP bank 1 and reading back the stored byte gives the value written |
| DeviceFacts.SetThenGetOtpBank2 | src/device.rs:92-101 | writing OTP bank 2 and reading back the stored byte gives the value written |
| DeviceFacts.SetThenGetOtpBank3 | src/device.rs:103-112 | writing OTP bank 3 and reading back the stored byte gives the value written |
| DeviceFacts.SetThenGetQuickRelease | src/device.rs:221-228 | writing a quick-release setting and reading back the stored byte gives the value written |
| DeviceFacts.SetThenGetCh0Multipliers | src/device.rs:146-156 | writing channel multipliers and reading back the stored byte gives the value written |
| DeviceFacts.SetThenGetProximityThreshold | src/device.rs:129-138 | writing a proximity threshold and reading back the stored byte gives the value written |
| DeviceFacts.TouchThresholdCodeRoundTrip | src/device.rs:114-127 | decoding a stored code and encoding it again gives the same code |
| DeviceFacts.SetTouchThresholdOutOfRange | src/device.rs:114-121 | a threshold outside 4 ..= 1024 is refused and the bus is untouched |
| DeviceFacts.SetTouchThresholdInRange | src/device.rs:114-121 | a threshold inside 4 ..= 1024 adds one write to register 0x0A of a code that reads back at most 3 below the request |
| DeviceFacts.TouchThresholdExample | src/device.rs:114-127 | 1000 is stored as 249, which reads back as 1000; 7 is stored as 0, which reads back as 4 |
| DeviceFacts.SendCommandsRefusesStandalone | src/device.rs:312-318 | a command byte with bit 0 set is refused with the bus untouched; any other is written as [0x04, byte] |
| DeviceFacts.IntoStandaloneWrite | src/device.rs:304-307 | into_standalone writes exactly [0x04, 0x01], the command send_commands refuses |
| DeviceFacts.ProdNrGenuineChip | src/device.rs:67-74 | a chip answering 0x40 passes the product-number check |
| DeviceFacts.ProdNrWrongChip | src/device.rs:67-74 | any other product number is reported inside IncorrectProductNumber |
| DeviceFacts.SoftwareVersionReadsProductNumber | src/device.rs:76-79 | as written, the version query reads register 0x00 and fails with UnknownSoftwareVersion(0x40) on a genuine chip |
| DeviceFacts.DebugEventsReadsProductNumber | src/device.rs:186-189 | as written, the debug-events query reads register 0x00 |
| DeviceFacts.MoveLowerReferencePairing | src/device.rs:262-264 | as written, the lower-reference query reads 0x20 as the high byte and 0x21 as the low byte |
| DeviceFacts.LowerReferenceAddresses | src/registers.rs:105-106 | CH1_LMOV_L lives at 0x20 and the register after it at 0x21 |

## Left out

- Logging through `defmt` (src/device.rs:347-352, 360-361) has no effect on results and is not modelled.
- The `embedded_hal` bus traits are replaced by the stub `Bus.I2cBus`. Real timing, clock stretching, arbitration and the transport's own error values are not modelled; a transport error is an opaque `BusError`.
- Rust ownership (`with_address`, `destroy` and `into_standalone` take the handle by value) is modelled by a ghost `consumed` flag. Every method requires the handle not to be given up.
- `get_otp_bank_1`, `get_otp_bank_2` and `get_otp_bank_3` (src/device.rs:206-219) are modelled once, by `GetOtpBank1`, `GetOtpBank2` and `GetOtpBank3`. They issue the same read and decode it the same way as `get_otp_bank1`/`2`/`3`.
- The `modular_bitfield` setters panic on a field value too wide for its field. The model uses bit-vector field types (`bv1`, `bv2`, `bv4`), so such a value cannot be built.
- The plumbing impls `Deref`, `From<RegValue<T>> for MainEvents`, `From<RegValue<u8>> for u8`, `RegValue<u8>::into` and `From<Register> for u8` only project a field or convert a value. The model uses the field or `RegisterMap.Address` directly.
- `From<Error<E>> for ()` (src/lib.rs:31-37) only discards an error and is not modelled.
- Every named bit-flag constant, the reserved ones included (as `RESERVED1`/`RESERVED2`), is recorded for reference. The bitflags operations other than `contains` and `|` (iteration, names, complement) are not used by the driver and are not modelled.

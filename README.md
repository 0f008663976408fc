# Qwiic Buzzer register protocol in Dafny

This project models the host side of the SparkFun Qwiic Buzzer library. The
buzzer is an I2C device with a virtual map of eleven one-byte registers
(0x00 Id through 0x0A I2cAddress). Every driver call turns into reads and
writes of those registers. The library ships three versions of the driver.
All three are modelled:

- `sfDevBuzzer` (module `DevBuzzer`), the current toolkit driver.
- `sfeQwiicBuzzer` (module `SfeQwiicBuzzer`), the previous toolkit driver. It
  has the same protocol and an older bus API.
- `QwiicBuzzer` (module `QwiicBuzzerLegacy`), the legacy Arduino driver. It
  talks to `TwoWire` one transmission at a time.

The toolkit bus is the class `ToolkitBus.I2cBus`:

- it holds the device's eleven registers, the current 7-bit address and a
  ghost log of transactions;
- every transaction's status is chosen nondeterministically;
- a transaction that runs past register 0x0A always fails;
- only a successful write changes registers;
- `Valid()` states that the registers are what replaying the log makes of
  the initial ones.

A driver operation is specified by the operations it issues, in order and
stopping at the first failure (`ToolkitBus.Ran` over a plan of `Op`s). Its
effect on the registers is stated outright.

The legacy transport is the class `Wire.TwoWire`. It adds the device's
register pointer, the staged transmit buffer and the receive buffer.
`requestFrom` may deliver any prefix of the bytes asked for.

The three register headers are the modules `DevBuzzerRegisters`,
`SfeQwiicBuzzerRegisters` and `LegacyRegisters`:

- `DevBuzzerRegisters` holds `const uint8_t` values;
- `SfeQwiicBuzzerRegisters` is an enum numbered implicitly, with the C++
  numbering rule written out;
- `LegacyRegisters` is an enum with explicit values.

All three name the same logical `RegisterNames.Register`s.

The header constants are Dafny constants in `DevBuzzer` and `SfeQwiicBuzzer`:

| constant | value |
|---|---|
| default address | 0x34 |
| device Id | 0x5E |
| resonant frequency | 2730 |
| volume levels | 0 (off) to 4 (max) |
| `configureBuzzer` defaults | 2730, duration 0, volume 4 |
| `begin` default bus | `null` |

The ten sound effects are in the module `Effects`:

- each is a script of linear sweeps and `off()` calls;
- each sweep note is one configure with duration 0 and the caller's volume,
  followed by `on()`;
- `PlayScript`, `PlayPart`, `PlaySweep` and `PlayNote` are the drivers' loops
  that issue them.

## Model

| member | source | states |
|---|---|---|
| Bytes.Join | src/sfTk/sfDevBuzzer.cpp:94-97 | joining a high and a low byte gives hi*256+lo, and the MSB/LSB extraction recovers both bytes |
| Bytes.SplitJoin | src/sfTk/sfDevBuzzer.cpp:94-97 | splitting a 16-bit value into MSB and LSB and joining them returns the value |
| DevBuzzerRegisters.Address | src/sfTk/sfDevBuzzerRegisters.h:25-35 | every register of the map has an address below 11 |
| DevBuzzerRegisters.RegisterAt | src/sfTk/sfDevBuzzerRegisters.h:25-35 | every address 0x00..0x0A holds exactly one register, so the map uses all eleven addresses |
| DevBuzzerRegisters.AddressInjective | src/sfTk/sfDevBuzzerRegisters.h:25-35 | distinct registers have distinct addresses |
| DevBuzzerRegisters.ConfigBlockContiguous | src/sfTk/sfDevBuzzerRegisters.h:28-35 | FreqMsb..DurLsb sit at 0x03+k in order; a register is in that block iff its address is 0x03..0x07, so Active, SaveSettings and I2cAddress lie outside |
| SfeQwiicBuzzerRegisters.IndexOf | src/sfeQwiicBuzzerRegisters.h:32-44 | each register names the enumerator at its position in the declaration |
| SfeQwiicBuzzerRegisters.ValueIsPosition | src/sfeQwiicBuzzerRegisters.h:34-44 | under the C++ rule (explicit 0x00 first, then previous plus one) each enumerator's value is its position |
| SfeQwiicBuzzerRegisters.Value | src/sfeQwiicBuzzerRegisters.h:32-44 | the uint8_t value of an enumerator is its implicit C++ value, so FreqMsb is 0x03 and I2cAddress is 0x0A |
| SfeQwiicBuzzerRegisters.MatchesDevBuzzerMap | src/sfeQwiicBuzzerRegisters.h:34-44 | every enumerator equals its counterpart constant in the current map |
| SfeQwiicBuzzerRegisters.ConfigBlockInOrder | src/sfeQwiicBuzzerRegisters.h:37-41 | the configuration block is contiguous and in the order configureBuzzer fills it |
| SfeQwiicBuzzer.EnumeratorValues | src/sfeQwiicBuzzer.cpp:63-114 | the register values this driver passes to the bus are the values of its enum's enumerators |
| LegacyRegisters.Value | src/registers.h:22-35 | each explicit enumerator value coincides with the newer maps |
| LegacyRegisters.VolumeBetweenPairs | src/registers.h:27-34 | Volume lies between the frequency pair and the duration pair; Active, SaveSettings and I2cAddress follow in that order |
| RegisterFile.Written | src/sfTk/sfDevBuzzer.cpp:108 | a region write puts the data bytes in consecutive registers from its start and leaves every other register alone |
| ToolkitBus.ExecutedOk | src/sfTk/sfDevBuzzer.cpp:21-48 | a plan succeeds iff every operation was issued in order and each one succeeded |
| ToolkitBus.ExecutedFailed | src/sfTk/sfDevBuzzer.cpp:31-40 | a failed plan issued a prefix of it; every transaction but the last succeeded, the last failed with the reported error, and nothing followed |
| ToolkitBus.ExecutedThen | src/sfTk/sfDevBuzzer.cpp:31-40 | a successful plan followed by another plan executes the joined plan |
| ToolkitBus.ExecutedAbort | src/sfTk/sfDevBuzzer.cpp:31-40 | after a failure the rest of the plan is never issued |
| ToolkitBus.I2cBus.Ping | src/sfTk/sfDevBuzzer.cpp:50-54 | a ping logs one transaction and changes neither registers nor address |
| ToolkitBus.I2cBus.ReadRegister | src/sfTk/sfDevBuzzer.cpp:56-59 | a read logs one transaction; on success the register was in the map and its value is returned; nothing changes |
| ToolkitBus.I2cBus.WriteRegister | src/sfTk/sfDevBuzzer.cpp:108 | a write logs one transaction; on success exactly the written registers change; on failure none does |
| ToolkitBus.I2cBus.SetAddress | src/sfTk/sfDevBuzzer.cpp:140 | later transactions go to the new address; registers and log are untouched |
| BuzzerProtocol.ConfigBytes | src/sfTk/sfDevBuzzer.cpp:94-105 | the five bytes are the frequency big-endian, the volume, then the duration big-endian |
| BuzzerProtocol.BeginResult | src/sfTk/sfDevBuzzer.cpp:31-47 | begin reports Ok iff the ping and the Id read succeeded and the Id matched; a bus error is passed on unchanged; a wrong Id gives Fail |
| BuzzerProtocol.ConfigureEffect | src/sfTk/sfDevBuzzer.cpp:81-108 | a successful configure gives regs[3]*256+regs[4] == frequency, regs[5] == volume and regs[6]*256+regs[7] == duration; Active and every other register outside 0x03..0x07 keep their values |
| BuzzerProtocol.OneByteWrites | src/sfTk/sfDevBuzzer.cpp:111-124 | on() sets Active to 1, off() sets it to 0, saveSettings() sets SaveSettings to 1 and the address write sets I2cAddress; none touches another register |
| DevBuzzer.Buzzer.constructor | src/sfTk/sfDevBuzzer.h:46-48 | a new driver has no bus |
| DevBuzzer.NewDriverBeginFails | src/sfTk/sfDevBuzzer.h:46-53 | begin() with its default null argument on a new driver fails |
| DevBuzzer.Buzzer.Begin | src/sfTk/sfDevBuzzer.cpp:21-48 | a null bus gives Fail with no bus operation; otherwise it pings, reads the Id only after a successful ping, stops at the first failure, and returns BeginResult of what happened |
| DevBuzzer.Buzzer.IsConnected | src/sfTk/sfDevBuzzer.cpp:50-54 | one ping, whose status is returned |
| DevBuzzer.Buzzer.DeviceId | src/sfTk/sfDevBuzzer.cpp:56-59 | one read of the Id register; on success the Id register's value |
| DevBuzzer.Buzzer.FirmwareVersionMajor | src/sfTk/sfDevBuzzer.cpp:61-69 | one read of FirmwareMajor; true iff it succeeded, and then the register's value |
| DevBuzzer.Buzzer.FirmwareVersionMinor | src/sfTk/sfDevBuzzer.cpp:71-79 | one read of FirmwareMinor; true iff it succeeded, and then the register's value |
| DevBuzzer.Buzzer.ConfigureBuzzer | src/sfTk/sfDevBuzzer.cpp:81-109 | exactly one region write of ConfigBytes at 0x03; on success frequency, volume and duration are stored and Active and all registers outside 0x03..0x07 are unchanged; on failure nothing changes; the defaults are 2730, 0 and 4 |
| DevBuzzer.Buzzer.On | src/sfTk/sfDevBuzzer.cpp:111-114 | one write; on success Active becomes 1 and nothing else changes |
| DevBuzzer.Buzzer.Off | src/sfTk/sfDevBuzzer.cpp:116-119 | one write; on success Active becomes 0 and nothing else changes |
| DevBuzzer.Buzzer.SaveSettings | src/sfTk/sfDevBuzzer.cpp:121-124 | one write; on success SaveSettings becomes 1 and nothing else changes |
| DevBuzzer.Buzzer.SetAddress | src/sfTk/sfDevBuzzer.cpp:126-144 | an address outside 0x08..0x77 gives Fail with no bus traffic and the address unchanged; otherwise one write of the address to 0x0A at the old address; the bus moves to the new address iff that write succeeded, and its error is returned otherwise |
| DevBuzzer.Buzzer.Address | src/sfTk/sfDevBuzzer.cpp:146-149 | the address the bus currently talks to |
| DevBuzzer.Buzzer.PlaySoundEffect | src/sfTk/sfDevBuzzer.cpp:151-195 | n > 9 gives false with no bus traffic; otherwise the bus runs effect n's plan, and the result is true iff that effect succeeded |
| DevBuzzer.Buzzer.PlayNote | src/sfTk/sfDevBuzzer.cpp:202-210 | configure the note with duration 0 and the volume, then on(); on() is skipped if the configure failed |
| DevBuzzer.Buzzer.PlaySweep | src/sfTk/sfDevBuzzer.cpp:200-213 | the sweep loop issues its plan in order and stops at the first error |
| DevBuzzer.Buzzer.PlayPart | src/sfTk/sfDevBuzzer.cpp:200-228 | one part of an effect: a sweep loop, or off() |
| DevBuzzer.Buzzer.PlayScript | src/sfTk/sfDevBuzzer.cpp:197-229 | the parts of an effect in order; the first error ends the effect and skips everything after it |
| DevBuzzer.Buzzer.SoundEffect0 | src/sfTk/sfDevBuzzer.cpp:197-229 | the siren up through 150..3900, down through 4000..250, then off(), aborting at the first error |
| DevBuzzer.Buzzer.SoundEffect1 | src/sfTk/sfDevBuzzer.cpp:231-266 | three siren cycles, then off(), aborting at the first error |
| DevBuzzer.Buzzer.SoundEffect2 | src/sfTk/sfDevBuzzer.cpp:268-286 | the rising siren sweep, then off() |
| DevBuzzer.Buzzer.SoundEffect3 | src/sfTk/sfDevBuzzer.cpp:288-306 | the rising siren sweep, then off() |
| DevBuzzer.Buzzer.SoundEffect4 | src/sfTk/sfDevBuzzer.cpp:308-326 | the falling siren sweep, then off() |
| DevBuzzer.Buzzer.SoundEffect5 | src/sfTk/sfDevBuzzer.cpp:328-346 | the falling siren sweep, then off() |
| DevBuzzer.Buzzer.SoundEffect6 | src/sfTk/sfDevBuzzer.cpp:348-431 | four rising laugh sweeps with step 10, each followed by off() |
| DevBuzzer.Buzzer.SoundEffect7 | src/sfTk/sfDevBuzzer.cpp:433-515 | four rising laugh sweeps with step 15, each followed by off() |
| DevBuzzer.Buzzer.SoundEffect8 | src/sfTk/sfDevBuzzer.cpp:517-579 | three falling cry sweeps with step 10, each followed by off() |
| DevBuzzer.Buzzer.SoundEffect9 | src/sfTk/sfDevBuzzer.cpp:581-644 | three falling cry sweeps with step 20, each followed by off() |
| SfeQwiicBuzzer.Buzzer.constructor | src/sfeQwiicBuzzer.h:46-48 | a new driver has no bus |
| SfeQwiicBuzzer.NewDriverBeginFails | src/sfeQwiicBuzzer.h:46-53 | begin() with its default null argument on a new driver fails |
| SfeQwiicBuzzer.Buzzer.Begin | src/sfeQwiicBuzzer.cpp:26-53 | null bus gives Fail; then the ping error, then the Id-read error, then Fail for a wrong Id, else Ok; the Id is read only after a successful ping |
| SfeQwiicBuzzer.Buzzer.IsConnected | src/sfeQwiicBuzzer.cpp:55-59 | one ping, whose status is returned |
| SfeQwiicBuzzer.Buzzer.DeviceId | src/sfeQwiicBuzzer.cpp:61-64 | one byte read of the Id register; on success its value |
| SfeQwiicBuzzer.Buzzer.FirmwareVersionMajor | src/sfeQwiicBuzzer.cpp:66-74 | one byte read of FirmwareMajor; true iff it succeeded |
| SfeQwiicBuzzer.Buzzer.FirmwareVersionMinor | src/sfeQwiicBuzzer.cpp:76-84 | one byte read of FirmwareMinor; true iff it succeeded |
| SfeQwiicBuzzer.Buzzer.ConfigureBuzzer | src/sfeQwiicBuzzer.cpp:86-115 | one region write at 0x03 of freq MSB, freq LSB, volume, duration MSB and duration LSB; the same register effect as the current driver |
| SfeQwiicBuzzer.Buzzer.On | src/sfeQwiicBuzzer.cpp:117-120 | one byte write; on success Active becomes 1 and nothing else changes |
| SfeQwiicBuzzer.Buzzer.Off | src/sfeQwiicBuzzer.cpp:122-125 | one byte write; on success Active becomes 0 and nothing else changes |
| SfeQwiicBuzzer.Buzzer.SaveSettings | src/sfeQwiicBuzzer.cpp:127-130 | one byte write; on success SaveSettings becomes 1 and nothing else changes |
| SfeQwiicBuzzer.Buzzer.SetAddress | src/sfeQwiicBuzzer.cpp:132-150 | range check before any bus write; the bus address changes only after a successful write to 0x0A |
| SfeQwiicBuzzer.Buzzer.Address | src/sfeQwiicBuzzer.cpp:152-155 | the address the bus currently talks to |
| SfeQwiicBuzzer.Buzzer.PlaySoundEffect | src/sfeQwiicBuzzer.cpp:157-201 | n > 9 gives false with no bus traffic; otherwise true iff the selected effect succeeded |
| SfeQwiicBuzzer.Buzzer.PlayNote | src/sfeQwiicBuzzer.cpp:208-216 | configure the note with duration 0 and the volume, then on() unless the configure failed |
| SfeQwiicBuzzer.Buzzer.PlaySweep | src/sfeQwiicBuzzer.cpp:206-219 | the sweep loop issues its plan in order and stops at the first error |
| SfeQwiicBuzzer.Buzzer.PlayPart | src/sfeQwiicBuzzer.cpp:206-234 | one part of an effect: a sweep loop, or off() |
| SfeQwiicBuzzer.Buzzer.PlayScript | src/sfeQwiicBuzzer.cpp:203-235 | the parts of an effect in order; the first error ends the effect |
| SfeQwiicBuzzer.Buzzer.SoundEffect0 | src/sfeQwiicBuzzer.cpp:203-235 | one siren cycle, then off() |
| SfeQwiicBuzzer.Buzzer.SoundEffect1 | src/sfeQwiicBuzzer.cpp:237-272 | three up/down siren cycles, then one off() |
| SfeQwiicBuzzer.Buzzer.SoundEffect2 | src/sfeQwiicBuzzer.cpp:274-292 | the rising siren sweep, then off() |
| SfeQwiicBuzzer.Buzzer.SoundEffect3 | src/sfeQwiicBuzzer.cpp:294-312 | the rising siren sweep, then off() |
| SfeQwiicBuzzer.Buzzer.SoundEffect4 | src/sfeQwiicBuzzer.cpp:314-332 | the falling siren sweep, then off() |
| SfeQwiicBuzzer.Buzzer.SoundEffect5 | src/sfeQwiicBuzzer.cpp:334-352 | the falling siren sweep, then off() |
| SfeQwiicBuzzer.Buzzer.SoundEffect6 | src/sfeQwiicBuzzer.cpp:354-437 | four rising laugh sweeps with step 10, each followed by off() |
| SfeQwiicBuzzer.Buzzer.SoundEffect7 | src/sfeQwiicBuzzer.cpp:439-521 | four rising laugh sweeps with step 15, each followed by off() |
| SfeQwiicBuzzer.Buzzer.SoundEffect8 | src/sfeQwiicBuzzer.cpp:523-585 | three falling cry sweeps with step 10, each followed by off() |
| SfeQwiicBuzzer.Buzzer.SoundEffect9 | src/sfeQwiicBuzzer.cpp:587-650 | three falling cry sweeps with step 20, each followed by off() |
| Effects.SweepNotes | src/sfeQwiicBuzzer.cpp:206 | a `for (note = first; guard; note += step)` loop visits first + k*step for every k while the guard holds, and the next note fails the guard |
| Effects.TonePlanAt | src/sfeQwiicBuzzer.cpp:208-216 | note k of a sweep is configured at position 2k of the plan and switched on at 2k+1 |
| Effects.SweepPlanNotes | src/sfeQwiicBuzzer.cpp:206-219 | a sweep loop issues one configure and one on() per sweep note, in order |
| Effects.SirenNotes | src/sfeQwiicBuzzer.cpp:206-234 | the siren rises through the 26 notes 150, 300, ..., 3900 and falls through the 26 notes 4000, 3850, ..., 250 |
| Effects.RisingSweep | src/sfeQwiicBuzzer.cpp:361-434 | a rising sweep's notes strictly increase and stay in [first, bound), as the laugh phases do |
| Effects.FallingSweep | src/sfeQwiicBuzzer.cpp:530-583 | a falling sweep's notes strictly decrease and stay in (bound, first], as the cry phases do |
| Effects.Numbered | src/sfeQwiicBuzzer.cpp:161-197 | the effect selected by number n (0..9) is the one numbered n |
| Effects.NumberedNumber | src/sfeQwiicBuzzer.cpp:161-197 | the numbering of the ten effects is one-to-one |
| Effects.ScriptOpsAppend | src/sfeQwiicBuzzer.cpp:354-437 | running two scripts one after the other issues both plans in order |
| Effects.ScriptOpsSplit | src/sfeQwiicBuzzer.cpp:354-437 | a script's plan splits at any part into the earlier parts, that part and the later parts |
| Effects.RanPart | src/sfeQwiicBuzzer.cpp:354-437 | after the first k parts succeeded and part k ran, the first k+1 parts have run; a failure there ends the whole effect |
| Effects.ScriptShape | src/sfeQwiicBuzzer.cpp:208-234 | a script issues only on(), off() and configures with duration 0 and the caller's volume |
| Effects.ScriptEndsOff | src/sfeQwiicBuzzer.cpp:234 | a script whose last part is off() issues off() last |
| Effects.EffectShape | src/sfeQwiicBuzzer.cpp:203-650 | every effect issues only on(), off() and configures with duration 0 and the caller's volume, and ends with off() |
| Effects.EndsOffSilent | src/sfeQwiicBuzzer.cpp:234 | a plan that ends with off() and runs without error leaves Active at 0 |
| Effects.EffectEndsSilent | src/sfeQwiicBuzzer.cpp:203-650 | an effect that runs to completion leaves the buzzer switched off (Active == 0) |
| Wire.AfterSend | src/SparkFun_Qwiic_Buzzer_Arduino_Library.cpp:209-217 | an acknowledged transmission moves the register pointer to its first byte and stores the rest from there; anything else leaves the device as it was |
| Wire.AfterSendEffect | src/SparkFun_Qwiic_Buzzer_Arduino_Library.cpp:209-228 | everything an acknowledged transmission changes, and that every other register keeps its byte |
| Wire.SentPointer | src/SparkFun_Qwiic_Buzzer_Arduino_Library.cpp:154-156 | a register byte alone only moves the pointer, and only when acknowledged |
| Wire.SentByte | src/SparkFun_Qwiic_Buzzer_Arduino_Library.cpp:209-217 | an acknowledged register-and-byte transmission stores the byte in that register |
| Wire.SentPair | src/SparkFun_Qwiic_Buzzer_Arduino_Library.cpp:219-228 | an acknowledged register-and-two-bytes transmission stores them in that register and the next |
| Wire.Fetch | src/SparkFun_Qwiic_Buzzer_Arduino_Library.cpp:160 | the bytes a request returns are the registers from the pointer on |
| Wire.TwoWire.BeginTransmission | src/SparkFun_Qwiic_Buzzer_Arduino_Library.cpp:154 | starts an empty transmission to the address |
| Wire.TwoWire.Write | src/SparkFun_Qwiic_Buzzer_Arduino_Library.cpp:155 | stages one more byte |
| Wire.TwoWire.EndTransmission | src/SparkFun_Qwiic_Buzzer_Arduino_Library.cpp:156 | sends the staged bytes and logs them; status 0 only for a transmission the device can take, and the device changes as AfterSend says |
| Wire.TwoWire.RequestFrom | src/SparkFun_Qwiic_Buzzer_Arduino_Library.cpp:160 | at most the quantity asked for arrives, taken from the pointer on; the device does not change |
| Wire.TwoWire.Read | src/SparkFun_Qwiic_Buzzer_Arduino_Library.cpp:162 | the next received byte, or -1 when none is left |
| QwiicBuzzerLegacy.SingleReading | src/SparkFun_Qwiic_Buzzer_Arduino_Library.cpp:160-164 | a single read gives the received byte, or 0 when none arrived |
| QwiicBuzzerLegacy.DoubleValue | src/SparkFun_Qwiic_Buzzer_Arduino_Library.cpp:177-178 | two reads combine as b0 \| (b1 << 8); a missing second byte (-1) fills the high byte with ones |
| QwiicBuzzerLegacy.DoubleReading | src/SparkFun_Qwiic_Buzzer_Arduino_Library.cpp:175-181 | two bytes give b1*256+b0, one byte gives 0xFF00+b0, none gives 0 |
| QwiicBuzzerLegacy.LittleEndian | src/SparkFun_Qwiic_Buzzer_Arduino_Library.cpp:222-224 | the bytes sent are the low byte then the high byte, and they rejoin to the value |
| QwiicBuzzerLegacy.DoubleRoundTrip | src/SparkFun_Qwiic_Buzzer_Arduino_Library.cpp:167-182 | writing a 16-bit value and reading it back from the same register returns it, when all exchanges went through |
| QwiicBuzzerLegacy.SingleRoundTrip | src/SparkFun_Qwiic_Buzzer_Arduino_Library.cpp:152-165 | writing a byte and reading it back from the same register returns it, when all exchanges went through |
| QwiicBuzzerLegacy.ReadsRegister | src/SparkFun_Qwiic_Buzzer_Arduino_Library.cpp:152-165 | a read through an acknowledged pointer transmission leaves the registers unchanged and returns the byte of the register read |
| QwiicBuzzerLegacy.FirmwareVersionFromRegisters | src/SparkFun_Qwiic_Buzzer_Arduino_Library.cpp:70-75 | with both pointer transmissions acknowledged and one byte each, the version is the FirmwareMajor register's byte above the FirmwareMinor register's |
| QwiicBuzzerLegacy.ConfigWrites | src/SparkFun_Qwiic_Buzzer_Arduino_Library.cpp:108-123 | the five two-byte transmissions, in order: Volume, FreqMSB, FreqLSB, DurMSB, DurLSB, with the frequency and duration split big-endian |
| QwiicBuzzerLegacy.ConfigWritesAt | src/SparkFun_Qwiic_Buzzer_Arduino_Library.cpp:108-123 | those transmissions address 0x05, 0x03, 0x04, 0x06 and 0x07 |
| QwiicBuzzerLegacy.ConfigLogMatchesWrites | src/SparkFun_Qwiic_Buzzer_Arduino_Library.cpp:108-123 | the log of a configuration holds each transmission of ConfigWrites in order, each with its own status |
| QwiicBuzzerLegacy.ConfigEffect | src/SparkFun_Qwiic_Buzzer_Arduino_Library.cpp:108-123 | each configuration register holds its new byte iff its own write was acknowledged; all other registers, Active included, keep theirs |
| QwiicBuzzerLegacy.ConfigSends | src/SparkFun_Qwiic_Buzzer_Arduino_Library.cpp:108-123 | sent over the wire, the five transmissions store each acknowledged byte and leave the pointer on the last acknowledged register |
| QwiicBuzzerLegacy.ConfigStored | src/SparkFun_Qwiic_Buzzer_Arduino_Library.cpp:108-123 | when all five writes are acknowledged the registers hold the frequency and the duration big-endian, and the volume |
| QwiicBuzzerLegacy.ReadbackCode | src/SparkFun_Qwiic_Buzzer_Arduino_Library.cpp:230-237 | as written: 1 iff the write was acknowledged; 0 or 2 only after an unacknowledged write, by whether the readback matches |
| QwiicBuzzerLegacy.ReadbackCodesInverted | src/SparkFun_Qwiic_Buzzer_Arduino_Library.cpp:230-237 | on the device: an acknowledged write stores the byte and is reported as 1; an unacknowledged write leaves the device unchanged, and if the register already held the byte, the read that follows (through an acknowledged pointer transmission) is reported as 0 |
| QwiicBuzzerLegacy.IntendedReadbackCode | src/SparkFun_Qwiic_Buzzer_Arduino_Library.cpp:230-246 | corrected: 0 iff acknowledged and the readback matches, 1 iff not acknowledged, 2 iff acknowledged and the readback differs |
| QwiicBuzzerLegacy.IntendedReadbackMatches | src/SparkFun_Qwiic_Buzzer_Arduino_Library.cpp:230-237 | corrected, on the device: an acknowledged write read back through an acknowledged pointer transmission gives 0 |
| QwiicBuzzerLegacy.IntendedDoubleReadbackMatches | src/SparkFun_Qwiic_Buzzer_Arduino_Library.cpp:239-246 | corrected, for 16-bit values: an acknowledged write read back with both bytes arriving gives 0 |
| QwiicBuzzerLegacy.SetAddressResult | src/SparkFun_Qwiic_Buzzer_Arduino_Library.cpp:77-98 | as written: true iff the address is out of range or the write was acknowledged |
| QwiicBuzzerLegacy.IntendedSetAddressResult | src/SparkFun_Qwiic_Buzzer_Arduino_Library.cpp:77-98 | corrected: true iff the address is legal and the write was acknowledged |
| QwiicBuzzerLegacy.QwiicBuzzer.constructor | src/SparkFun_Qwiic_Buzzer_Arduino_Library.cpp:32-35 | a new driver has no port; the Button constants are fixed at construction |
| QwiicBuzzerLegacy.QwiicBuzzer.Begin | src/SparkFun_Qwiic_Buzzer_Arduino_Library.cpp:32-39 | stores the address and port; the Id is read only after an acknowledged probe; the bytes read are the device's registers from its pointer after the Id pointer transmission; true iff the probe was acknowledged and the Id read equals the expected Id |
| QwiicBuzzerLegacy.QwiicBuzzer.IsConnected | src/SparkFun_Qwiic_Buzzer_Arduino_Library.cpp:41-47 | one empty transmission; true iff acknowledged; the device is unchanged |
| QwiicBuzzerLegacy.QwiicBuzzer.DeviceId | src/SparkFun_Qwiic_Buzzer_Arduino_Library.cpp:49-52 | a single-register read of the Id register: the device ends as the pointer transmission leaves it, and the byte returned is the one fetched from its pointer (the Id register once that transmission is acknowledged, by ReadsRegister) |
| QwiicBuzzerLegacy.QwiicBuzzer.CheckDeviceId | src/SparkFun_Qwiic_Buzzer_Arduino_Library.cpp:54-57 | true iff the byte fetched from the device after the Id pointer transmission equals the expected Id |
| QwiicBuzzerLegacy.QwiicBuzzer.GetDeviceType | src/SparkFun_Qwiic_Buzzer_Arduino_Library.cpp:59-68 | 1 iff the probe was acknowledged and the byte fetched after the Id pointer transmission matches, else 0; nothing is read after an unacknowledged probe |
| QwiicBuzzerLegacy.QwiicBuzzer.GetFirmwareVersion | src/SparkFun_Qwiic_Buzzer_Arduino_Library.cpp:70-75 | two pointer transmissions, major then minor, each followed by a fetch from the device state it leaves; the device ends as both leave it; the result is the major byte above the minor byte: (major << 8) \| minor |
| QwiicBuzzerLegacy.QwiicBuzzer.SetI2cAddress | src/SparkFun_Qwiic_Buzzer_Arduino_Library.cpp:77-98 | as written: out of range returns true with nothing sent and the address unchanged; otherwise one write, and the address changes iff it was acknowledged |
| QwiicBuzzerLegacy.QwiicBuzzer.SetI2cAddressIntended | src/SparkFun_Qwiic_Buzzer_Arduino_Library.cpp:77-98 | corrected: out of range returns false; otherwise as SetI2cAddress |
| QwiicBuzzerLegacy.QwiicBuzzer.GetI2cAddress | src/SparkFun_Qwiic_Buzzer_Arduino_Library.cpp:100-103 | the address the driver talks to |
| QwiicBuzzerLegacy.QwiicBuzzer.BuzzerConfig | src/SparkFun_Qwiic_Buzzer_Arduino_Library.cpp:108-123 | the log gains the five writes of ConfigWrites in order, all attempted whatever the earlier outcomes; the device ends as the five transmissions leave it; true iff all five were acknowledged |
| QwiicBuzzerLegacy.QwiicBuzzer.LedOff | src/SparkFun_Qwiic_Buzzer_Arduino_Library.cpp:125-128 | exactly BUZZERconfig(0, 0, 0) |
| QwiicBuzzerLegacy.QwiicBuzzer.LedOn | src/SparkFun_Qwiic_Buzzer_Arduino_Library.cpp:130-133 | exactly BUZZERconfig(brightness, 0, 0) |
| QwiicBuzzerLegacy.QwiicBuzzer.On | src/SparkFun_Qwiic_Buzzer_Arduino_Library.cpp:135-138 | exactly BUZZERconfig with the same arguments |
| QwiicBuzzerLegacy.QwiicBuzzer.Off | src/SparkFun_Qwiic_Buzzer_Arduino_Library.cpp:140-143 | exactly BUZZERconfig(0, 0, 0) |
| QwiicBuzzerLegacy.QwiicBuzzer.SaveSettings | src/SparkFun_Qwiic_Buzzer_Arduino_Library.cpp:145-148 | one write of 1 to SaveSettings; true iff acknowledged |
| QwiicBuzzerLegacy.QwiicBuzzer.ReadSingleRegister | src/SparkFun_Qwiic_Buzzer_Arduino_Library.cpp:152-165 | sends the register, ignoring the status, then requests one byte; returns the byte from the device's pointer, or 0 when none arrived |
| QwiicBuzzerLegacy.QwiicBuzzer.ReadDoubleRegister | src/SparkFun_Qwiic_Buzzer_Arduino_Library.cpp:167-182 | as the single read, asking for two bytes and combining them little-endian; 0 when none arrived |
| QwiicBuzzerLegacy.QwiicBuzzer.WriteSingleRegister | src/SparkFun_Qwiic_Buzzer_Arduino_Library.cpp:209-217 | one transmission of register and byte; true iff acknowledged |
| QwiicBuzzerLegacy.QwiicBuzzer.WriteDoubleRegister | src/SparkFun_Qwiic_Buzzer_Arduino_Library.cpp:219-228 | one transmission of register, low byte and high byte; true iff acknowledged |
| QwiicBuzzerLegacy.QwiicBuzzer.WriteSingleRegisterWithReadback | src/SparkFun_Qwiic_Buzzer_Arduino_Library.cpp:230-237 | as written: an acknowledged write leaves the device as AfterSend says and returns 1 with nothing read; after an unacknowledged write the byte read is fetched from the device as the pointer transmission leaves it, and the code is ReadbackCode of it |
| QwiicBuzzerLegacy.QwiicBuzzer.WriteDoubleRegisterWithReadback | src/SparkFun_Qwiic_Buzzer_Arduino_Library.cpp:239-246 | as written, for 16-bit values: an acknowledged write returns 1 with nothing read; after an unacknowledged write the two bytes read are fetched from the device, and the code is ReadbackCode of them |
| QwiicBuzzerLegacy.QwiicBuzzer.WriteSingleRegisterWithReadbackIntended | src/SparkFun_Qwiic_Buzzer_Arduino_Library.cpp:230-237 | corrected: an unacknowledged write leaves the device unchanged and returns 1; an acknowledged one is read back from the device the two transmissions leave, and the code is IntendedReadbackCode of the byte fetched |
| QwiicBuzzerLegacy.QwiicBuzzer.WriteDoubleRegisterWithReadbackIntended | src/SparkFun_Qwiic_Buzzer_Arduino_Library.cpp:239-246 | corrected, for 16-bit values: an unacknowledged write leaves the device unchanged and returns 1; an acknowledged one is read back from the device, and the code is IntendedReadbackCode of the bytes fetched |

## Left out

- The real transports (`sfTkII2C`, `sfeTkII2C` and Arduino `TwoWire`) are not part of this model. Each is an in-memory register file. Whether a transaction succeeds is chosen nondeterministically, and error codes are reduced to Ok, Fail and "another code".
- The register pointer does not advance on a read in the legacy transport. Every read in the driver is preceded by its own pointer transmission. So this does not change what the driver reads when that pointer transmission is acknowledged.
- The driver ignores the status of that pointer transmission. After an unacknowledged one, the model reads from the pointer the previous exchange left. After an acknowledged write, that is the written register. A device that advances its pointer would answer from elsewhere.
- ToolkitBus.I2cBus.WriteRegister: a failed write is modelled as changing no register. A real device may have stored a prefix of the bytes before the error.
- Wire.AfterSend: an unacknowledged transmission is modelled as leaving the device as it was. A device that took some data bytes before the NACK (`endTransmission` code 3) may have stored them. The "on failure nothing changes" parts of the configure contracts and of ConfigEffect rest on this choice.
- WriteSingleRegisterWithReadbackIntended and WriteDoubleRegisterWithReadbackIntended: their contracts give the device state and the bytes fetched. That an acknowledged write read back gives 0 is proved about those states by IntendedReadbackMatches and IntendedDoubleReadbackMatches, not in the methods' own ensures.
- Wire.TwoWire.RequestFrom: any prefix of the bytes asked for may arrive, and nothing more is said about when fewer arrive.
- Wire.TwoWire.EndTransmission: an acknowledged transmission must stay inside the register map; the status codes 1 to 4 are not told apart.
- Timing: `sftk_delay_ms`, the laugh and cry pauses, and the device's own playback are blocking waits outside the register protocol. As a result the plans of effects 2 and 3, and of effects 4 and 5, are equal.
- Each effect's sweeps and `off()` calls are written in the source as straight-line code. In the model they are data (`Effects.Script`) and one driver loop (`PlayScript`) walks them. The operations issued, their order and where they stop are the same.
- The sweep loop variable is an `int`, passed to a `uint16_t` parameter (`Effects.Tone`). In effects 6 to 9 the variable is itself a `uint16_t`; all its values stay far below 65536, so the two agree.
- `Serial.println` diagnostics in the legacy `setI2Caddress` are console output.
- `readQuadRegister` is left out. It reads its result through a union, so the value depends on the host's byte order, and it is uninitialised when no bytes arrive.
- The `SFE_QWIIC_BUTTON_*` register names and Id, and the `Qwiic_Button_Register` type, are not defined in the files modelled here. They are the parameters in `QwiicBuzzerLegacy.ButtonConstants`.
- The wrapper header `SparkFun_Qwiic_Buzzer_Arduino_Library.h` and the pitch table `sfeQwiicBuzzerPitches.h` are not part of this model.
- DevBuzzer.Buzzer.FirmwareVersionMajor and the three other firmware reads: when the read fails, the output byte is left unspecified. The source leaves it to the bus.

## Findings

| source | as written | input that shows it | evidently intended | confidence | as-written member | corrected member |
|---|---|---|---|---|---|---|
| src/SparkFun_Qwiic_Buzzer_Arduino_Library.cpp:230-246 | `write*RegisterWithReadback` return 1 as soon as the write is acknowledged, and read back only after a failed write, so 0 ("match") is reported for a write that never happened | an acknowledged write of 0x12 returns 1; an unacknowledged write of 0x12 to a register already holding 0x12, followed by an acknowledged pointer transmission, returns 0 | 0 for an acknowledged write that reads back unchanged, 1 for an unacknowledged write, 2 for a mismatch | not executed | QwiicBuzzerLegacy.ReadbackCodesInverted | QwiicBuzzerLegacy.IntendedReadbackMatches |
| src/SparkFun_Qwiic_Buzzer_Arduino_Library.cpp:79-83 | `setI2Caddress` returns 1, which is true as a `bool`, for an address out of range | address 0x78 (or 0x07) returns true with nothing written and the address unchanged | false for an address refused by the range check | not executed | QwiicBuzzerLegacy.SetAddressResult | QwiicBuzzerLegacy.IntendedSetAddressResult |

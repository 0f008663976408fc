/** Logical names of the registers in the Qwiic Buzzer's virtual register map.
    The three register headers of the library give these names one-byte
    addresses; the modules DevBuzzerRegisters, SfeQwiicBuzzerRegisters and
    LegacyRegisters model one header each. */
module RegisterNames {

  datatype Register =
    | Id
    | FirmwareMinor
    | FirmwareMajor
    | ToneFrequencyMsb
    | ToneFrequencyLsb
    | Volume
    | DurationMsb
    | DurationLsb
    | Active
    | SaveSettings
    | I2cAddress

  /** The configuration block that one region write fills, in address order. */
  const ConfigBlock: seq<Register> :=
    [ToneFrequencyMsb, ToneFrequencyLsb, Volume, DurationMsb, DurationLsb]
}

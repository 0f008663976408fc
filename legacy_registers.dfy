/** The register map of the legacy Arduino driver: an enum whose eleven
    enumerators all carry explicit values. */
module LegacyRegisters {
  import opened RegisterNames
  import DevBuzzerRegisters

  const RegId: bv8 := 0x00
  const RegFirmwareMinor: bv8 := 0x01
  const RegFirmwareMajor: bv8 := 0x02
  const RegToneFrequencyMsb: bv8 := 0x03
  const RegToneFrequencyLsb: bv8 := 0x04
  const RegVolume: bv8 := 0x05
  const RegDurationMsb: bv8 := 0x06
  const RegDurationLsb: bv8 := 0x07
  const RegActive: bv8 := 0x08
  const RegSaveSettings: bv8 := 0x09
  const RegI2cAddress: bv8 := 0x0A

  /** The explicit value of each enumerator; they agree with the newer maps. */
  function Value(r: Register): (v: bv8)
    ensures v == DevBuzzerRegisters.Address(r)
  {
    match r
    case Id => RegId
    case FirmwareMinor => RegFirmwareMinor
    case FirmwareMajor => RegFirmwareMajor
    case ToneFrequencyMsb => RegToneFrequencyMsb
    case ToneFrequencyLsb => RegToneFrequencyLsb
    case Volume => RegVolume
    case DurationMsb => RegDurationMsb
    case DurationLsb => RegDurationLsb
    case Active => RegActive
    case SaveSettings => RegSaveSettings
    case I2cAddress => RegI2cAddress
  }

  /** Volume (0x05) lies between the frequency pair (0x03, 0x04) and the
      duration pair (0x06, 0x07); Active, SaveSettings and I2cAddress follow. */
  lemma VolumeBetweenPairs()
    ensures Value(ToneFrequencyMsb) < Value(ToneFrequencyLsb) < Value(Volume)
    ensures Value(Volume) < Value(DurationMsb) < Value(DurationLsb)
    ensures Value(DurationLsb) < Value(Active) < Value(SaveSettings) < Value(I2cAddress)
  {
  }
}

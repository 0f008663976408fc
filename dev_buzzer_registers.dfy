/** The register map of the current driver: one `const uint8_t` per register. */
module DevBuzzerRegisters {
  import opened RegisterNames

  const RegId: bv8 := 0x00
  const RegFirmwareMinor: bv8 := 0x01
  const RegFirmwareMajor: bv8 := 0x02
  const RegToneFrequencyMsb: bv8 := 0x03
  const RegToneFrequencyLsb: bv8 := 0x04
  const RegVolume: bv8 := 0x05
  const RegDurationMsb: bv8 := 0x06
  const RegDurationLsb: bv8 := 0x07
  const RegActive: bv8 := 0x08
  const RegSaveSettings: bv8 := 0x09
  const RegI2cAddress: bv8 := 0x0A

  /** Number of registers on the device: addresses 0x00 to 0x0A. */
  const RegisterCount: nat := 11

  /** The address the map gives to a logical register. */
  function Address(r: Register): (a: bv8)
    ensures a as int < RegisterCount
  {
    match r
    case Id => RegId
    case FirmwareMinor => RegFirmwareMinor
    case FirmwareMajor => RegFirmwareMajor
    case ToneFrequencyMsb => RegToneFrequencyMsb
    case ToneFrequencyLsb => RegToneFrequencyLsb
    case Volume => RegVolume
    case DurationMsb => RegDurationMsb
    case DurationLsb => RegDurationLsb
    case Active => RegActive
    case SaveSettings => RegSaveSettings
    case I2cAddress => RegI2cAddress
  }

  /** The register at an address of the map: the inverse of Address, so the
      eleven addresses 0x00..0x0A are all in use and no two registers share one. */
  function RegisterAt(a: bv8): (r: Register)
    requires a as int < RegisterCount
    ensures Address(r) == a
  {
    if a == 0x00 then Id
    else if a == 0x01 then FirmwareMinor
    else if a == 0x02 then FirmwareMajor
    else if a == 0x03 then ToneFrequencyMsb
    else if a == 0x04 then ToneFrequencyLsb
    else if a == 0x05 then Volume
    else if a == 0x06 then DurationMsb
    else if a == 0x07 then DurationLsb
    else if a == 0x08 then Active
    else if a == 0x09 then SaveSettings
    else I2cAddress
  }

  /** Distinct registers have distinct addresses. */
  lemma AddressInjective(r1: Register, r2: Register)
    ensures Address(r1) == Address(r2) ==> r1 == r2
  {
  }

  /** The configuration registers sit at consecutive addresses from
      RegToneFrequencyMsb, so a five-byte region write there covers exactly
      them; Active, SaveSettings and I2cAddress lie outside that block. */
  lemma ConfigBlockContiguous()
    ensures forall k :: 0 <= k < |ConfigBlock| ==>
      Address(ConfigBlock[k]) as int == RegToneFrequencyMsb as int + k
    ensures forall r :: Address(r) as int - RegToneFrequencyMsb as int in {0, 1, 2, 3, 4} <==> r in ConfigBlock
  {
  }
}

/** The register protocol shared by the two toolkit drivers: which bus
    operation each driver call issues, and what it does to the registers. */
module BuzzerProtocol {
  import opened Bytes
  import opened RegisterFile
  import opened DevBuzzerRegisters
  import opened ToolkitBus

  /** The five bytes `configureBuzzer` writes from ToneFrequencyMsb on: the
      frequency high byte first, then its low byte, the volume, and the
      duration high and low bytes. */
  function ConfigBytes(toneFrequency: bv16, duration: bv16, volume: bv8): (data: seq<bv8>)
    ensures |data| == 5
    ensures Join(data[0], data[1]) == toneFrequency
    ensures data[2] == volume
    ensures Join(data[3], data[4]) == duration
  {
    [Msb(toneFrequency), Lsb(toneFrequency), volume, Msb(duration), Lsb(duration)]
  }

  /** `configureBuzzer`: one region write of the five configuration bytes. */
  function ConfigureOp(toneFrequency: bv16, duration: bv16, volume: bv8): Op {
    Write(RegToneFrequencyMsb, ConfigBytes(toneFrequency, duration, volume))
  }

  /** `on()`, `off()` and `saveSettings()`: one one-byte write each. */
  const OnOp: Op := Write(RegActive, [1])
  const OffOp: Op := Write(RegActive, [0])
  const SaveSettingsOp: Op := Write(RegSaveSettings, [1])

  /** `setAddress(a)`: the new address written to the I2cAddress register. */
  function SetAddressOp(address: bv8): Op {
    Write(RegI2cAddress, [address])
  }

  /** `begin`: ping the device, then read its Id register. */
  const BeginPlan: seq<Op> := [Ping, Read(RegId)]

  /** What `begin` reports once its plan has run with bus status `busStatus`
      and read `id`: the bus's own error if the ping or the read failed,
      Fail for a device with another Id, Ok only when everything matched. */
  function BeginResult(busStatus: Status, id: bv8, expected: bv8): (r: Status)
    ensures r == Ok <==> busStatus == Ok && id == expected
    ensures busStatus != Ok ==> r == busStatus
    ensures busStatus == Ok && id != expected ==> r == Fail
  {
    if busStatus != Ok then busStatus
    else if id != expected then Fail
    else Ok
  }

  /** A successful configure leaves the requested frequency, volume and
      duration in registers 0x03..0x07, big-endian, and changes no other
      register: in particular it does not write Active, so it never starts
      the buzzer by itself. */
  lemma ConfigureEffect(regs: seq<bv8>, a: bv8, toneFrequency: bv16, duration: bv16, volume: bv8)
    requires |regs| == Size
    ensures var r := Apply(regs, Tx(a, ConfigureOp(toneFrequency, duration, volume), Ok));
      && Join(r[RegToneFrequencyMsb], r[RegToneFrequencyLsb]) == toneFrequency
      && r[RegVolume] == volume
      && Join(r[RegDurationMsb], r[RegDurationLsb]) == duration
      && r[RegActive] == regs[RegActive]
      && forall i :: 0 <= i < Size && !(RegToneFrequencyMsb as int <= i <= RegDurationLsb as int) ==> r[i] == regs[i]
  {
    var data := ConfigBytes(toneFrequency, duration, volume);
    var r := Written(regs, RegToneFrequencyMsb, data);
    assert r[3] == data[0] && r[4] == data[1] && r[5] == data[2] && r[6] == data[3] && r[7] == data[4];
  }

  /** `on()` sets Active to 1 and `off()` sets it to 0; `saveSettings()` sets
      SaveSettings to 1; `setAddress` stores the new address. Each changes that
      one register only. */
  lemma OneByteWrites(regs: seq<bv8>, a: bv8, address: bv8)
    requires |regs| == Size
    ensures Apply(regs, Tx(a, OnOp, Ok)) == regs[RegActive := 1]
    ensures Apply(regs, Tx(a, OffOp, Ok)) == regs[RegActive := 0]
    ensures Apply(regs, Tx(a, SaveSettingsOp, Ok)) == regs[RegSaveSettings := 1]
    ensures Apply(regs, Tx(a, SetAddressOp(address), Ok)) == regs[RegI2cAddress := address]
  {
    assert Apply(regs, Tx(a, OnOp, Ok)) == regs[RegActive := 1];
    assert Apply(regs, Tx(a, OffOp, Ok)) == regs[RegActive := 0];
    assert Apply(regs, Tx(a, SaveSettingsOp, Ok)) == regs[RegSaveSettings := 1];
    assert Apply(regs, Tx(a, SetAddressOp(address), Ok)) == regs[RegI2cAddress := address];
  }
}

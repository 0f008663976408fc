/** The previous toolkit driver class `sfeQwiicBuzzer`: the same register
    protocol as `sfDevBuzzer`, addressing registers through the enumerators of
    its own register map. */
module SfeQwiicBuzzer {
  import opened Bytes
  import opened RegisterNames
  import opened ToolkitBus
  import opened BuzzerProtocol
  import opened Effects
  import SfeQwiicBuzzerRegisters
  import DevBuzzerRegisters

  const DefaultAddress: bv8 := 0x34
  const BuzzerDeviceId: bv8 := 0x5E
  const ResonantFrequency: bv16 := 2730
  const VolumeOff: bv8 := 0
  const VolumeMin: bv8 := 1
  const VolumeLow: bv8 := 2
  const VolumeMid: bv8 := 3
  const VolumeMax: bv8 := 4

  /** The enumerators this driver passes to the bus, by value. */
  const RegId: bv8 := 0x00
  const RegFirmwareMinor: bv8 := 0x01
  const RegFirmwareMajor: bv8 := 0x02
  const RegToneFrequencyMsb: bv8 := 0x03
  const RegToneFrequencyLsb: bv8 := 0x04
  const RegVolume: bv8 := 0x05
  const RegDurationMsb: bv8 := 0x06
  const RegDurationLsb: bv8 := 0x07
  const RegActive: bv8 := 0x08
  const RegSaveSettings: bv8 := 0x09
  const RegI2cAddress: bv8 := 0x0A

  /** Those values are the ones the implicitly numbered enumerators of this
      driver's register map take. */
  lemma EnumeratorValues()
    ensures RegId == SfeQwiicBuzzerRegisters.Value(Id)
    ensures RegFirmwareMinor == SfeQwiicBuzzerRegisters.Value(FirmwareMinor)
    ensures RegFirmwareMajor == SfeQwiicBuzzerRegisters.Value(FirmwareMajor)
    ensures RegToneFrequencyMsb == SfeQwiicBuzzerRegisters.Value(ToneFrequencyMsb)
    ensures RegToneFrequencyLsb == SfeQwiicBuzzerRegisters.Value(ToneFrequencyLsb)
    ensures RegVolume == SfeQwiicBuzzerRegisters.Value(Volume)
    ensures RegDurationMsb == SfeQwiicBuzzerRegisters.Value(DurationMsb)
    ensures RegDurationLsb == SfeQwiicBuzzerRegisters.Value(DurationLsb)
    ensures RegActive == SfeQwiicBuzzerRegisters.Value(Active)
    ensures RegSaveSettings == SfeQwiicBuzzerRegisters.Value(SaveSettings)
    ensures RegI2cAddress == SfeQwiicBuzzerRegisters.Value(I2cAddress)
  {
    SfeQwiicBuzzerRegisters.MatchesDevBuzzerMap(Id);
    SfeQwiicBuzzerRegisters.MatchesDevBuzzerMap(FirmwareMinor);
    SfeQwiicBuzzerRegisters.MatchesDevBuzzerMap(FirmwareMajor);
    SfeQwiicBuzzerRegisters.MatchesDevBuzzerMap(ToneFrequencyMsb);
    SfeQwiicBuzzerRegisters.MatchesDevBuzzerMap(ToneFrequencyLsb);
    SfeQwiicBuzzerRegisters.MatchesDevBuzzerMap(Volume);
    SfeQwiicBuzzerRegisters.MatchesDevBuzzerMap(DurationMsb);
    SfeQwiicBuzzerRegisters.MatchesDevBuzzerMap(DurationLsb);
    SfeQwiicBuzzerRegisters.MatchesDevBuzzerMap(Active);
    SfeQwiicBuzzerRegisters.MatchesDevBuzzerMap(SaveSettings);
    SfeQwiicBuzzerRegisters.MatchesDevBuzzerMap(I2cAddress);
  }

  /** Every enumerator this driver uses addresses the same register as the
      current driver's constant, so both drivers issue the same bus operations. */
  lemma SameAddresses()
    ensures RegId == DevBuzzerRegisters.RegId
    ensures RegFirmwareMinor == DevBuzzerRegisters.RegFirmwareMinor
    ensures RegFirmwareMajor == DevBuzzerRegisters.RegFirmwareMajor
    ensures RegToneFrequencyMsb == DevBuzzerRegisters.RegToneFrequencyMsb
    ensures RegToneFrequencyLsb == DevBuzzerRegisters.RegToneFrequencyLsb
    ensures RegVolume == DevBuzzerRegisters.RegVolume
    ensures RegDurationMsb == DevBuzzerRegisters.RegDurationMsb
    ensures RegDurationLsb == DevBuzzerRegisters.RegDurationLsb
    ensures RegActive == DevBuzzerRegisters.RegActive
    ensures RegSaveSettings == DevBuzzerRegisters.RegSaveSettings
    ensures RegI2cAddress == DevBuzzerRegisters.RegI2cAddress
  {
  }

  /** The range of 7-bit addresses `setAddress` accepts. */
  predicate LegalAddress(address: bv8) {
    0x08 <= address <= 0x77
  }

  class Buzzer {
    var bus: I2cBus?

    /** Ready for register traffic: `begin` has been given a bus. */
    ghost predicate Ready()
      reads this, bus
    {
      bus != null && bus.Valid()
    }

    /** A new driver is not attached to any bus. */
    constructor ()
      ensures bus == null
    {
      bus := null;
    }

    /** Attach to `theBus`, ping the device, then read and check its Id.
        Without a bus nothing is attached and no bus operation happens. */
    method Begin(theBus: I2cBus? := null) returns (err: Status, ghost status: Status)
      requires theBus != null ==> theBus.Valid()
      modifies this, theBus
      ensures theBus == null ==> err == Fail && bus == old(bus)
      ensures theBus != null ==> bus == theBus && Ready() && bus.addr == old(theBus.addr)
      ensures theBus != null ==> bus.regs == old(theBus.regs)
      ensures theBus != null ==>
        Ran(old(theBus.log), bus.log, bus.addr, BeginPlan, status) && err == BeginResult(status, bus.regs[RegId], BuzzerDeviceId)
    {
      if theBus == null {
        return Fail, Fail;
      }
      bus := theBus;
      ghost var l0 := bus.log;
      err := IsConnected();
      status := err;
      RanOne(l0, bus.addr, Op.Ping, err);
      if err != Ok {
        RanAbort(l0, bus.log, bus.addr, [Op.Ping], [Read(RegId)], err);
        assert BeginResult(err, bus.regs[RegId], BuzzerDeviceId) == err;
        return;
      }
      ghost var l1 := bus.log;
      var readDeviceId;
      err, readDeviceId := DeviceId();
      status := err;
      RanOne(l1, bus.addr, Read(RegId), err);
      RanThen(l0, l1, bus.log, bus.addr, [Op.Ping], [Read(RegId)], err);
      assert [Op.Ping] + [Read(RegId)] == BeginPlan;
      if err != Ok {
        assert BeginResult(err, bus.regs[RegId], BuzzerDeviceId) == err;
        return;
      }
      if readDeviceId != BuzzerDeviceId {
        return Fail, status;
      }
      return Ok, status;
    }

    /** Ping the buzzer's address. */
    method IsConnected() returns (err: Status)
      requires Ready()
      modifies bus
      ensures Ready() && bus.addr == old(bus.addr) && bus.regs == old(bus.regs)
      ensures bus.log == old(bus.log) + [Tx(bus.addr, Op.Ping, err)]
    {
      err := bus.Ping();
    }

    /** Read the Id register; `deviceId` is meaningful only when `err` is Ok. */
    method DeviceId() returns (err: Status, deviceId: bv8)
      requires Ready()
      modifies bus
      ensures Ready() && bus.addr == old(bus.addr) && bus.regs == old(bus.regs)
      ensures bus.log == old(bus.log) + [Tx(bus.addr, Read(RegId), err)]
      ensures err == Ok ==> deviceId == bus.regs[RegId]
    {
      err, deviceId := bus.ReadRegister(RegId);
    }

    /** Read the FirmwareMajor register; true iff the read succeeded. */
    method FirmwareVersionMajor() returns (ok: bool, versionMajor: bv8)
      requires Ready()
      modifies bus
      ensures Ready() && bus.addr == old(bus.addr) && bus.regs == old(bus.regs)
      ensures exists s :: bus.log == old(bus.log) + [Tx(bus.addr, Read(RegFirmwareMajor), s)] && (ok <==> s == Ok)
      ensures ok ==> versionMajor == bus.regs[RegFirmwareMajor]
    {
      var err;
      err, versionMajor := bus.ReadRegister(RegFirmwareMajor);
      ok := err == Ok;
    }

    /** Read the FirmwareMinor register; true iff the read succeeded. */
    method FirmwareVersionMinor() returns (ok: bool, versionMinor: bv8)
      requires Ready()
      modifies bus
      ensures Ready() && bus.addr == old(bus.addr) && bus.regs == old(bus.regs)
      ensures exists s :: bus.log == old(bus.log) + [Tx(bus.addr, Read(RegFirmwareMinor), s)] && (ok <==> s == Ok)
      ensures ok ==> versionMinor == bus.regs[RegFirmwareMinor]
    {
      var err;
      err, versionMinor := bus.ReadRegister(RegFirmwareMinor);
      ok := err == Ok;
    }

    /** Store frequency, volume and duration in one region write from
        ToneFrequencyMsb on. The buzzer is not switched on. */
    method ConfigureBuzzer(toneFrequency: bv16 := ResonantFrequency, duration: bv16 := 0, volume: bv8 := VolumeMax)
      returns (err: Status)
      requires Ready()
      modifies bus
      ensures Ready() && bus.addr == old(bus.addr)
      ensures bus.log == old(bus.log) + [Tx(bus.addr, ConfigureOp(toneFrequency, duration, volume), err)]
      ensures err == Ok ==>
        && Join(bus.regs[RegToneFrequencyMsb], bus.regs[RegToneFrequencyLsb]) == toneFrequency
        && bus.regs[RegVolume] == volume
        && Join(bus.regs[RegDurationMsb], bus.regs[RegDurationLsb]) == duration
        && bus.regs[RegActive] == old(bus.regs)[RegActive]
        && forall i :: 0 <= i < |bus.regs| && !(RegToneFrequencyMsb as int <= i <= RegDurationLsb as int) ==>
             bus.regs[i] == old(bus.regs)[i]
      ensures err != Ok ==> bus.regs == old(bus.regs)
    {
      var toneFrequencyMsb := Msb(toneFrequency);
      var toneFrequencyLsb := Lsb(toneFrequency);
      var durationMsb := Msb(duration);
      var durationLsb := Lsb(duration);
      var data := new bv8[5];
      data[0] := toneFrequencyMsb;
      data[1] := toneFrequencyLsb;
      data[2] := volume;
      data[3] := durationMsb;
      data[4] := durationLsb;
      assert data[..] == ConfigBytes(toneFrequency, duration, volume);
      err := bus.WriteRegister(RegToneFrequencyMsb, data[..]);
      if err == Ok {
        ConfigureEffect(old(bus.regs), bus.addr, toneFrequency, duration, volume);
      }
    }

    /** Write 1 to Active: the buzzer sounds with the stored configuration. */
    method On() returns (err: Status)
      requires Ready()
      modifies bus
      ensures Ready() && bus.addr == old(bus.addr)
      ensures bus.log == old(bus.log) + [Tx(bus.addr, OnOp, err)]
      ensures bus.regs == if err == Ok then old(bus.regs)[RegActive := 1] else old(bus.regs)
    {
      err := bus.WriteRegister(RegActive, [1]);
      OneByteWrites(old(bus.regs), bus.addr, 0);
    }

    /** Write 0 to Active: the buzzer stops. */
    method Off() returns (err: Status)
      requires Ready()
      modifies bus
      ensures Ready() && bus.addr == old(bus.addr)
      ensures bus.log == old(bus.log) + [Tx(bus.addr, OffOp, err)]
      ensures bus.regs == if err == Ok then old(bus.regs)[RegActive := 0] else old(bus.regs)
    {
      err := bus.WriteRegister(RegActive, [0]);
      OneByteWrites(old(bus.regs), bus.addr, 0);
    }

    /** Write 1 to SaveSettings: the device stores its settings. */
    method SaveSettings() returns (err: Status)
      requires Ready()
      modifies bus
      ensures Ready() && bus.addr == old(bus.addr)
      ensures bus.log == old(bus.log) + [Tx(bus.addr, SaveSettingsOp, err)]
      ensures bus.regs == if err == Ok then old(bus.regs)[RegSaveSettings := 1] else old(bus.regs)
    {
      err := bus.WriteRegister(RegSaveSettings, [1]);
      OneByteWrites(old(bus.regs), bus.addr, 0);
    }

    /** Give the device a new address. An address outside 0x08..0x77 is refused
        before any bus traffic; otherwise the new address is written to the
        I2cAddress register, and only when that succeeds does the bus talk to
        the new address from then on. */
    method SetAddress(address: bv8) returns (err: Status)
      requires Ready()
      modifies bus
      ensures Ready()
      ensures !LegalAddress(address) ==>
        err == Fail && bus.log == old(bus.log) && bus.regs == old(bus.regs) && bus.addr == old(bus.addr)
      ensures LegalAddress(address) ==>
        exists s :: bus.log == old(bus.log) + [Tx(old(bus.addr), SetAddressOp(address), s)] && err == s
      ensures LegalAddress(address) && err == Ok ==>
        bus.addr == address && bus.regs == old(bus.regs)[RegI2cAddress := address]
      ensures LegalAddress(address) && err != Ok ==>
        bus.addr == old(bus.addr) && bus.regs == old(bus.regs)
    {
      if address < 0x08 || address > 0x77 {
        return Fail;
      }
      err := bus.WriteRegister(RegI2cAddress, [address]);
      OneByteWrites(old(bus.regs), bus.addr, address);
      if err != Ok {
        return;
      }
      bus.SetAddress(address);
      return Ok;
    }

    /** The address the bus is talking to. */
    method Address() returns (address: bv8)
      requires Ready()
      ensures address == bus.addr
    {
      address := bus.addr;
    }

    /** Play sound effect `n` at `volume`: true iff the effect ran without
        error. An unknown effect number is refused without bus traffic. */
    method PlaySoundEffect(n: bv8, volume: bv8) returns (ok: bool, ghost err: Status)
      requires Ready()
      modifies bus
      ensures Ready() && bus.addr == old(bus.addr)
      ensures n > 9 ==> !ok && bus.log == old(bus.log) && bus.regs == old(bus.regs)
      ensures n <= 9 ==> Ran(old(bus.log), bus.log, bus.addr, EffectPlan(Numbered(n), volume), err)
      ensures ok <==> err == Ok
    {
      var status;
      if n > 9 {
        status := Fail;
      } else {
        var e := Numbered(n);
        match e {
          case Siren => status := SoundEffect0(volume);
          case TripleSiren => status := SoundEffect1(volume);
          case SlowRise => status := SoundEffect2(volume);
          case FastRise => status := SoundEffect3(volume);
          case SlowFall => status := SoundEffect4(volume);
          case FastFall => status := SoundEffect5(volume);
          case Laugh => status := SoundEffect6(volume);
          case QuickLaugh => status := SoundEffect7(volume);
          case Cry => status := SoundEffect8(volume);
          case QuickCry => status := SoundEffect9(volume);
        }
      }
      ok := status == Ok;
      err := status;
    }

    /** One turn of a sweep loop: configure the note with duration 0 at the
        given volume, then switch the buzzer on unless the configure failed. */
    method PlayNote(note: int, volume: bv8) returns (err: Status)
      requires Ready()
      modifies bus
      ensures Ready() && bus.addr == old(bus.addr)
      ensures Ran(old(bus.log), bus.log, bus.addr, [ConfigureOp(Tone(note), 0, volume), OnOp], err)
    {
      var tone := Tone(note);
      ghost var configure := ConfigureOp(tone, 0, volume);
      assert [] + [configure] == [configure];
      assert [configure] + [OnOp] == [configure, OnOp];
      ghost var l0 := bus.log;
      RanNothing(l0, bus.addr);
      err := ConfigureBuzzer(tone, 0, volume);
      RanStep(l0, l0, bus.addr, [], configure, [OnOp], err);
      if err != Ok {
        return;
      }
      ghost var l1 := bus.log;
      err := On();
      RanStep(l0, l1, bus.addr, [configure], OnOp, [], err);
    }

    /** A sweep loop: while the guard holds, play the note and step; the
        first failing write ends the loop with its error. */
    method PlaySweep(first: int, bound: int, step: Step, volume: bv8) returns (err: Status)
      requires Ready()
      modifies bus
      ensures Ready() && bus.addr == old(bus.addr)
      ensures Ran(old(bus.log), bus.log, bus.addr, SweepPlan(first, bound, step, volume), err)
    {
      var note := first;
      ghost var done: seq<Op> := [];
      RanNothing(bus.log, bus.addr);
      while Continues(note, bound, step)
        invariant Ready() && bus.addr == old(bus.addr)
        invariant SweepPlan(first, bound, step, volume) == done + SweepPlan(note, bound, step, volume)
        invariant Ran(old(bus.log), bus.log, bus.addr, done, Ok)
        decreases if step > 0 then bound - note else note - bound
      {
        ghost var turn := [ConfigureOp(Tone(note), 0, volume), OnOp];
        ghost var rest := SweepPlan(note + step, bound, step, volume);
        SweepAdvance(first, bound, step, volume, done, note);
        ghost var l1 := bus.log;
        err := PlayNote(note, volume);
        RanSeq(old(bus.log), l1, bus.log, bus.addr, done, turn, rest, err);
        if err != Ok {
          return;
        }
        done := done + turn;
        note := note + step;
      }
      SweepFinished(first, bound, step, volume, done, note);
      err := Ok;
    }

    /** One part of an effect: its sweep loop, or `off()`. */
    method PlayPart(p: Part, volume: bv8) returns (err: Status)
      requires Ready()
      modifies bus
      ensures Ready() && bus.addr == old(bus.addr)
      ensures Ran(old(bus.log), bus.log, bus.addr, PartOps(p, volume), err)
    {
      match p
      case Sweep(first, bound, step) =>
        err := PlaySweep(first, bound, step, volume);
      case Silence =>
        err := Off();
        RanOne(old(bus.log), bus.addr, OffOp, err);
    }

    /** The parts of an effect in order; the first failing write ends the
        effect with its error and skips everything after it. */
    method PlayScript(script: seq<Part>, volume: bv8) returns (err: Status)
      requires Ready()
      modifies bus
      ensures Ready() && bus.addr == old(bus.addr)
      ensures Ran(old(bus.log), bus.log, bus.addr, ScriptOps(script, volume), err)
    {
      ghost var l0 := bus.log;
      RanNothing(l0, bus.addr);
      err := Ok;
      for k := 0 to |script|
        invariant Ready() && bus.addr == old(bus.addr)
        invariant l0 == old(bus.log) && err == Ok
        invariant Ran(l0, bus.log, bus.addr, ScriptOps(script[..k], volume), Ok)
      {
        ghost var l1 := bus.log;
        err := PlayPart(script[k], volume);
        RanPart(l0, l1, bus.log, bus.addr, script, k, volume, err);
        if err != Ok {
          return;
        }
      }
      assert script[..|script|] == script;
    }

    /** Siren up and down once, then off. */
    method SoundEffect0(volume: bv8) returns (err: Status)
      requires Ready()
      modifies bus
      ensures Ready() && bus.addr == old(bus.addr)
      ensures Ran(old(bus.log), bus.log, bus.addr, EffectPlan(Siren, volume), err)
    {
      err := PlayScript(Script(Siren), volume);
    }

    /** Three fast siren cycles, then off. */
    method SoundEffect1(volume: bv8) returns (err: Status)
      requires Ready()
      modifies bus
      ensures Ready() && bus.addr == old(bus.addr)
      ensures Ran(old(bus.log), bus.log, bus.addr, EffectPlan(TripleSiren, volume), err)
    {
      err := PlayScript(Script(TripleSiren), volume);
    }

    /** Slow rising siren sweep, then off. */
    method SoundEffect2(volume: bv8) returns (err: Status)
      requires Ready()
      modifies bus
      ensures Ready() && bus.addr == old(bus.addr)
      ensures Ran(old(bus.log), bus.log, bus.addr, EffectPlan(SlowRise, volume), err)
    {
      err := PlayScript(Script(SlowRise), volume);
    }

    /** Fast rising siren sweep, then off. */
    method SoundEffect3(volume: bv8) returns (err: Status)
      requires Ready()
      modifies bus
      ensures Ready() && bus.addr == old(bus.addr)
      ensures Ran(old(bus.log), bus.log, bus.addr, EffectPlan(FastRise, volume), err)
    {
      err := PlayScript(Script(FastRise), volume);
    }

    /** Slow falling siren sweep, then off. */
    method SoundEffect4(volume: bv8) returns (err: Status)
      requires Ready()
      modifies bus
      ensures Ready() && bus.addr == old(bus.addr)
      ensures Ran(old(bus.log), bus.log, bus.addr, EffectPlan(SlowFall, volume), err)
    {
      err := PlayScript(Script(SlowFall), volume);
    }

    /** Fast falling siren sweep, then off. */
    method SoundEffect5(volume: bv8) returns (err: Status)
      requires Ready()
      modifies bus
      ensures Ready() && bus.addr == old(bus.addr)
      ensures Ran(old(bus.log), bus.log, bus.addr, EffectPlan(FastFall, volume), err)
    {
      err := PlayScript(Script(FastFall), volume);
    }

    /** Four laugh sweeps with step LaughStep, each followed by off. */
    method SoundEffect6(volume: bv8) returns (err: Status)
      requires Ready()
      modifies bus
      ensures Ready() && bus.addr == old(bus.addr)
      ensures Ran(old(bus.log), bus.log, bus.addr, EffectPlan(Laugh, volume), err)
    {
      err := PlayScript(Script(Laugh), volume);
    }

    /** Four laugh sweeps with step QuickLaughStep, each followed by off. */
    method SoundEffect7(volume: bv8) returns (err: Status)
      requires Ready()
      modifies bus
      ensures Ready() && bus.addr == old(bus.addr)
      ensures Ran(old(bus.log), bus.log, bus.addr, EffectPlan(QuickLaugh, volume), err)
    {
      err := PlayScript(Script(QuickLaugh), volume);
    }

    /** Three cry sweeps with step CryStep, each followed by off. */
    method SoundEffect8(volume: bv8) returns (err: Status)
      requires Ready()
      modifies bus
      ensures Ready() && bus.addr == old(bus.addr)
      ensures Ran(old(bus.log), bus.log, bus.addr, EffectPlan(Cry, volume), err)
    {
      err := PlayScript(Script(Cry), volume);
    }

    /** Three cry sweeps with step QuickCryStep, each followed by off. */
    method SoundEffect9(volume: bv8) returns (err: Status)
      requires Ready()
      modifies bus
      ensures Ready() && bus.addr == old(bus.addr)
      ensures Ran(old(bus.log), bus.log, bus.addr, EffectPlan(QuickCry, volume), err)
    {
      err := PlayScript(Script(QuickCry), volume);
    }
  }

  /** A new driver whose `begin()` is called without a bus fails. */
  method NewDriverBeginFails() returns (err: Status)
    ensures err == Fail
  {
    var buzzer := new Buzzer();
    ghost var status;
    err, status := buzzer.Begin();
  }
}

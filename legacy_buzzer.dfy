/** The legacy Arduino driver `QwiicBuzzer`: it keeps the device address and
    the `TwoWire` port in fields and talks to the registers one transmission
    at a time. Register arguments are one-byte register addresses. */
module QwiicBuzzerLegacy {
  import opened Bytes
  import opened RegisterNames
  import opened RegisterFile
  import opened Wire
  import LegacyRegisters

  /** The `SFE_QWIIC_BUTTON_*` names the driver uses: the registers it reads
      the Id, the firmware version and the address from, and the Id it
      expects. They are not defined next to the driver, so they are
      parameters of the model. */
  datatype ButtonConstants = ButtonConstants(
    id: bv8, devId: bv8, firmwareMajor: bv8, firmwareMinor: bv8, i2cAddress: bv8)

  /** The range of 7-bit addresses `setI2Caddress` accepts. */
  predicate LegalAddress(address: bv8) {
    0x08 <= address <= 0x77
  }

  /** `readSingleRegister`'s result for the bytes that arrived: the byte, or
      0 when none did. */
  function SingleReading(rx: seq<bv8>): (value: bv8)
    requires |rx| <= 1
    ensures rx != [] ==> value == rx[0]
    ensures rx == [] ==> value == 0
  {
    if rx == [] then 0 else rx[0]
  }

  /** `read()` kept in a `uint16_t`: a byte as itself, -1 as 0xFFFF. */
  function Widened(r: ReadResult): bv16 {
    match r
    case Byte(b) => b as bv16
    case NoData => 0xFFFF
  }

  /** Two reads combined in 16 bits, the first as the low byte and the
      second shifted into the high byte: two bytes b0, b1 give b1 * 256 + b0,
      and a missing second byte (-1) fills the high byte with ones. */
  function DoubleValue(first: ReadResult, second: ReadResult): (v: bv16)
    ensures first.Byte? && second.Byte? ==> v == Join(second.value, first.value)
    ensures first.Byte? && second.NoData? ==> v == Join(0xFF, first.value)
  {
    Widened(first) | (Widened(second) << 8)
  }

  /** `readDoubleRegister`'s result for the bytes that arrived: 0 when none
      did, otherwise the two reads combined. */
  function DoubleReading(rx: seq<bv8>): (value: bv16)
    requires |rx| <= 2
    ensures |rx| == 2 ==> value == Join(rx[1], rx[0])
    ensures |rx| == 1 ==> value == Join(0xFF, rx[0])
    ensures rx == [] ==> value == 0
  {
    if rx == [] then 0
    else if |rx| == 1 then DoubleValue(Byte(rx[0]), NoData)
    else DoubleValue(Byte(rx[0]), Byte(rx[1]))
  }

  /** The bytes `writeDoubleRegister` sends after the register: low byte
      first, then high byte. */
  function LittleEndian(data: bv16): (bytes: seq<bv8>)
    ensures |bytes| == 2 && Join(bytes[1], bytes[0]) == data
  {
    [Lsb(data), Msb(data)]
  }

  /** Writing a 16-bit value and reading it back from the same register
      returns it, when the device acknowledged the write and the pointer
      transmission and both bytes arrived. */
  lemma DoubleRoundTrip(d: Device, reg: bv8, data: bv16)
    requires |d.regs| == Size && InMap(reg, 2)
    ensures var d1 := AfterSend(d, [reg] + LittleEndian(data), 0);
      var d2 := AfterSend(d1, [reg], 0);
      InMap(d2.pointer, 2) && DoubleReading(Fetch(d2, 2)) == data
  {
    var bytes := LittleEndian(data);
    assert [reg] + bytes == [reg, bytes[0], bytes[1]];
    SentPair(d, reg, bytes[0], bytes[1], 0);
    var d1 := AfterSend(d, [reg] + bytes, 0);
    SentPointer(d1, reg, 0);
    var d2 := AfterSend(d1, [reg], 0);
    assert Fetch(d2, 2) == [bytes[0], bytes[1]];
  }

  /** A one-byte write followed by a one-byte read of the same register
      returns the byte written, when all three exchanges went through. */
  lemma SingleRoundTrip(d: Device, reg: bv8, data: bv8)
    requires |d.regs| == Size && InMap(reg, 1)
    ensures var d1 := AfterSend(d, [reg, data], 0);
      var d2 := AfterSend(d1, [reg], 0);
      InMap(d2.pointer, 1) && SingleReading(Fetch(d2, 1)) == data
  {
    SentByte(d, reg, data, 0);
    var d1 := AfterSend(d, [reg, data], 0);
    SentPointer(d1, reg, 0);
    var d2 := AfterSend(d1, [reg], 0);
    assert Fetch(d2, 1) == [data];
  }

  /** A read through an acknowledged pointer transmission leaves the
      registers alone and returns the byte of the register pointed at. */
  lemma ReadsRegister(d: Device, reg: bv8)
    requires |d.regs| == Size && InMap(reg, 1)
    ensures var e := AfterSend(d, [reg], 0);
      e.regs == d.regs && InMap(e.pointer, 1) && SingleReading(Fetch(e, 1)) == d.regs[reg]
  {
    SentPointer(d, reg, 0);
  }

  /** `getFirmwareVersion` over two acknowledged pointer transmissions with
      one byte arriving each time: the major register's byte above the minor
      register's. */
  lemma FirmwareVersionFromRegisters(d: Device, major: bv8, minor: bv8)
    requires |d.regs| == Size && InMap(major, 1) && InMap(minor, 1)
    ensures var m := AfterSend(d, [major], 0);
      var e := AfterSend(m, [minor], 0);
      && InMap(m.pointer, 1) && InMap(e.pointer, 1)
      && Join(SingleReading(Fetch(m, 1)), SingleReading(Fetch(e, 1))) == Join(d.regs[major], d.regs[minor])
  {
    ReadsRegister(d, major);
    ReadsRegister(AfterSend(d, [major], 0), minor);
  }

  /** The five transmissions `BUZZERconfig` sends, in order: Volume, then
      the frequency high and low bytes, then the duration high and low bytes. */
  function ConfigWrites(toneFrequency: bv16, duration: bv16, volume: bv8): (msgs: seq<seq<bv8>>)
    ensures |msgs| == 5
    ensures forall k :: 0 <= k < 5 ==> |msgs[k]| == 2
    ensures msgs[0] == [LegacyRegisters.Value(Volume), volume]
    ensures msgs[1][0] == LegacyRegisters.Value(ToneFrequencyMsb) && msgs[2][0] == LegacyRegisters.Value(ToneFrequencyLsb)
    ensures Join(msgs[1][1], msgs[2][1]) == toneFrequency
    ensures msgs[3][0] == LegacyRegisters.Value(DurationMsb) && msgs[4][0] == LegacyRegisters.Value(DurationLsb)
    ensures Join(msgs[3][1], msgs[4][1]) == duration
  {
    [[LegacyRegisters.Value(Volume), volume],
     [LegacyRegisters.Value(ToneFrequencyMsb), Msb(toneFrequency)],
     [LegacyRegisters.Value(ToneFrequencyLsb), Lsb(toneFrequency)],
     [LegacyRegisters.Value(DurationMsb), Msb(duration)],
     [LegacyRegisters.Value(DurationLsb), Lsb(duration)]]
  }

  /** The five transmissions with the register addresses written out. */
  lemma ConfigWritesAt(toneFrequency: bv16, duration: bv16, volume: bv8)
    ensures ConfigWrites(toneFrequency, duration, volume) ==
      [[0x05, volume], [0x03, Msb(toneFrequency)], [0x04, Lsb(toneFrequency)], [0x06, Msb(duration)], [0x07, Lsb(duration)]]
  {
  }

  /** The log entries of those transmissions to `address`, with statuses `statuses`. */
  function ConfigLog(address: bv8, toneFrequency: bv16, duration: bv16, volume: bv8, statuses: seq<bv8>): (events: seq<Event>)
    requires |statuses| == 5
    ensures |events| == 5
  {
    [Sent(address, [0x05, volume], statuses[0]), Sent(address, [0x03, Msb(toneFrequency)], statuses[1]),
     Sent(address, [0x04, Lsb(toneFrequency)], statuses[2]), Sent(address, [0x06, Msb(duration)], statuses[3]),
     Sent(address, [0x07, Lsb(duration)], statuses[4])]
  }

  /** The log of a configuration holds one entry per transmission of
      ConfigWrites, in order, each with its own status. */
  lemma ConfigLogMatchesWrites(address: bv8, toneFrequency: bv16, duration: bv16, volume: bv8, statuses: seq<bv8>)
    requires |statuses| == 5
    ensures var events := ConfigLog(address, toneFrequency, duration, volume, statuses);
      forall k :: 0 <= k < 5 ==> events[k] == Sent(address, ConfigWrites(toneFrequency, duration, volume)[k], statuses[k])
  {
    ConfigWritesAt(toneFrequency, duration, volume);
  }

  /** The registers after one single-byte write with status `status`. */
  function Acked(regs: seq<bv8>, reg: nat, b: bv8, status: bv8): (r: seq<bv8>)
    requires reg < |regs|
    ensures |r| == |regs|
  {
    if status == 0 then regs[reg := b] else regs
  }

  /** An acknowledged write changes its own register and no other; an
      unacknowledged one changes nothing. */
  lemma AckedEffect(regs: seq<bv8>, reg: nat, b: bv8, status: bv8)
    requires reg < |regs|
    ensures Acked(regs, reg, b, status)[reg] == if status == 0 then b else regs[reg]
    ensures forall i :: 0 <= i < |regs| && i != reg ==> Acked(regs, reg, b, status)[i] == regs[i]
  {
  }

  /** The five single-byte writes of a configuration, on the registers alone. */
  function ConfigRegs(regs: seq<bv8>, toneFrequency: bv16, duration: bv16, volume: bv8, statuses: seq<bv8>): (r: seq<bv8>)
    requires |regs| == Size && |statuses| == 5
    ensures |r| == Size
  {
    Acked(Acked(Acked(Acked(Acked(regs,
      0x05, volume, statuses[0]), 0x03, Msb(toneFrequency), statuses[1]), 0x04, Lsb(toneFrequency), statuses[2]),
      0x06, Msb(duration), statuses[3]), 0x07, Lsb(duration), statuses[4])
  }

  /** Each configuration register holds its new byte exactly when its own
      write was acknowledged; the other registers keep theirs. */
  lemma ConfigEffect(regs: seq<bv8>, toneFrequency: bv16, duration: bv16, volume: bv8, statuses: seq<bv8>)
    requires |regs| == Size && |statuses| == 5
    ensures var r := ConfigRegs(regs, toneFrequency, duration, volume, statuses);
      && r[0x05] == (if statuses[0] == 0 then volume else regs[0x05])
      && r[0x03] == (if statuses[1] == 0 then Msb(toneFrequency) else regs[0x03])
      && r[0x04] == (if statuses[2] == 0 then Lsb(toneFrequency) else regs[0x04])
      && r[0x06] == (if statuses[3] == 0 then Msb(duration) else regs[0x06])
      && r[0x07] == (if statuses[4] == 0 then Lsb(duration) else regs[0x07])
      && forall i :: 0 <= i < 3 || 8 <= i < Size ==> r[i] == regs[i]
  {
    var r1 := Acked(regs, 0x05, volume, statuses[0]);
    var r2 := Acked(r1, 0x03, Msb(toneFrequency), statuses[1]);
    var r3 := Acked(r2, 0x04, Lsb(toneFrequency), statuses[2]);
    var r4 := Acked(r3, 0x06, Msb(duration), statuses[3]);
    AckedEffect(regs, 0x05, volume, statuses[0]);
    AckedEffect(r1, 0x03, Msb(toneFrequency), statuses[1]);
    AckedEffect(r2, 0x04, Lsb(toneFrequency), statuses[2]);
    AckedEffect(r3, 0x06, Msb(duration), statuses[3]);
    AckedEffect(r4, 0x07, Lsb(duration), statuses[4]);
  }

  /** The register pointer after a configuration: the last register whose
      write was acknowledged, or where it was when none was. */
  function ConfigPointer(pointer: bv8, statuses: seq<bv8>): bv8
    requires |statuses| == 5
  {
    if statuses[4] == 0 then 0x07
    else if statuses[3] == 0 then 0x06
    else if statuses[2] == 0 then 0x04
    else if statuses[1] == 0 then 0x03
    else if statuses[0] == 0 then 0x05
    else pointer
  }

  /** The device after `BUZZERconfig`'s five transmissions with statuses `statuses`. */
  function ConfigState(d: Device, toneFrequency: bv16, duration: bv16, volume: bv8, statuses: seq<bv8>): (e: Device)
    requires |d.regs| == Size && |statuses| == 5
    ensures |e.regs| == Size
  {
    Device(ConfigRegs(d.regs, toneFrequency, duration, volume, statuses), ConfigPointer(d.pointer, statuses))
  }

  /** The device after the five transmissions of ConfigWrites (as
      ConfigWritesAt spells them out), sent one after the other. */
  function ConfigSent(d: Device, toneFrequency: bv16, duration: bv16, volume: bv8, statuses: seq<bv8>): (e: Device)
    requires |d.regs| == Size && |statuses| == 5
    ensures |e.regs| == Size
  {
    AfterSend(AfterSend(AfterSend(AfterSend(AfterSend(d,
      [0x05, volume], statuses[0]), [0x03, Msb(toneFrequency)], statuses[1]),
      [0x04, Lsb(toneFrequency)], statuses[2]), [0x06, Msb(duration)], statuses[3]),
      [0x07, Lsb(duration)], statuses[4])
  }

  /** Sent over the wire, the five transmissions leave the device in
      ConfigState: each acknowledged one stores its byte, and the pointer
      rests on the last acknowledged register. */
  lemma ConfigSends(d: Device, toneFrequency: bv16, duration: bv16, volume: bv8, statuses: seq<bv8>)
    requires |d.regs| == Size && |statuses| == 5
    ensures ConfigSent(d, toneFrequency, duration, volume, statuses) ==
      ConfigState(d, toneFrequency, duration, volume, statuses)
  {
    SentByte(d, 0x05, volume, statuses[0]);
    var e1 := AfterSend(d, [0x05, volume], statuses[0]);
    SentByte(e1, 0x03, Msb(toneFrequency), statuses[1]);
    var e2 := AfterSend(e1, [0x03, Msb(toneFrequency)], statuses[1]);
    SentByte(e2, 0x04, Lsb(toneFrequency), statuses[2]);
    var e3 := AfterSend(e2, [0x04, Lsb(toneFrequency)], statuses[2]);
    SentByte(e3, 0x06, Msb(duration), statuses[3]);
    var e4 := AfterSend(e3, [0x06, Msb(duration)], statuses[3]);
    SentByte(e4, 0x07, Lsb(duration), statuses[4]);
  }

  /** A configuration whose five writes were all acknowledged stores the
      frequency and the duration big-endian, and the volume. */
  lemma ConfigStored(regs: seq<bv8>, toneFrequency: bv16, duration: bv16, volume: bv8, statuses: seq<bv8>)
    requires |regs| == Size && |statuses| == 5
    requires statuses == [0, 0, 0, 0, 0]
    ensures var r := ConfigRegs(regs, toneFrequency, duration, volume, statuses);
      && Join(r[LegacyRegisters.Value(ToneFrequencyMsb)], r[LegacyRegisters.Value(ToneFrequencyLsb)]) == toneFrequency
      && r[LegacyRegisters.Value(Volume)] == volume
      && Join(r[LegacyRegisters.Value(DurationMsb)], r[LegacyRegisters.Value(DurationLsb)]) == duration
  {
    ConfigEffect(regs, toneFrequency, duration, volume, statuses);
    SplitJoin(toneFrequency);
    SplitJoin(duration);
  }

  /** `writeSingleRegisterWithReadback` as written: 1 as soon as the write
      is acknowledged; only after a failed write is the register read back,
      giving 2 for a mismatch and 0 for a match. So 0 never reports a
      confirmed write. */
  function ReadbackCode(writeAcked: bool, readBack: bv16, data: bv16): (code: bv8)
    ensures writeAcked <==> code == 1
    ensures code == 0 <==> !writeAcked && readBack == data
    ensures code == 2 <==> !writeAcked && readBack != data
  {
    if writeAcked then 1
    else if readBack != data then 2
    else 0
  }

  /** On the device: an acknowledged write puts `data` in the register and
      is reported with code 1 (nothing is read back); a write nobody
      acknowledged leaves the device as it was, and when the register
      already held `data` the readback that follows reports 0. */
  lemma ReadbackCodesInverted(d: Device, reg: bv8, data: bv8, status: bv8)
    requires |d.regs| == Size && InMap(reg, 1) && status != 0
    ensures AfterSend(d, [reg, data], 0).regs[reg] == data
    ensures ReadbackCode(true, SingleReading([]) as bv16, data as bv16) == 1
    ensures AfterSend(d, [reg, data], status) == d
    ensures d.regs[reg] == data ==>
      var pointed := AfterSend(AfterSend(d, [reg, data], status), [reg], 0);
      InMap(pointed.pointer, 1) && ReadbackCode(false, SingleReading(Fetch(pointed, 1)) as bv16, data as bv16) == 0
  {
    SentByte(d, reg, data, 0);
    SentPointer(d, reg, 0);
    var pointed := AfterSend(d, [reg], 0);
    assert Fetch(pointed, 1) == [d.regs[reg]];
  }

  /** The result codes the readback functions evidently mean: 0 for a write
      that was acknowledged and reads back unchanged, 1 for an
      unacknowledged write, 2 for a register that reads back differently. */
  function IntendedReadbackCode(writeAcked: bool, readBack: bv16, data: bv16): (code: bv8)
    ensures code == 0 <==> writeAcked && readBack == data
    ensures code == 1 <==> !writeAcked
    ensures code == 2 <==> writeAcked && readBack != data
  {
    if !writeAcked then 1
    else if readBack != data then 2
    else 0
  }

  /** On the device: an acknowledged write read back through an
      acknowledged pointer transmission gives the corrected code 0. */
  lemma IntendedReadbackMatches(d: Device, reg: bv8, data: bv8)
    requires |d.regs| == Size && InMap(reg, 1)
    ensures var pointed := AfterSend(AfterSend(d, [reg, data], 0), [reg], 0);
      InMap(pointed.pointer, 1) && IntendedReadbackCode(true, SingleReading(Fetch(pointed, 1)) as bv16, data as bv16) == 0
  {
    SingleRoundTrip(d, reg, data);
  }

  /** The 16-bit counterpart: an acknowledged write read back through an
      acknowledged pointer transmission, with both bytes arriving, gives the
      corrected code 0. */
  lemma IntendedDoubleReadbackMatches(d: Device, reg: bv8, data: bv16)
    requires |d.regs| == Size && InMap(reg, 2)
    ensures var pointed := AfterSend(AfterSend(d, [reg] + LittleEndian(data), 0), [reg], 0);
      InMap(pointed.pointer, 2) && IntendedReadbackCode(true, DoubleReading(Fetch(pointed, 2)), data) == 0
  {
    DoubleRoundTrip(d, reg, data);
  }

  /** `setI2Caddress`'s result as written: true (1) for an address out of
      range, so a refused address is reported like a successful change. */
  function SetAddressResult(address: bv8, writeAcked: bool): (ok: bool)
    ensures ok <==> !LegalAddress(address) || writeAcked
  {
    if address < 0x08 || address > 0x77 then true else writeAcked
  }

  /** The result `setI2Caddress` evidently means: true exactly when the
      address was legal and the device took it. */
  function IntendedSetAddressResult(address: bv8, writeAcked: bool): (ok: bool)
    ensures ok <==> LegalAddress(address) && writeAcked
  {
    if address < 0x08 || address > 0x77 then false else writeAcked
  }

  class QwiicBuzzer {
    var deviceAddress: bv8
    var port: TwoWire?
    const button: ButtonConstants

    ghost predicate Ready()
      reads this`port, port
    {
      port != null && port.Valid()
    }

    /** A new driver has no port yet. */
    constructor (button: ButtonConstants)
      ensures port == null && this.button == button
    {
      this.button := button;
      port := null;
    }

    /** Remember the address and the port; true iff the device answers and
        its Id register holds the expected Id. The Id is read only when
        the probe was acknowledged. */
    method Begin(address: bv8, wirePort: TwoWire) returns (ok: bool, ghost probe: bv8, ghost status: bv8, ghost rx: seq<bv8>)
      requires wirePort.Valid()
      modifies this, wirePort
      ensures Ready() && port == wirePort && deviceAddress == address
      ensures probe != 0 ==> !ok && port.log == old(wirePort.log) + [Sent(address, [], probe)]
      ensures probe != 0 ==> port.State() == old(wirePort.State())
      ensures probe == 0 ==> |rx| <= 1
      ensures probe == 0 ==>
        port.log == old(wirePort.log) + [Sent(address, [], 0), Sent(address, [button.id], status), Received(address, 1, rx)]
      ensures probe == 0 ==> port.State() == AfterSend(old(wirePort.State()), [button.id], status)
      ensures probe == 0 ==> InMap(port.pointer, |rx|) && rx == Fetch(port.State(), |rx|)
      ensures ok <==> probe == 0 && SingleReading(rx) == button.devId
    {
      deviceAddress := address;
      port := wirePort;
      var connected;
      connected, probe := IsConnected();
      rx, status := [], 0;
      if !connected {
        return false, probe, status, rx;
      }
      ok, status, rx := CheckDeviceId();
    }

    /** An empty transmission to the device: true iff acknowledged. */
    method IsConnected() returns (connected: bool, ghost status: bv8)
      requires Ready()
      modifies port
      ensures Ready() && port.State() == old(port.State())
      ensures port.log == old(port.log) + [Sent(deviceAddress, [], status)]
      ensures connected <==> status == 0
    {
      port.BeginTransmission(deviceAddress);
      var sent := port.EndTransmission();
      status := sent;
      connected := sent == 0;
    }

    /** The value of the Id register. */
    method DeviceId() returns (id: bv8, ghost status: bv8, ghost rx: seq<bv8>)
      requires Ready()
      modifies port
      ensures Ready() && |rx| <= 1
      ensures port.log == old(port.log) + [Sent(deviceAddress, [button.id], status), Received(deviceAddress, 1, rx)]
      ensures port.State() == AfterSend(old(port.State()), [button.id], status)
      ensures InMap(port.pointer, |rx|) && rx == Fetch(port.State(), |rx|)
      ensures id == SingleReading(rx)
    {
      id, status, rx := ReadSingleRegister(button.id);
    }

    /** True iff the Id register holds the expected Id. */
    method CheckDeviceId() returns (matches: bool, ghost status: bv8, ghost rx: seq<bv8>)
      requires Ready()
      modifies port
      ensures Ready() && |rx| <= 1
      ensures port.log == old(port.log) + [Sent(deviceAddress, [button.id], status), Received(deviceAddress, 1, rx)]
      ensures port.State() == AfterSend(old(port.State()), [button.id], status)
      ensures InMap(port.pointer, |rx|) && rx == Fetch(port.State(), |rx|)
      ensures matches <==> SingleReading(rx) == button.devId
    {
      var id;
      id, status, rx := DeviceId();
      matches := id == button.devId;
    }

    /** 1 when the device answers and reports the expected Id, else 0; the
        Id is read only after an acknowledged probe. */
    method GetDeviceType() returns (deviceType: bv8, ghost probe: bv8, ghost status: bv8, ghost rx: seq<bv8>)
      requires Ready()
      modifies port
      ensures Ready()
      ensures probe != 0 ==> port.log == old(port.log) + [Sent(deviceAddress, [], probe)] && port.State() == old(port.State())
      ensures probe == 0 ==> |rx| <= 1
      ensures probe == 0 ==>
        port.log == old(port.log) + [Sent(deviceAddress, [], 0), Sent(deviceAddress, [button.id], status), Received(deviceAddress, 1, rx)]
      ensures probe == 0 ==> port.State() == AfterSend(old(port.State()), [button.id], status)
      ensures probe == 0 ==> InMap(port.pointer, |rx|) && rx == Fetch(port.State(), |rx|)
      ensures deviceType == 1 <==> probe == 0 && SingleReading(rx) == button.devId
      ensures deviceType == 0 || deviceType == 1
    {
      var connected;
      connected, probe := IsConnected();
      rx, status := [], 0;
      if connected {
        var id;
        id, status, rx := DeviceId();
        if id == button.devId {
          return 1, probe, status, rx;
        }
      }
      return 0, probe, status, rx;
    }

    /** The firmware version: the major register's byte above the minor's. */
    method GetFirmwareVersion() returns (version: bv16, ghost s1: bv8, ghost majorRx: seq<bv8>, ghost s2: bv8, ghost minorRx: seq<bv8>)
      requires Ready()
      modifies port
      ensures Ready() && |majorRx| <= 1 && |minorRx| <= 1
      ensures port.log == old(port.log) + [Sent(deviceAddress, [button.firmwareMajor], s1), Received(deviceAddress, 1, majorRx),
        Sent(deviceAddress, [button.firmwareMinor], s2), Received(deviceAddress, 1, minorRx)]
      ensures port.State() == AfterSend(AfterSend(old(port.State()), [button.firmwareMajor], s1), [button.firmwareMinor], s2)
      ensures var mid := AfterSend(old(port.State()), [button.firmwareMajor], s1);
        InMap(mid.pointer, |majorRx|) && majorRx == Fetch(mid, |majorRx|)
      ensures InMap(port.pointer, |minorRx|) && minorRx == Fetch(port.State(), |minorRx|)
      ensures version == Join(SingleReading(majorRx), SingleReading(minorRx))
    {
      var major, minor;
      major, s1, majorRx := ReadSingleRegister(button.firmwareMajor);
      version := (major as bv16) << 8;
      minor, s2, minorRx := ReadSingleRegister(button.firmwareMinor);
      version := version | minor as bv16;
    }

    /** Give the device a new address. An address outside 0x08..0x77 is
        refused with result true (1) and nothing sent; otherwise the address
        is written to the address register, and the driver switches to it
        only when the device acknowledged. */
    method SetI2cAddress(address: bv8) returns (ok: bool, ghost status: bv8)
      requires Ready()
      modifies this, port
      ensures Ready() && port == old(port)
      ensures !LegalAddress(address) ==>
        ok && port.log == old(port.log) && port.State() == old(port.State()) && deviceAddress == old(deviceAddress)
      ensures LegalAddress(address) ==>
        && port.log == old(port.log) + [Sent(old(deviceAddress), [button.i2cAddress, address], status)]
        && port.State() == AfterSend(old(port.State()), [button.i2cAddress, address], status)
        && deviceAddress == (if status == 0 then address else old(deviceAddress))
      ensures ok == SetAddressResult(address, status == 0)
    {
      if address < 0x08 || address > 0x77 {
        return true, 0;
      }
      var success;
      success, status := WriteSingleRegister(button.i2cAddress, address);
      if success {
        deviceAddress := address;
        return true, status;
      }
      return false, status;
    }

    /** `setI2Caddress` with the result it evidently means: false for an
        address out of range; otherwise as `SetI2cAddress`. */
    method SetI2cAddressIntended(address: bv8) returns (ok: bool, ghost status: bv8)
      requires Ready()
      modifies this, port
      ensures Ready() && port == old(port)
      ensures !LegalAddress(address) ==>
        !ok && port.log == old(port.log) && port.State() == old(port.State()) && deviceAddress == old(deviceAddress)
      ensures LegalAddress(address) ==>
        && port.log == old(port.log) + [Sent(old(deviceAddress), [button.i2cAddress, address], status)]
        && port.State() == AfterSend(old(port.State()), [button.i2cAddress, address], status)
        && deviceAddress == (if status == 0 then address else old(deviceAddress))
      ensures ok == IntendedSetAddressResult(address, status == 0)
    {
      if address < 0x08 || address > 0x77 {
        return false, 0;
      }
      var success;
      success, status := WriteSingleRegister(button.i2cAddress, address);
      if success {
        deviceAddress := address;
      }
      ok := success;
    }

    /** The address the driver talks to. */
    method GetI2cAddress() returns (address: bv8)
      ensures address == deviceAddress
    {
      address := deviceAddress;
    }

    /** Write Volume, the frequency bytes and the duration bytes one register
        at a time. Every write is attempted whatever became of the earlier
        ones; true iff all five were acknowledged. Active is not written. */
    method BuzzerConfig(toneFrequency: bv16, duration: bv16, volume: bv8) returns (success: bool, ghost statuses: seq<bv8>)
      requires Ready()
      modifies port
      ensures Ready() && |statuses| == 5
      ensures port.log == old(port.log) + ConfigLog(deviceAddress, toneFrequency, duration, volume, statuses)
      ensures port.State() == ConfigSent(old(port.State()), toneFrequency, duration, volume, statuses)
      ensures success <==> statuses == [0, 0, 0, 0, 0]
    {
      ghost var log0 := port.log;
      var ok;
      ghost var s0, s1, s2, s3, s4;
      success, s0 := WriteSingleRegister(LegacyRegisters.RegVolume, volume);
      ghost var e0 := Sent(deviceAddress, [0x05, volume], s0);
      assert port.log == log0 + [e0];
      var toneFrequencyMsb := Msb(toneFrequency);
      var toneFrequencyLsb := Lsb(toneFrequency);
      ok, s1 := WriteSingleRegister(LegacyRegisters.RegToneFrequencyMsb, toneFrequencyMsb);
      success := success && ok;
      ghost var e1 := Sent(deviceAddress, [0x03, toneFrequencyMsb], s1);
      assert port.log == log0 + [e0, e1];
      ok, s2 := WriteSingleRegister(LegacyRegisters.RegToneFrequencyLsb, toneFrequencyLsb);
      success := success && ok;
      ghost var e2 := Sent(deviceAddress, [0x04, toneFrequencyLsb], s2);
      assert port.log == log0 + [e0, e1, e2];
      var durationMsb := Msb(duration);
      var durationLsb := Lsb(duration);
      ok, s3 := WriteSingleRegister(LegacyRegisters.RegDurationMsb, durationMsb);
      success := success && ok;
      ghost var e3 := Sent(deviceAddress, [0x06, durationMsb], s3);
      assert port.log == log0 + [e0, e1, e2, e3];
      ok, s4 := WriteSingleRegister(LegacyRegisters.RegDurationLsb, durationLsb);
      success := success && ok;
      ghost var e4 := Sent(deviceAddress, [0x07, durationLsb], s4);
      assert port.log == log0 + [e0, e1, e2, e3, e4];
      assert success <==> s0 == 0 && s1 == 0 && s2 == 0 && s3 == 0 && s4 == 0;
      statuses := [s0, s1, s2, s3, s4];
      assert ConfigLog(deviceAddress, toneFrequency, duration, volume, statuses) == [e0, e1, e2, e3, e4];
    }

    /** `LEDoff()`: `BUZZERconfig(0, 0, 0)`. */
    method LedOff() returns (success: bool, ghost statuses: seq<bv8>)
      requires Ready()
      modifies port
      ensures Ready() && |statuses| == 5
      ensures port.log == old(port.log) + ConfigLog(deviceAddress, 0, 0, 0, statuses)
      ensures port.State() == ConfigSent(old(port.State()), 0, 0, 0, statuses)
      ensures success <==> statuses == [0, 0, 0, 0, 0]
    {
      success, statuses := BuzzerConfig(0, 0, 0);
    }

    /** `LEDon(brightness)`: `BUZZERconfig(brightness, 0, 0)`, the brightness
        taking the frequency's place. */
    method LedOn(brightness: bv8) returns (success: bool, ghost statuses: seq<bv8>)
      requires Ready()
      modifies port
      ensures Ready() && |statuses| == 5
      ensures port.log == old(port.log) + ConfigLog(deviceAddress, brightness as bv16, 0, 0, statuses)
      ensures port.State() == ConfigSent(old(port.State()), brightness as bv16, 0, 0, statuses)
      ensures success <==> statuses == [0, 0, 0, 0, 0]
    {
      success, statuses := BuzzerConfig(brightness as bv16, 0, 0);
    }

    /** `on(toneFrequency, duration, volume)`: `BUZZERconfig` with the same arguments. */
    method On(toneFrequency: bv16, duration: bv16, volume: bv8) returns (success: bool, ghost statuses: seq<bv8>)
      requires Ready()
      modifies port
      ensures Ready() && |statuses| == 5
      ensures port.log == old(port.log) + ConfigLog(deviceAddress, toneFrequency, duration, volume, statuses)
      ensures port.State() == ConfigSent(old(port.State()), toneFrequency, duration, volume, statuses)
      ensures success <==> statuses == [0, 0, 0, 0, 0]
    {
      success, statuses := BuzzerConfig(toneFrequency, duration, volume);
    }

    /** `off()`: `BUZZERconfig(0, 0, 0)`. */
    method Off() returns (success: bool, ghost statuses: seq<bv8>)
      requires Ready()
      modifies port
      ensures Ready() && |statuses| == 5
      ensures port.log == old(port.log) + ConfigLog(deviceAddress, 0, 0, 0, statuses)
      ensures port.State() == ConfigSent(old(port.State()), 0, 0, 0, statuses)
      ensures success <==> statuses == [0, 0, 0, 0, 0]
    {
      success, statuses := BuzzerConfig(0, 0, 0);
    }

    /** Write 1 to SaveSettings. */
    method SaveSettings() returns (success: bool, ghost status: bv8)
      requires Ready()
      modifies port
      ensures Ready()
      ensures port.log == old(port.log) + [Sent(deviceAddress, [LegacyRegisters.Value(Register.SaveSettings), 0x01], status)]
      ensures port.State() == AfterSend(old(port.State()), [LegacyRegisters.Value(Register.SaveSettings), 0x01], status)
      ensures success <==> status == 0
    {
      success, status := WriteSingleRegister(LegacyRegisters.RegSaveSettings, 0x01);
    }

    /** Point the device at `reg` (the status of that transmission is not
        looked at), ask for one byte, and return it, or 0 if none arrived.
        A pointer transmission that failed leaves the old pointer, so the
        byte then comes from wherever the pointer was. */
    method ReadSingleRegister(reg: bv8) returns (value: bv8, ghost status: bv8, ghost rx: seq<bv8>)
      requires Ready()
      modifies port
      ensures Ready() && |rx| <= 1
      ensures port.log == old(port.log) + [Sent(deviceAddress, [reg], status), Received(deviceAddress, 1, rx)]
      ensures port.State() == AfterSend(old(port.State()), [reg], status)
      ensures InMap(port.pointer, |rx|)
      ensures rx == Fetch(port.State(), |rx|)
      ensures value == SingleReading(rx)
    {
      ghost var log0, d0 := port.log, port.State();
      port.BeginTransmission(deviceAddress);
      port.Write(reg);
      assert port.txBuffer == [reg];
      var sent := port.EndTransmission();
      status := sent;
      ghost var d1 := port.State();
      assert d1 == AfterSend(d0, [reg], status);
      var count := port.RequestFrom(deviceAddress, 1);
      rx := port.rxBuffer;
      assert port.State() == d1 && rx == Fetch(d1, |rx|);
      assert port.log == log0 + [Sent(deviceAddress, [reg], status), Received(deviceAddress, 1, rx)];
      if count != 0 {
        var r := port.Read();
        value := match r case Byte(b) => b case NoData => 0xFF;
        return;
      }
      value := 0;
    }

    /** As `ReadSingleRegister`, asking for two bytes and combining them
        little-endian; 0 if none arrived. */
    method ReadDoubleRegister(reg: bv8) returns (value: bv16, ghost status: bv8, ghost rx: seq<bv8>)
      requires Ready()
      modifies port
      ensures Ready() && |rx| <= 2
      ensures port.log == old(port.log) + [Sent(deviceAddress, [reg], status), Received(deviceAddress, 2, rx)]
      ensures port.State() == AfterSend(old(port.State()), [reg], status)
      ensures InMap(port.pointer, |rx|)
      ensures rx == Fetch(port.State(), |rx|)
      ensures value == DoubleReading(rx)
    {
      ghost var log0, d0 := port.log, port.State();
      port.BeginTransmission(deviceAddress);
      port.Write(reg);
      assert port.txBuffer == [reg];
      var sent := port.EndTransmission();
      status := sent;
      ghost var d1 := port.State();
      assert d1 == AfterSend(d0, [reg], status);
      var count := port.RequestFrom(deviceAddress, 2);
      rx := port.rxBuffer;
      assert port.State() == d1 && rx == Fetch(d1, |rx|);
      assert port.log == log0 + [Sent(deviceAddress, [reg], status), Received(deviceAddress, 2, rx)];
      if count != 0 {
        var first := port.Read();
        var second := port.Read();
        assert first == Byte(rx[0]);
        assert second == if |rx| == 2 then Byte(rx[1]) else NoData;
        return DoubleValue(first, second), status, rx;
      }
      value := 0;
    }

    /** Send `reg` and `data`; true iff acknowledged. */
    method WriteSingleRegister(reg: bv8, data: bv8) returns (ok: bool, ghost status: bv8)
      requires Ready()
      modifies port
      ensures Ready()
      ensures port.log == old(port.log) + [Sent(deviceAddress, [reg, data], status)]
      ensures port.State() == AfterSend(old(port.State()), [reg, data], status)
      ensures ok <==> status == 0
    {
      port.BeginTransmission(deviceAddress);
      port.Write(reg);
      port.Write(data);
      assert port.txBuffer == [reg, data];
      var sent := port.EndTransmission();
      status := sent;
      ok := sent == 0;
    }

    /** Send `reg`, then the low and the high byte of `data`; true iff acknowledged. */
    method WriteDoubleRegister(reg: bv8, data: bv16) returns (ok: bool, ghost status: bv8)
      requires Ready()
      modifies port
      ensures Ready()
      ensures port.log == old(port.log) + [Sent(deviceAddress, [reg] + LittleEndian(data), status)]
      ensures port.State() == AfterSend(old(port.State()), [reg] + LittleEndian(data), status)
      ensures ok <==> status == 0
    {
      port.BeginTransmission(deviceAddress);
      port.Write(reg);
      port.Write(Lsb(data));
      port.Write(Msb(data));
      assert port.txBuffer == [reg] + LittleEndian(data);
      var sent := port.EndTransmission();
      status := sent;
      ok := sent == 0;
    }

    /** `writeSingleRegisterWithReadback` as written: the register is read
        back only when the write was not acknowledged. */
    method WriteSingleRegisterWithReadback(reg: bv8, data: bv8) returns (code: bv8, ghost status: bv8, ghost readStatus: bv8, ghost rx: seq<bv8>)
      requires Ready()
      modifies port
      ensures Ready() && |rx| <= 1
      ensures status == 0 ==> port.log == old(port.log) + [Sent(deviceAddress, [reg, data], 0)] && rx == []
      ensures status != 0 ==>
        port.log == old(port.log) + [Sent(deviceAddress, [reg, data], status), Sent(deviceAddress, [reg], readStatus), Received(deviceAddress, 1, rx)]
      ensures status == 0 ==> port.State() == AfterSend(old(port.State()), [reg, data], 0)
      ensures status != 0 ==>
        && port.State() == AfterSend(AfterSend(old(port.State()), [reg, data], status), [reg], readStatus)
        && InMap(port.pointer, |rx|) && rx == Fetch(port.State(), |rx|)
      ensures code == ReadbackCode(status == 0, SingleReading(rx) as bv16, data as bv16)
      ensures status == 0 ==> code == 1
    {
      var ok;
      ok, status := WriteSingleRegister(reg, data);
      rx, readStatus := [], 0;
      if ok {
        return 1, status, readStatus, rx;
      }
      var readBack;
      readBack, readStatus, rx := ReadSingleRegister(reg);
      if readBack != data {
        return 2, status, readStatus, rx;
      }
      return 0, status, readStatus, rx;
    }

    /** `writeDoubleRegisterWithReadback` as written, for 16-bit values. */
    method WriteDoubleRegisterWithReadback(reg: bv8, data: bv16) returns (code: bv16, ghost status: bv8, ghost readStatus: bv8, ghost rx: seq<bv8>)
      requires Ready()
      modifies port
      ensures Ready() && |rx| <= 2
      ensures status == 0 ==> port.log == old(port.log) + [Sent(deviceAddress, [reg] + LittleEndian(data), 0)] && rx == []
      ensures status != 0 ==>
        port.log == old(port.log) + [Sent(deviceAddress, [reg] + LittleEndian(data), status), Sent(deviceAddress, [reg], readStatus), Received(deviceAddress, 2, rx)]
      ensures status == 0 ==> port.State() == AfterSend(old(port.State()), [reg] + LittleEndian(data), 0)
      ensures status != 0 ==>
        && port.State() == AfterSend(AfterSend(old(port.State()), [reg] + LittleEndian(data), status), [reg], readStatus)
        && InMap(port.pointer, |rx|) && rx == Fetch(port.State(), |rx|)
      ensures code == ReadbackCode(status == 0, DoubleReading(rx), data) as bv16
      ensures status == 0 ==> code == 1
    {
      var ok;
      ok, status := WriteDoubleRegister(reg, data);
      rx, readStatus := [], 0;
      if ok {
        return 1, status, readStatus, rx;
      }
      var readBack;
      readBack, readStatus, rx := ReadDoubleRegister(reg);
      if readBack != data {
        return 2, status, readStatus, rx;
      }
      return 0, status, readStatus, rx;
    }

    /** The readback write as evidently intended: an unacknowledged write
        gives 1 with nothing read; an acknowledged one is read back and gives
        0 when the register holds the byte written, 2 otherwise. */
    method WriteSingleRegisterWithReadbackIntended(reg: bv8, data: bv8) returns (code: bv8, ghost status: bv8, ghost readStatus: bv8, ghost rx: seq<bv8>)
      requires Ready()
      modifies port
      ensures Ready() && |rx| <= 1
      ensures status != 0 ==> port.log == old(port.log) + [Sent(deviceAddress, [reg, data], status)] && rx == []
      ensures status == 0 ==>
        port.log == old(port.log) + [Sent(deviceAddress, [reg, data], 0), Sent(deviceAddress, [reg], readStatus), Received(deviceAddress, 1, rx)]
      ensures status != 0 ==> port.State() == old(port.State())
      ensures status == 0 ==>
        && port.State() == AfterSend(AfterSend(old(port.State()), [reg, data], 0), [reg], readStatus)
        && InMap(port.pointer, |rx|) && rx == Fetch(port.State(), |rx|)
      ensures code == IntendedReadbackCode(status == 0, SingleReading(rx) as bv16, data as bv16)
      ensures status != 0 ==> code == 1
    {
      var ok;
      ok, status := WriteSingleRegister(reg, data);
      rx, readStatus := [], 0;
      if !ok {
        return 1, status, readStatus, rx;
      }
      var readBack;
      readBack, readStatus, rx := ReadSingleRegister(reg);
      if readBack != data {
        return 2, status, readStatus, rx;
      }
      return 0, status, readStatus, rx;
    }

    /** The 16-bit readback write as evidently intended. */
    method WriteDoubleRegisterWithReadbackIntended(reg: bv8, data: bv16) returns (code: bv16, ghost status: bv8, ghost readStatus: bv8, ghost rx: seq<bv8>)
      requires Ready()
      modifies port
      ensures Ready() && |rx| <= 2
      ensures status != 0 ==> port.log == old(port.log) + [Sent(deviceAddress, [reg] + LittleEndian(data), status)] && rx == []
      ensures status == 0 ==>
        port.log == old(port.log) + [Sent(deviceAddress, [reg] + LittleEndian(data), 0), Sent(deviceAddress, [reg], readStatus), Received(deviceAddress, 2, rx)]
      ensures status != 0 ==> port.State() == old(port.State())
      ensures status == 0 ==>
        && port.State() == AfterSend(AfterSend(old(port.State()), [reg] + LittleEndian(data), 0), [reg], readStatus)
        && InMap(port.pointer, |rx|) && rx == Fetch(port.State(), |rx|)
      ensures code == IntendedReadbackCode(status == 0, DoubleReading(rx), data) as bv16
      ensures status != 0 ==> code == 1
    {
      var ok;
      ok, status := WriteDoubleRegister(reg, data);
      rx, readStatus := [], 0;
      if !ok {
        return 1, status, readStatus, rx;
      }
      var readBack;
      readBack, readStatus, rx := ReadDoubleRegister(reg);
      if readBack != data {
        return 2, status, readStatus, rx;
      }
      return 0, status, readStatus, rx;
    }
  }
}

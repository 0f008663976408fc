/** Arduino's `TwoWire` as the legacy driver uses it, together with the
    device on the wire. A host transmission is staged with
    `beginTransmission` and `write` and sent by `endTransmission`; the device
    acknowledges it or not, which the host does not control, so the status is
    chosen nondeterministically. An acknowledged transmission moves the
    device's register pointer to its first byte and stores the remaining bytes
    in consecutive registers from there. `requestFrom` asks for bytes from the
    register pointer on; any number of them up to the quantity asked may
    arrive, and `read` hands them out one at a time, -1 once none is left. */
module Wire {
  import opened RegisterFile

  /** The device's side: its registers and its register pointer. */
  datatype Device = Device(regs: seq<bv8>, pointer: bv8)

  /** A completed exchange on the wire: a sent transmission with the status
      `endTransmission` returned (0 for acknowledged), or a request with the
      bytes that arrived. */
  datatype Event =
    | Sent(addr: bv8, bytes: seq<bv8>, status: bv8)
    | Received(addr: bv8, quantity: nat, bytes: seq<bv8>)

  /** What `read()` returns: a byte, or -1 when the receive buffer is empty. */
  datatype ReadResult = Byte(value: bv8) | NoData

  /** A transmission the device can accept: empty (an address probe), or a
      register pointer followed by data that stays inside the map. A pointer
      at the end of the map with no data is accepted; reading there yields nothing. */
  predicate Acceptable(bytes: seq<bv8>) {
    bytes == [] || InMap(bytes[0], |bytes| - 1)
  }

  /** The device after a transmission of `bytes` with status `status`: an
      acknowledged, non-empty one sets the pointer to its first byte and
      writes the rest from there; anything else leaves the device as it was. */
  function AfterSend(d: Device, bytes: seq<bv8>, status: bv8): (e: Device)
    requires |d.regs| == Size
    ensures |e.regs| == Size
  {
    if status == 0 && bytes != [] && Acceptable(bytes) then
      Device(Written(d.regs, bytes[0], bytes[1..]), bytes[0])
    else
      d
  }

  /** Only an acknowledged transmission the device can accept changes it;
      then the pointer is the first byte, the registers after it take the
      remaining bytes and every other register keeps its value. */
  lemma AfterSendEffect(d: Device, bytes: seq<bv8>, status: bv8)
    requires |d.regs| == Size
    ensures var e := AfterSend(d, bytes, status);
      status != 0 || bytes == [] || !Acceptable(bytes) ==> e == d
    ensures var e := AfterSend(d, bytes, status);
      status == 0 && bytes != [] && Acceptable(bytes) ==>
      && e.pointer == bytes[0]
      && (forall k :: 1 <= k < |bytes| ==> e.regs[bytes[0] as int + k - 1] == bytes[k])
      && (forall i :: 0 <= i < Size && !(bytes[0] as int <= i < bytes[0] as int + |bytes| - 1) ==> e.regs[i] == d.regs[i])
  {
    if status == 0 && bytes != [] && Acceptable(bytes) {
      var e := AfterSend(d, bytes, status);
      forall k | 1 <= k < |bytes| ensures e.regs[bytes[0] as int + k - 1] == bytes[k] {
        assert bytes[1..][k - 1] == bytes[k];
      }
    }
  }

  /** A register pointer alone: an acknowledged one moves the pointer. */
  lemma SentPointer(d: Device, reg: bv8, status: bv8)
    requires |d.regs| == Size
    ensures AfterSend(d, [reg], status) ==
      if status == 0 && InMap(reg, 0) then Device(d.regs, reg) else d
  {
    if status == 0 && InMap(reg, 0) {
      assert d.regs[..reg] + [] + d.regs[reg..] == d.regs;
    }
  }

  /** A register and one byte: an acknowledged one stores the byte there. */
  lemma SentByte(d: Device, reg: bv8, b: bv8, status: bv8)
    requires |d.regs| == Size
    ensures AfterSend(d, [reg, b], status) ==
      if status == 0 && InMap(reg, 1) then Device(d.regs[reg as int := b], reg) else d
  {
    if status == 0 && InMap(reg, 1) {
      assert [reg, b][1..] == [b];
      assert Written(d.regs, reg, [b]) == d.regs[reg as int := b];
    }
  }

  /** A register and two bytes: an acknowledged one stores them there and in
      the next register. */
  lemma SentPair(d: Device, reg: bv8, lo: bv8, hi: bv8, status: bv8)
    requires |d.regs| == Size
    ensures AfterSend(d, [reg, lo, hi], status) ==
      if status == 0 && InMap(reg, 2) then Device(d.regs[reg as int := lo][reg as int + 1 := hi], reg) else d
  {
    if status == 0 && InMap(reg, 2) {
      assert [reg, lo, hi][1..] == [lo, hi];
      assert Written(d.regs, reg, [lo, hi]) == d.regs[reg as int := lo][reg as int + 1 := hi];
    }
  }

  /** The `n` bytes from the register pointer on, when they are inside the map. */
  function Fetch(d: Device, n: nat): (bytes: seq<bv8>)
    requires |d.regs| == Size && InMap(d.pointer, n)
    ensures |bytes| == n
    ensures forall k :: 0 <= k < n ==> bytes[k] == d.regs[d.pointer as int + k]
  {
    d.regs[d.pointer..d.pointer as int + n]
  }

  class TwoWire {
    var regs: seq<bv8>
    var pointer: bv8
    var target: bv8
    var txBuffer: seq<bv8>
    var rxBuffer: seq<bv8>
    ghost var log: seq<Event>

    ghost predicate Valid()
      reads this`regs, this`pointer
    {
      |regs| == Size && pointer as int <= Size
    }

    /** The device's current state. */
    function State(): Device
      reads this`regs, this`pointer
    {
      Device(regs, pointer)
    }

    constructor (registers: seq<bv8>)
      requires |registers| == Size
      ensures Valid() && regs == registers && pointer == 0
      ensures txBuffer == [] && rxBuffer == [] && log == []
    {
      regs, pointer, target, txBuffer, rxBuffer, log := registers, 0, 0, [], [], [];
    }

    /** `beginTransmission(address)`: start staging a transmission. */
    method BeginTransmission(address: bv8)
      modifies this
      ensures target == address && txBuffer == []
      ensures regs == old(regs) && pointer == old(pointer) && rxBuffer == old(rxBuffer) && log == old(log)
    {
      target, txBuffer := address, [];
    }

    /** `write(b)`: stage one more byte. */
    method Write(b: bv8)
      modifies this
      ensures txBuffer == old(txBuffer) + [b]
      ensures target == old(target) && regs == old(regs) && pointer == old(pointer)
      ensures rxBuffer == old(rxBuffer) && log == old(log)
    {
      txBuffer := txBuffer + [b];
    }

    /** `endTransmission()`: send the staged bytes; 0 means acknowledged. */
    method EndTransmission() returns (status: bv8)
      requires Valid()
      modifies this
      ensures Valid() && target == old(target) && rxBuffer == old(rxBuffer) && txBuffer == []
      ensures status == 0 ==> Acceptable(old(txBuffer))
      ensures State() == AfterSend(old(State()), old(txBuffer), status)
      ensures log == old(log) + [Sent(target, old(txBuffer), status)]
    {
      status := *;
      if status == 0 && !Acceptable(txBuffer) {
        status := 3;
      }
      var sent := txBuffer;
      if status == 0 && sent != [] {
        assert InMap(sent[0], |sent[1..]|);
        regs, pointer := Written(regs, sent[0], sent[1..]), sent[0];
      }
      log := log + [Sent(target, sent, status)];
      txBuffer := [];
    }

    /** `requestFrom(address, quantity)`: up to `quantity` bytes from the
        register pointer on arrive in the receive buffer; returns how many. */
    method RequestFrom(address: bv8, quantity: nat) returns (count: nat)
      requires Valid()
      modifies this
      ensures Valid() && State() == old(State()) && target == old(target) && txBuffer == old(txBuffer)
      ensures count <= quantity && InMap(pointer, count) && count == |rxBuffer|
      ensures rxBuffer == Fetch(State(), count)
      ensures log == old(log) + [Received(address, quantity, rxBuffer)]
    {
      count := *;
      if count > quantity || !InMap(pointer, count) {
        count := 0;
      }
      rxBuffer := Fetch(State(), count);
      log := log + [Received(address, quantity, rxBuffer)];
    }

    /** `read()`: the next received byte, or -1 when none is left. */
    method Read() returns (r: ReadResult)
      modifies this
      ensures old(rxBuffer) == [] ==> r == NoData && rxBuffer == []
      ensures old(rxBuffer) != [] ==> r == Byte(old(rxBuffer)[0]) && rxBuffer == old(rxBuffer)[1..]
      ensures regs == old(regs) && pointer == old(pointer) && target == old(target)
      ensures txBuffer == old(txBuffer) && log == old(log)
    {
      if rxBuffer == [] {
        r := NoData;
      } else {
        r := Byte(rxBuffer[0]);
        rxBuffer := rxBuffer[1..];
      }
    }
  }
}

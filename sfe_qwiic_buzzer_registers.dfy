/** The register map of the previous toolkit driver: an enum with `uint8_t`
    underlying type whose first enumerator is set to 0x00 and whose later
    enumerators take their values implicitly. */
module SfeQwiicBuzzerRegisters {
  import opened RegisterNames
  import DevBuzzerRegisters

  /** An enumerator's initialiser: written out, or left to the C++ rule. */
  datatype Initialiser = Implicit | Explicit(value: int)

  datatype Enumerator = Enumerator(name: Register, init: Initialiser)

  /** The enumerators in declaration order. */
  const Enumerators: seq<Enumerator> := [
    Enumerator(Id, Explicit(0x00)),
    Enumerator(FirmwareMinor, Implicit),
    Enumerator(FirmwareMajor, Implicit),
    Enumerator(ToneFrequencyMsb, Implicit),
    Enumerator(ToneFrequencyLsb, Implicit),
    Enumerator(Volume, Implicit),
    Enumerator(DurationMsb, Implicit),
    Enumerator(DurationLsb, Implicit),
    Enumerator(Active, Implicit),
    Enumerator(SaveSettings, Implicit),
    Enumerator(I2cAddress, Implicit)
  ]

  /** The C++ numbering rule: an explicit initialiser gives the value; an
      implicit one is the previous enumerator's value plus one (0 for the first). */
  function ValueAt(i: nat): int
    requires i < |Enumerators|
  {
    match Enumerators[i].init
    case Explicit(v) => v
    case Implicit => if i == 0 then 0 else ValueAt(i - 1) + 1
  }

  /** Position of a register in the declaration. */
  function IndexOf(r: Register): (i: nat)
    ensures i < |Enumerators| && Enumerators[i].name == r
  {
    match r
    case Id => 0
    case FirmwareMinor => 1
    case FirmwareMajor => 2
    case ToneFrequencyMsb => 3
    case ToneFrequencyLsb => 4
    case Volume => 5
    case DurationMsb => 6
    case DurationLsb => 7
    case Active => 8
    case SaveSettings => 9
    case I2cAddress => 10
  }

  /** Only the first enumerator is initialised, so every enumerator's value
      is its position in the declaration. */
  lemma {:induction false} ValueIsPosition(i: nat)
    requires i < |Enumerators|
    ensures ValueAt(i) == i
  {
    if i > 0 {
      assert Enumerators[i].init == Implicit;
      ValueIsPosition(i - 1);
    }
  }

  /** The value of a register's enumerator, as the `uint8_t` it is stored in:
      the values run consecutively from 0x00, so FreqMsb is 0x03 and I2cAddress 0x0A. */
  function Value(r: Register): (v: bv8)
    ensures v as int == ValueAt(IndexOf(r)) == IndexOf(r)
  {
    ValueIsPosition(IndexOf(r));
    IndexOf(r) as bv8
  }

  /** Every enumerator equals its counterpart in the current driver's map. */
  lemma MatchesDevBuzzerMap(r: Register)
    ensures Value(r) == DevBuzzerRegisters.Address(r)
  {
    ValueIsPosition(IndexOf(r));
  }

  /** The configuration block is contiguous and ordered as configureBuzzer
      fills it: frequency MSB, frequency LSB, volume, duration MSB, LSB. */
  lemma ConfigBlockInOrder()
    ensures forall k :: 0 <= k < |ConfigBlock| ==>
      Value(ConfigBlock[k]) as int == Value(ToneFrequencyMsb) as int + k
  {
    forall k | 0 <= k < |ConfigBlock|
      ensures Value(ConfigBlock[k]) as int == Value(ToneFrequencyMsb) as int + k
    {
      ValueIsPosition(IndexOf(ConfigBlock[k]));
    }
  }
}

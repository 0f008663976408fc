/** The device's eleven registers as the host sees them: a byte sequence that
    a successful write updates and a read returns. */
module RegisterFile {
  import DevBuzzerRegisters

  const Size: nat := DevBuzzerRegisters.RegisterCount

  /** A transfer of `n` bytes starting at register `reg` stays inside the map. */
  predicate InMap(reg: bv8, n: nat) {
    reg as int + n <= Size
  }

  /** The registers after `data` is written to consecutive registers from
      `reg`: exactly those registers take the new bytes, the others keep theirs. */
  function Written(regs: seq<bv8>, reg: bv8, data: seq<bv8>): (r: seq<bv8>)
    requires reg as int + |data| <= |regs|
    ensures |r| == |regs|
    ensures forall k :: 0 <= k < |data| ==> r[reg as int + k] == data[k]
    ensures forall i :: 0 <= i < |regs| && !(reg as int <= i < reg as int + |data|) ==> r[i] == regs[i]
  {
    regs[..reg] + data + regs[reg as int + |data|..]
  }
}

/** The SparkFun toolkit's I2C bus object as the two toolkit drivers use it,
    together with the device behind it: a register file, the bus's current
    7-bit target address and a ghost log of every transaction. Whether a
    transaction succeeds is not under the host's control, so each one's
    status is chosen nondeterministically; a transaction that runs past the
    last register always fails, and only a successful write changes registers. */
module ToolkitBus {
  import opened RegisterFile

  /** `sfTkError_t` reduced to what the drivers distinguish: success, the
      generic failure and any other error code the bus may report. */
  datatype Status = Ok | Fail | Other(code: int)

  /** A bus transaction: an address ping, a one-byte register read, or a
      write of consecutive registers (a one-byte write has one data byte). */
  datatype Op = Ping | Read(reg: bv8) | Write(reg: bv8, data: seq<bv8>)

  datatype Tx = Tx(addr: bv8, op: Op, status: Status)

  /** The effect of one logged transaction on the registers. */
  function Apply(regs: seq<bv8>, tx: Tx): (r: seq<bv8>)
    ensures |r| == |regs|
  {
    match tx.op
    case Write(reg, data) =>
      if tx.status == Ok && reg as int + |data| <= |regs| then Written(regs, reg, data) else regs
    case _ => regs
  }

  /** The registers after a sequence of transactions. */
  function Replay(regs: seq<bv8>, txs: seq<Tx>): (r: seq<bv8>)
    ensures |r| == |regs|
    decreases |txs|
  {
    if txs == [] then regs else Apply(Replay(regs, txs[..|txs| - 1]), txs[|txs| - 1])
  }

  /** One more logged transaction acts on the registers the earlier ones left. */
  lemma ReplayStep(regs: seq<bv8>, txs: seq<Tx>, tx: Tx)
    ensures Replay(regs, txs + [tx]) == Apply(Replay(regs, txs), tx)
  {
    assert (txs + [tx])[..|txs|] == txs;
  }

  /** `txs` is what a driver issues when it performs the operations of `plan`
      in order at address `a`, stopping at the first one that fails; `r` is
      Ok when all succeeded and otherwise the failing transaction's status. */
  ghost predicate Executed(txs: seq<Tx>, a: bv8, plan: seq<Op>, r: Status)
    decreases |plan|
  {
    if plan == [] then txs == [] && r == Ok
    else
      |txs| > 0 && txs[0].addr == a && txs[0].op == plan[0] &&
      if txs[0].status == Ok then Executed(txs[1..], a, plan[1..], r)
      else txs == [txs[0]] && r == txs[0].status
  }

  /** The log went from `before` to `after` by executing `plan`. */
  ghost predicate Ran(before: seq<Tx>, after: seq<Tx>, a: bv8, plan: seq<Op>, r: Status) {
    |before| <= |after| && after[..|before|] == before && Executed(after[|before|..], a, plan, r)
  }

  /** A plan runs to completion exactly when every operation was issued, in
      order, and succeeded. */
  lemma {:induction false} ExecutedOk(txs: seq<Tx>, a: bv8, plan: seq<Op>)
    ensures Executed(txs, a, plan, Ok) <==>
      |txs| == |plan| && forall i :: 0 <= i < |txs| ==> txs[i] == Tx(a, plan[i], Ok)
    decreases |plan|
  {
    if plan != [] && |txs| > 0 {
      ExecutedOk(txs[1..], a, plan[1..]);
      if |txs| == |plan| && forall i :: 0 <= i < |txs| ==> txs[i] == Tx(a, plan[i], Ok) {
        assert txs[0] == Tx(a, plan[0], Ok);
        assert forall i :: 0 <= i < |txs[1..]| ==> txs[1..][i] == Tx(a, plan[1..][i], Ok) by {
          forall i | 0 <= i < |txs[1..]| ensures txs[1..][i] == Tx(a, plan[1..][i], Ok) {
            assert txs[1..][i] == txs[i + 1];
          }
        }
      }
      if Executed(txs, a, plan, Ok) {
        assert txs[0].status == Ok;
        forall i | 0 <= i < |txs| ensures txs[i] == Tx(a, plan[i], Ok) {
          if i > 0 { assert txs[i] == txs[1..][i - 1]; }
        }
      }
    }
  }

  /** A failed plan issued a prefix of it whose last transaction failed with the
      reported status, after which nothing more was issued. */
  lemma {:induction false} ExecutedFailed(txs: seq<Tx>, a: bv8, plan: seq<Op>, r: Status)
    requires Executed(txs, a, plan, r) && r != Ok
    ensures 0 < |txs| <= |plan|
    ensures forall i :: 0 <= i < |txs| ==> txs[i].addr == a && txs[i].op == plan[i]
    ensures forall i :: 0 <= i < |txs| - 1 ==> txs[i].status == Ok
    ensures txs[|txs| - 1].status == r
    decreases |plan|
  {
    if txs[0].status == Ok {
      ExecutedFailed(txs[1..], a, plan[1..], r);
      forall i | 0 < i < |txs| ensures txs[i] == txs[1..][i - 1] { }
    }
  }

  /** After a plan that succeeds, running the next plan continues the execution. */
  lemma {:induction false} ExecutedThen(t1: seq<Tx>, t2: seq<Tx>, a: bv8, p1: seq<Op>, p2: seq<Op>, r: Status)
    requires Executed(t1, a, p1, Ok) && Executed(t2, a, p2, r)
    ensures Executed(t1 + t2, a, p1 + p2, r)
    decreases |p1|
  {
    if p1 == [] {
      assert t1 + t2 == t2;
      assert p1 + p2 == p2;
    } else {
      assert (t1 + t2)[1..] == t1[1..] + t2;
      assert (p1 + p2)[1..] == p1[1..] + p2;
      ExecutedThen(t1[1..], t2, a, p1[1..], p2, r);
    }
  }

  /** A failure ends the execution: the operations after it are never issued. */
  lemma {:induction false} ExecutedAbort(t: seq<Tx>, a: bv8, p1: seq<Op>, p2: seq<Op>, r: Status)
    requires Executed(t, a, p1, r) && r != Ok
    ensures Executed(t, a, p1 + p2, r)
    decreases |p1|
  {
    assert (p1 + p2)[0] == p1[0];
    if t[0].status == Ok {
      assert (p1 + p2)[1..] == p1[1..] + p2;
      ExecutedAbort(t[1..], a, p1[1..], p2, r);
    }
  }

  /** An empty plan issues nothing and succeeds. */
  lemma RanNothing(log: seq<Tx>, a: bv8)
    ensures Ran(log, log, a, [], Ok)
  {
    assert log[|log|..] == [];
  }

  /** One transaction runs the one-operation plan, with its status. */
  lemma RanOne(log: seq<Tx>, a: bv8, op: Op, s: Status)
    ensures Ran(log, log + [Tx(a, op, s)], a, [op], s)
  {
    assert (log + [Tx(a, op, s)])[|log|..] == [Tx(a, op, s)];
  }

  /** Two consecutive runs, the first successful, run the joined plan. */
  lemma RanThen(l0: seq<Tx>, l1: seq<Tx>, l2: seq<Tx>, a: bv8, p1: seq<Op>, p2: seq<Op>, r: Status)
    requires Ran(l0, l1, a, p1, Ok) && Ran(l1, l2, a, p2, r)
    ensures Ran(l0, l2, a, p1 + p2, r)
  {
    assert l2[..|l0|] == l1[..|l0|];
    assert l2[|l0|..] == l1[|l0|..] + l2[|l1|..];
    ExecutedThen(l1[|l0|..], l2[|l1|..], a, p1, p2, r);
  }

  /** A failed run also runs any longer plan that starts with its own. */
  lemma RanAbort(l0: seq<Tx>, l1: seq<Tx>, a: bv8, p1: seq<Op>, p2: seq<Op>, r: Status)
    requires Ran(l0, l1, a, p1, r) && r != Ok
    ensures Ran(l0, l1, a, p1 + p2, r)
  {
    ExecutedAbort(l1[|l0|..], a, p1, p2, r);
  }

  /** One more operation issued after a successful prefix; if it failed,
      nothing after it is issued. */
  lemma RanStep(l0: seq<Tx>, l1: seq<Tx>, a: bv8, done: seq<Op>, op: Op, rest: seq<Op>, r: Status)
    requires Ran(l0, l1, a, done, Ok)
    ensures Ran(l0, l1 + [Tx(a, op, r)], a, done + [op], r)
    ensures r != Ok ==> Ran(l0, l1 + [Tx(a, op, r)], a, done + [op] + rest, r)
  {
    RanOne(l1, a, op, r);
    RanSeq(l0, l1, l1 + [Tx(a, op, r)], a, done, [op], rest, r);
  }

  /** Running `p1` successfully and then `p2` with result `r` runs `p1 + p2`;
      when `r` is an error, whatever was planned after `p2` is skipped. */
  lemma RanSeq(l0: seq<Tx>, l1: seq<Tx>, l2: seq<Tx>, a: bv8, p1: seq<Op>, p2: seq<Op>, rest: seq<Op>, r: Status)
    requires Ran(l0, l1, a, p1, Ok) && Ran(l1, l2, a, p2, r)
    ensures Ran(l0, l2, a, p1 + p2, r)
    ensures r != Ok ==> Ran(l0, l2, a, p1 + p2 + rest, r)
  {
    RanThen(l0, l1, l2, a, p1, p2, r);
    if r != Ok {
      RanAbort(l0, l2, a, p1 + p2, rest, r);
    }
  }

  class I2cBus {
    var regs: seq<bv8>
    var addr: bv8
    ghost var log: seq<Tx>
    ghost const initial: seq<bv8>

    /** The registers are what the logged transactions made of the initial ones. */
    ghost predicate Valid()
      reads this
    {
      |initial| == Size && regs == Replay(initial, log)
    }

    constructor (registers: seq<bv8>, address: bv8)
      requires |registers| == Size
      ensures Valid() && regs == registers && addr == address && log == []
    {
      regs, addr, log, initial := registers, address, [], registers;
    }

    /** `ping()`: probe the current address. */
    method Ping() returns (s: Status)
      requires Valid()
      modifies this
      ensures Valid() && regs == old(regs) && addr == old(addr)
      ensures log == old(log) + [Tx(addr, Op.Ping, s)]
    {
      s := *;
      ghost var tx := Tx(addr, Op.Ping, s);
      ReplayStep(initial, log, tx);
      log := log + [tx];
    }

    /** `readRegister` / `readRegisterByte`: read one register. */
    method ReadRegister(reg: bv8) returns (s: Status, value: bv8)
      requires Valid()
      modifies this
      ensures Valid() && regs == old(regs) && addr == old(addr)
      ensures log == old(log) + [Tx(addr, Read(reg), s)]
      ensures s == Ok ==> InMap(reg, 1) && value == regs[reg as int]
    {
      s := *;
      if s == Ok && !InMap(reg, 1) {
        s := Fail;
      }
      if s == Ok {
        value := regs[reg as int];
      } else {
        value := *;
      }
      ghost var tx := Tx(addr, Read(reg), s);
      ReplayStep(initial, log, tx);
      log := log + [tx];
    }

    /** `writeRegister` / `writeRegisterRegion` / `writeRegisterByte`: write
        `data` to consecutive registers from `reg`. */
    method WriteRegister(reg: bv8, data: seq<bv8>) returns (s: Status)
      requires Valid()
      modifies this
      ensures Valid() && addr == old(addr)
      ensures log == old(log) + [Tx(addr, Write(reg, data), s)]
      ensures s == Ok ==> InMap(reg, |data|) && regs == Written(old(regs), reg, data)
      ensures s != Ok ==> regs == old(regs)
    {
      s := *;
      if s == Ok && !InMap(reg, |data|) {
        s := Fail;
      }
      ghost var tx := Tx(addr, Write(reg, data), s);
      ReplayStep(initial, log, tx);
      if s == Ok {
        regs := Written(regs, reg, data);
      }
      log := log + [tx];
    }

    /** `setAddress`: later transactions go to `a`. */
    method SetAddress(a: bv8)
      modifies this
      ensures addr == a && regs == old(regs) && log == old(log)
    {
      addr := a;
    }
  }
}

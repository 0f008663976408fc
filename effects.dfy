/** The ten canned sound effects as the bus operations they issue. Each
    effect is a short script of parts; a part is either a linear frequency
    sweep, each note configured (duration 0, the caller's volume) and then
    switched on, or `off()`. The waits between notes and parts are not part
    of this model. */
module Effects {
  import opened ToolkitBus
  import opened BuzzerProtocol
  import opened RegisterFile
  import opened DevBuzzerRegisters

  /** The siren of effects 0 to 5 sweeps between these two notes in steps of 150. */
  const SirenLow: int := 150
  const SirenHigh: int := 4000
  const SirenStep: int := 150

  /** The four rising laugh sweeps of effects 6 and 7, each from the first note
      up to below the second. */
  const LaughFrom1: int := 1538
  const LaughTo1: int := 1905
  const LaughFrom2: int := 1250
  const LaughTo2: int := 1515
  const LaughFrom3: int := 1111
  const LaughTo3: int := 1342
  const LaughFrom4: int := 1010
  const LaughTo4: int := 1176
  const LaughStep: int := 10
  const QuickLaughStep: int := 15

  /** The three falling cry sweeps of effects 8 and 9, each from the first note
      down to above the second. */
  const CryFrom1: int := 2000
  const CryTo1: int := 1429
  const CryFrom2: int := 1667
  const CryTo2: int := 1250
  const CryFrom3: int := 1429
  const CryTo3: int := 1053
  const CryStep: int := 10
  const QuickCryStep: int := 20

  /** The signed step of a sweep loop; a zero step would never end. */
  type Step = s: int | s != 0 witness 1

  /** The guard of a sweep loop: `note < bound` when stepping up,
      `note > bound` when stepping down. */
  predicate Continues(note: int, bound: int, step: Step) {
    if step > 0 then note < bound else note > bound
  }

  /** The notes a loop `for (note = first; Continues(note); note += step)`
      visits: first, first + step, ... for as long as the guard holds. */
  function SweepNotes(first: int, bound: int, step: Step): (notes: seq<int>)
    ensures forall k :: 0 <= k < |notes| ==> notes[k] == first + k * step
    ensures forall k :: 0 <= k < |notes| ==> Continues(notes[k], bound, step)
    ensures !Continues(first + |notes| * step, bound, step)
    decreases if step > 0 then bound - first else first - bound
  {
    if Continues(first, bound, step) then
      var rest := SweepNotes(first + step, bound, step);
      assert forall k :: 0 <= k < |rest| ==> rest[k] == first + (k + 1) * step;
      assert first + step + |rest| * step == first + (|rest| + 1) * step;
      [first] + rest
    else []
  }

  /** The `int` note passed for a `uint16_t` frequency, converted as C does. */
  function Tone(note: int): bv16 {
    (note % 0x1_0000) as bv16
  }

  /** Configure each note with duration 0 and the given volume, then switch
      the buzzer on. */
  function TonePlan(notes: seq<int>, volume: bv8): (plan: seq<Op>)
    ensures |plan| == 2 * |notes|
  {
    if notes == [] then []
    else [ConfigureOp(Tone(notes[0]), 0, volume), OnOp] + TonePlan(notes[1..], volume)
  }

  /** Note `k` of a sweep is configured at position `2k` and switched on right after. */
  lemma {:induction false} TonePlanAt(notes: seq<int>, volume: bv8, k: nat)
    requires k < |notes|
    ensures TonePlan(notes, volume)[2 * k] == ConfigureOp(Tone(notes[k]), 0, volume)
    ensures TonePlan(notes, volume)[2 * k + 1] == OnOp
  {
    if k > 0 {
      TonePlanAt(notes[1..], volume, k - 1);
    }
  }

  /** The operations of one sweep loop: while the guard holds, configure the
      current note and switch the buzzer on, then step. */
  function SweepPlan(note: int, bound: int, step: Step, volume: bv8): seq<Op>
    decreases if step > 0 then bound - note else note - bound
  {
    if Continues(note, bound, step) then
      [ConfigureOp(Tone(note), 0, volume), OnOp] + SweepPlan(note + step, bound, step, volume)
    else []
  }

  /** A sweep loop issues, for each note of the sweep in order, one configure
      and one `on()`. */
  lemma {:induction false} SweepPlanNotes(first: int, bound: int, step: Step, volume: bv8)
    ensures SweepPlan(first, bound, step, volume) == TonePlan(SweepNotes(first, bound, step), volume)
    decreases if step > 0 then bound - first else first - bound
  {
    if Continues(first, bound, step) {
      SweepPlanNotes(first + step, bound, step, volume);
      var notes := SweepNotes(first, bound, step);
      assert notes[1..] == SweepNotes(first + step, bound, step);
    }
  }

  /** One part of an effect: a sweep loop, or `off()`. */
  datatype Part = Sweep(first: int, bound: int, step: Step) | Silence

  /** The operations one part issues when none fails. */
  function PartOps(p: Part, volume: bv8): seq<Op> {
    match p
    case Sweep(first, bound, step) => SweepPlan(first, bound, step, volume)
    case Silence => [OffOp]
  }

  /** The operations a script issues when none fails: its parts in order. */
  function ScriptOps(script: seq<Part>, volume: bv8): seq<Op>
    decreases |script|
  {
    if script == [] then [] else PartOps(script[0], volume) + ScriptOps(script[1..], volume)
  }

  /** Running two scripts one after the other issues both in order. */
  lemma {:induction false} ScriptOpsAppend(s: seq<Part>, t: seq<Part>, volume: bv8)
    ensures ScriptOps(s + t, volume) == ScriptOps(s, volume) + ScriptOps(t, volume)
    decreases |s|
  {
    if s == [] {
      assert s + t == t;
    } else {
      ScriptOpsAppend(s[1..], t, volume);
      assert (s + t)[0] == s[0];
      assert (s + t)[1..] == s[1..] + t;
      calc {
        ScriptOps(s + t, volume);
        PartOps(s[0], volume) + ScriptOps(s[1..] + t, volume);
        PartOps(s[0], volume) + (ScriptOps(s[1..], volume) + ScriptOps(t, volume));
        (PartOps(s[0], volume) + ScriptOps(s[1..], volume)) + ScriptOps(t, volume);
      }
    }
  }

  /** The siren's rising sweep, from SirenLow up to below SirenHigh. */
  const SirenUp: Part := Sweep(SirenLow, SirenHigh, SirenStep)

  /** The siren's falling sweep, from SirenHigh down to above SirenLow. */
  const SirenDown: Part := Sweep(SirenHigh, SirenLow, -SirenStep)

  /** Four rising sweeps with the given step, each followed by `off()`. */
  function LaughScript(step: int): seq<Part>
    requires step > 0
  {
    [Sweep(LaughFrom1, LaughTo1, step), Silence, Sweep(LaughFrom2, LaughTo2, step), Silence,
     Sweep(LaughFrom3, LaughTo3, step), Silence, Sweep(LaughFrom4, LaughTo4, step), Silence]
  }

  /** Three falling sweeps with the given step, each followed by `off()`. */
  function CryScript(step: int): seq<Part>
    requires step > 0
  {
    [Sweep(CryFrom1, CryTo1, -step), Silence, Sweep(CryFrom2, CryTo2, -step), Silence,
     Sweep(CryFrom3, CryTo3, -step), Silence]
  }

  /** The ten canned effects, in the order of their numbers 0 to 9. */
  datatype SoundEffect =
    | Siren            // 0: one siren cycle
    | TripleSiren      // 1: three fast siren cycles
    | SlowRise         // 2
    | FastRise         // 3
    | SlowFall         // 4
    | FastFall         // 5
    | Laugh            // 6
    | QuickLaugh       // 7
    | Cry              // 8
    | QuickCry         // 9

  /** The number `playSoundEffect` selects an effect by. */
  function Number(e: SoundEffect): (n: bv8)
    ensures n <= 9
  {
    match e
    case Siren => 0
    case TripleSiren => 1
    case SlowRise => 2
    case FastRise => 3
    case SlowFall => 4
    case FastFall => 5
    case Laugh => 6
    case QuickLaugh => 7
    case Cry => 8
    case QuickCry => 9
  }

  /** The effect with number `n`. */
  function Numbered(n: bv8): (e: SoundEffect)
    requires n <= 9
    ensures Number(e) == n
  {
    match n
    case 0 => Siren
    case 1 => TripleSiren
    case 2 => SlowRise
    case 3 => FastRise
    case 4 => SlowFall
    case 5 => FastFall
    case 6 => Laugh
    case 7 => QuickLaugh
    case 8 => Cry
    case 9 => QuickCry
  }

  /** Every effect has its own number. */
  lemma NumberedNumber(e: SoundEffect)
    ensures Numbered(Number(e)) == e
  {
  }

  /** The parts of each effect. The slow and fast variants of effects 2 to 5
      differ only in their waits, which are not modelled. */
  function Script(e: SoundEffect): seq<Part> {
    match e
    case Siren => [SirenUp, SirenDown, Silence]
    case TripleSiren => [SirenUp, SirenDown, SirenUp, SirenDown, SirenUp, SirenDown, Silence]
    case SlowRise => [SirenUp, Silence]
    case FastRise => [SirenUp, Silence]
    case SlowFall => [SirenDown, Silence]
    case FastFall => [SirenDown, Silence]
    case Laugh => LaughScript(LaughStep)
    case QuickLaugh => LaughScript(QuickLaughStep)
    case Cry => CryScript(CryStep)
    case QuickCry => CryScript(QuickCryStep)
  }

  /** Everything effect `e` issues when no operation fails. */
  function EffectPlan(e: SoundEffect, volume: bv8): seq<Op> {
    ScriptOps(Script(e), volume)
  }

  /** One more part of a script has been run: after the first `k` parts
      succeeded, part `k` ran with outcome `r`. A failure ends the whole script. */
  lemma RanPart(l0: seq<Tx>, l1: seq<Tx>, l2: seq<Tx>, a: bv8, script: seq<Part>, k: nat, volume: bv8, r: Status)
    requires k < |script|
    requires Ran(l0, l1, a, ScriptOps(script[..k], volume), Ok)
    requires Ran(l1, l2, a, PartOps(script[k], volume), r)
    ensures Ran(l0, l2, a, ScriptOps(script[..k + 1], volume), r)
    ensures r != Ok ==> Ran(l0, l2, a, ScriptOps(script, volume), r)
  {
    ScriptOpsSplit(script, k, volume);
    RanSeq(l0, l1, l2, a, ScriptOps(script[..k], volume), PartOps(script[k], volume),
           ScriptOps(script[k + 1..], volume), r);
  }

  /** A script's operations split at part `k`. */
  lemma ScriptOpsSplit(script: seq<Part>, k: nat, volume: bv8)
    requires k < |script|
    ensures ScriptOps(script[..k + 1], volume) == ScriptOps(script[..k], volume) + PartOps(script[k], volume)
    ensures ScriptOps(script, volume) ==
      ScriptOps(script[..k], volume) + PartOps(script[k], volume) + ScriptOps(script[k + 1..], volume)
  {
    assert [script[k]][1..] == [];
    assert ScriptOps([script[k]], volume) == PartOps(script[k], volume);
    assert script[..k + 1] == script[..k] + [script[k]];
    ScriptOpsAppend(script[..k], [script[k]], volume);
    assert script == script[..k + 1] + script[k + 1..];
    ScriptOpsAppend(script[..k + 1], script[k + 1..], volume);
  }


  /** The siren of effects 0 and 1 rises through the 26 notes 150, 300, ..., 3900
      and falls through the 26 notes 4000, 3850, ..., 250. */
  lemma SirenNotes()
    ensures |SweepNotes(SirenLow, SirenHigh, SirenStep)| == 26
    ensures forall k :: 0 <= k < 26 ==> SweepNotes(SirenLow, SirenHigh, SirenStep)[k] == 150 + 150 * k
    ensures SweepNotes(SirenLow, SirenHigh, SirenStep)[25] == 3900
    ensures |SweepNotes(SirenHigh, SirenLow, -SirenStep)| == 26
    ensures forall k :: 0 <= k < 26 ==> SweepNotes(SirenHigh, SirenLow, -SirenStep)[k] == 4000 - 150 * k
    ensures SweepNotes(SirenHigh, SirenLow, -SirenStep)[25] == 250
  {
    var up := SweepNotes(SirenLow, SirenHigh, SirenStep);
    if |up| > 0 {
      assert Continues(up[|up| - 1], SirenHigh, SirenStep);
    }
    var down := SweepNotes(SirenHigh, SirenLow, -SirenStep);
    if |down| > 0 {
      assert Continues(down[|down| - 1], SirenLow, -SirenStep);
    }
  }

  /** A rising sweep visits strictly increasing notes from `first` up to below `bound`. */
  lemma RisingSweep(first: int, bound: int, step: Step)
    requires step > 0
    ensures forall i, j :: 0 <= i < j < |SweepNotes(first, bound, step)| ==>
      SweepNotes(first, bound, step)[i] < SweepNotes(first, bound, step)[j]
    ensures forall k :: 0 <= k < |SweepNotes(first, bound, step)| ==>
      first <= SweepNotes(first, bound, step)[k] < bound
  {
    var notes := SweepNotes(first, bound, step);
    forall i, j | 0 <= i < j < |notes|
      ensures notes[i] < notes[j]
    {
      MoreSteps(i, j, step);
    }
    forall k | 0 <= k < |notes|
      ensures first <= notes[k] < bound
    {
      MoreSteps(0, k, step);
    }
  }

  /** A falling sweep visits strictly decreasing notes from `first` down to above `bound`. */
  lemma FallingSweep(first: int, bound: int, step: Step)
    requires step < 0
    ensures forall i, j :: 0 <= i < j < |SweepNotes(first, bound, step)| ==>
      SweepNotes(first, bound, step)[i] > SweepNotes(first, bound, step)[j]
    ensures forall k :: 0 <= k < |SweepNotes(first, bound, step)| ==>
      bound < SweepNotes(first, bound, step)[k] <= first
  {
    var notes := SweepNotes(first, bound, step);
    forall i, j | 0 <= i < j < |notes|
      ensures notes[i] > notes[j]
    {
      MoreSteps(i, j, step);
    }
    forall k | 0 <= k < |notes|
      ensures bound < notes[k] <= first
    {
      MoreSteps(0, k, step);
    }
  }

  /** Taking more steps of the same sign moves further from the start. */
  lemma MoreSteps(i: int, j: int, step: int)
    requires 0 <= i <= j
    ensures step > 0 ==> i * step <= j * step && (i < j ==> i * step < j * step)
    ensures step < 0 ==> i * step >= j * step && (i < j ==> i * step > j * step)
  {
    assert j * step == i * step + (j - i) * step;
  }

  /** The only operations an effect issues: `on()`, `off()`, or a configure
      with duration 0 (play until switched off) at the caller's volume. */
  predicate EffectOp(op: Op, volume: bv8) {
    op == OnOp || op == OffOp ||
    (op.Write? && op.reg == RegToneFrequencyMsb && |op.data| == 5 &&
     op.data[2] == volume && op.data[3] == 0 && op.data[4] == 0)
  }

  predicate EffectOps(plan: seq<Op>, volume: bv8) {
    forall i :: 0 <= i < |plan| ==> EffectOp(plan[i], volume)
  }

  /** The bytes Join assembles into 0 are both 0. */
  lemma SplitDuration(data: seq<bv8>)
    requires |data| == 5 && Bytes.Join(data[3], data[4]) == 0
    ensures data[3] == 0 && data[4] == 0
  {
    Bytes.SplitJoin(0);
  }

  lemma AppendOps(p: seq<Op>, q: seq<Op>, volume: bv8)
    requires EffectOps(p, volume) && EffectOps(q, volume)
    ensures EffectOps(p + q, volume)
  {
    forall i | 0 <= i < |p + q|
      ensures EffectOp((p + q)[i], volume)
    {
      if i >= |p| {
        assert (p + q)[i] == q[i - |p|];
      }
    }
  }

  lemma {:induction false} SweepOps(note: int, bound: int, step: Step, volume: bv8)
    ensures EffectOps(SweepPlan(note, bound, step, volume), volume)
    decreases if step > 0 then bound - note else note - bound
  {
    if Continues(note, bound, step) {
      SweepOps(note + step, bound, step, volume);
      SplitDuration(ConfigBytes(Tone(note), 0, volume));
      AppendOps([ConfigureOp(Tone(note), 0, volume), OnOp], SweepPlan(note + step, bound, step, volume), volume);
    }
  }

  lemma {:induction false} ScriptShape(script: seq<Part>, volume: bv8)
    ensures EffectOps(ScriptOps(script, volume), volume)
    decreases |script|
  {
    if script != [] {
      ScriptShape(script[1..], volume);
      if script[0].Sweep? {
        SweepOps(script[0].first, script[0].bound, script[0].step, volume);
      }
      AppendOps(PartOps(script[0], volume), ScriptOps(script[1..], volume), volume);
    }
  }

  /** The plan is not empty and its last operation is `off()`. */
  predicate EndsOff(plan: seq<Op>) {
    |plan| > 0 && plan[|plan| - 1] == OffOp
  }

  /** A script whose last part is `off()` issues `off()` last. */
  lemma ScriptEndsOff(script: seq<Part>, volume: bv8)
    requires |script| > 0 && script[|script| - 1] == Silence
    ensures EndsOff(ScriptOps(script, volume))
  {
    var n := |script| - 1;
    assert script == script[..n] + [Silence];
    ScriptOpsAppend(script[..n], [Silence], volume);
    assert ScriptOps([Silence], volume) == [OffOp] + [];
  }

  /** Every effect's script ends with `off()`. */
  lemma ScriptEndsSilent(e: SoundEffect)
    ensures |Script(e)| > 0 && Script(e)[|Script(e)| - 1] == Silence
  {
    match e
    case Siren =>
    case TripleSiren =>
    case SlowRise =>
    case FastRise =>
    case SlowFall =>
    case FastFall =>
    case Laugh =>
    case QuickLaugh =>
    case Cry =>
    case QuickCry =>
  }

  /** Every sound effect issues only `on()`, `off()` and configures with
      duration 0 and the caller's volume, and its last operation is `off()`. */
  lemma EffectShape(e: SoundEffect, volume: bv8)
    ensures EffectOps(EffectPlan(e, volume), volume)
    ensures EndsOff(EffectPlan(e, volume))
  {
    var script := Script(e);
    ScriptShape(script, volume);
    ScriptEndsSilent(e);
    ScriptEndsOff(script, volume);
  }

  /** Issuing a plan whose last operation is `off()`, with every write
      succeeding, leaves the buzzer switched off. */
  lemma {:induction false} EndsOffSilent(regs: seq<bv8>, txs: seq<Tx>, a: bv8, plan: seq<Op>)
    requires |regs| == Size
    requires EndsOff(plan) && Executed(txs, a, plan, Ok)
    ensures Replay(regs, txs)[RegActive] == 0
  {
    ExecutedOk(txs, a, plan);
    var last := |txs| - 1;
    assert txs[last] == Tx(a, OffOp, Ok);
    OneByteWrites(Replay(regs, txs[..last]), a, 0);
  }

  /** An effect that runs to completion leaves the buzzer switched off. */
  lemma EffectEndsSilent(regs: seq<bv8>, txs: seq<Tx>, a: bv8, e: SoundEffect, volume: bv8)
    requires |regs| == Size
    requires Executed(txs, a, EffectPlan(e, volume), Ok)
    ensures Replay(regs, txs)[RegActive] == 0
  {
    EffectShape(e, volume);
    EndsOffSilent(regs, txs, a, EffectPlan(e, volume));
  }

  /** One turn of a sweep loop, seen from the whole sweep: what is done so far,
      then this note's configure and `on()`, then the rest of the sweep. */
  lemma SweepAdvance(first: int, bound: int, step: Step, volume: bv8, done: seq<Op>, note: int)
    requires Continues(note, bound, step)
    requires SweepPlan(first, bound, step, volume) == done + SweepPlan(note, bound, step, volume)
    ensures SweepPlan(first, bound, step, volume) ==
      done + [ConfigureOp(Tone(note), 0, volume), OnOp] + SweepPlan(note + step, bound, step, volume)
  {
    var turn := [ConfigureOp(Tone(note), 0, volume), OnOp];
    var rest := SweepPlan(note + step, bound, step, volume);
    assert done + (turn + rest) == done + turn + rest;
  }

  /** When the loop guard fails, the whole sweep has been issued. */
  lemma SweepFinished(first: int, bound: int, step: Step, volume: bv8, done: seq<Op>, note: int)
    requires !Continues(note, bound, step)
    requires SweepPlan(first, bound, step, volume) == done + SweepPlan(note, bound, step, volume)
    ensures SweepPlan(first, bound, step, volume) == done
  {
  }
}

// The shared delay target: the producer's controller and the consumer's underrun
// handler both move it, with a compare-and-swap wherever a change depends on what was read.
module AudioTarget {
  import opened Bytes
  import opened AudioJitter

  datatype Producer =
    | Waiting
    | Decided(seen: nat, update: Update)
    | Raising(desired: nat, current: nat)

  datatype Consumer =
    | Playing
    | Underrun(seen: nat)
    | Lifting(desired: nat, current: nat)

  /** overtaken records whether the consumer has raised the target since the producer read it. */
  datatype State = State(target: nat, prod: Producer, cons: Consumer, overtaken: bool)

  datatype Step =
    | Arrive(c: Controller, frames: nat, rate: nat, timestamp: int, now: int, underruns: int)
    | Produce(spurious: bool)
    | SetFormat
    | RunDry
    | Consume(spurious: bool)

  /** The clamp every raise goes through before its loop. */
  function Wanted(ms: nat): nat {
    Clamp(Wrap32(ms), MIN_MS, MAX_MS)
  }

  /** A weak compare-and-swap may fail without cause; on failure it reports what it found. */
  function Swap(target: nat, expected: nat, value: nat, spurious: bool): (bool, nat) {
    if target == expected && !spurious then (true, value) else (false, target)
  }

  function Producing(s: State, spurious: bool): State {
    match s.prod
    case Waiting => s
    case Decided(seen, update) =>
      (match update.action
       case Unchanged => s.(prod := Waiting)
       case SetTo => s.(target := update.target, prod := Waiting)
       case Raise => s.(prod := Raising(Wanted(update.target), s.target))
       case Decay => s.(target := if s.target == seen then update.target else s.target, prod := Waiting))
    case Raising(desired, current) =>
      if current >= desired then s.(prod := Waiting)
      else
        var (ok, value) := Swap(s.target, current, desired, spurious);
        if ok then s.(target := value, prod := Waiting) else s.(prod := Raising(desired, value))
  }

  function Consuming(s: State, spurious: bool): State {
    match s.cons
    case Playing => s
    case Underrun(seen) => s.(cons := Lifting(Wanted(seen + HEADROOM_MS), s.target))
    case Lifting(desired, current) =>
      if current >= desired then s.(cons := Playing)
      else
        var (ok, value) := Swap(s.target, current, desired, spurious);
        if ok then s.(target := value, cons := Playing, overtaken := true) else s.(cons := Lifting(desired, value))
  }

  /** A step whose thread is busy elsewhere leaves the state alone. */
  function Apply(s: State, step: Step): State {
    match step
    case Arrive(c, frames, rate, timestamp, now, underruns) =>
      if !s.prod.Waiting? then s
      else s.(prod := Decided(s.target, Updated(c, frames, rate, timestamp, now, underruns, s.target).1),
              overtaken := false)
    case Produce(spurious) => Producing(s, spurious)
    case SetFormat => if s.prod.Waiting? then s.(target := INITIAL_MS) else s
    case RunDry => if s.cons.Playing? then s.(cons := Underrun(s.target)) else s
    case Consume(spurious) => Consuming(s, spurious)
  }

  function Run(s: State, steps: seq<Step>): State {
    if steps == [] then s else Apply(Run(s, steps[..|steps| - 1]), steps[|steps| - 1])
  }

  const START := State(INITIAL_MS, Waiting, Playing, false)

  predicate InBounds(ms: nat) {
    MIN_MS <= ms <= MAX_MS
  }

  predicate Inv(s: State) {
    && InBounds(s.target)
    && (s.prod.Raising? ==> InBounds(s.prod.desired))
    && (s.cons.Lifting? ==> InBounds(s.cons.desired))
    && (s.prod.Decided? ==>
          && InBounds(s.prod.seen) && Legal(s.prod.seen, s.prod.update)
          && (if s.overtaken then s.target > s.prod.seen else s.target == s.prod.seen))
  }

  lemma ApplyInv(s: State, step: Step)
    requires Inv(s)
    ensures Inv(Apply(s, step))
  {
    hide Updated, Wrap32;
    if step.Arrive? && s.prod.Waiting? {
      UpdateLegal(step.c, step.frames, step.rate, step.timestamp, step.now, step.underruns, s.target);
    }
  }

  /** In every interleaving the shared target stays within 40 to 260 ms. */
  lemma {:induction false} TargetBounded(steps: seq<Step>)
    ensures Inv(Run(START, steps)) && MIN_MS <= Run(START, steps).target <= MAX_MS
    decreases |steps|
  {
    hide Apply, Legal;
    if steps != [] {
      TargetBounded(steps[..|steps| - 1]);
      ApplyInv(Run(START, steps[..|steps| - 1]), steps[|steps| - 1]);
    }
  }

  /** In every interleaving a decay takes effect exactly when the consumer has not raised the target since
    * the producer read it, and then lowers it by at most 10 ms. */
  lemma DecayYieldsToRaise(steps: seq<Step>, spurious: bool)
    requires Run(START, steps).prod.Decided? && Run(START, steps).prod.update.action.Decay?
    ensures var s := Run(START, steps); var t := Apply(s, Produce(spurious));
            && (t.target < s.target <==> !s.overtaken)
            && (s.overtaken ==> t.target == s.target > s.prod.seen)
            && s.target - t.target <= DECAY_STEP_MS
  {
    hide Run;
    TargetBounded(steps);
  }

  /** The consumer never lowers the target, and its raise ends at or above what it wanted or at a value it
    * found there at or above it. */
  lemma ConsumerOnlyRaises(s: State, spurious: bool)
    ensures var t := Consuming(s, spurious);
            && t.target >= s.target
            && (t.target != s.target ==> s.cons.Lifting? && t.target == s.cons.desired && t.overtaken)
            && (s.cons.Lifting? && t.cons.Playing? ==> t.target == s.cons.desired || s.cons.current >= s.cons.desired)
            && (t.cons.Lifting? && s.cons.Lifting? ==> t.cons.current == s.target)
  {
    hide Wrap32;
  }
}

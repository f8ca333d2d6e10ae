/**
 * Governance of adapter health probes: a circuit breaker with a half-open
 * trial phase and an exponential backoff, driven by probes that overlap freely.
 * A probe takes its clock reading when it begins and uses it again when it ends.
 */
module AdapterHealth {

  /** A clock reading in nanoseconds; 0 is the zero time. */
  type Time = nat

  datatype Status = Healthy | Degraded | Unavailable

  datatype Circuit = Unset | Closed | Open | HalfOpen

  /** Normalized options: counts and durations of an enabled circuit are positive. */
  datatype Options = Options(
    circuit: bool, failureThreshold: int, openDuration: int, halfOpenMaxProbe: int, successThreshold: int,
    backoff: bool, initial: int, max: int, multiplier: real, jitterRatio: real)

  predicate OptionsOk(o: Options) {
    o.circuit ==> o.failureThreshold > 0 && o.openDuration > 0 && o.halfOpenMaxProbe > 0 && o.successThreshold > 0
  }

  /** The governance state of one target. */
  datatype State = State(
    circuit: Circuit, fails: int, trialSuccess: int, inFlight: int, openUntil: Time, nextProbeAt: Time,
    backoffFails: int, backoffTotal: int, opens: int, halfOpens: int, recovers: int)

  const Zero: State := State(Unset, 0, 0, 0, 0, 0, 0, 0, 0, 0, 0)

  datatype Gate = Allowed(reserved: bool) | CircuitOpen | TrialFull | Throttled

  // ----- before and after a probe -----

  function Awake(o: Options, s: State, now: Time): State {
    if !o.circuit then s
    else
      var a := if s.circuit == Unset then s.(circuit := Closed) else s;
      if a.circuit == Open && a.openUntil != 0 && now >= a.openUntil then
        a.(circuit := HalfOpen, trialSuccess := 0, inFlight := 0, halfOpens := a.halfOpens + 1)
      else a
  }

  function BeforeProbe(o: Options, s: State, now: Time): (State, Gate) {
    var a := Awake(o, s, now);
    if o.circuit && a.circuit == Open && now < a.openUntil then (a, CircuitOpen)
    else if o.circuit && a.circuit == HalfOpen && o.halfOpenMaxProbe > 0 && a.inFlight >= o.halfOpenMaxProbe then
      (a, TrialFull)
    else if o.backoff && a.nextProbeAt != 0 && now < a.nextProbeAt then (a, Throttled)
    else if o.circuit && a.circuit == HalfOpen then (a.(inFlight := a.inFlight + 1), Allowed(true))
    else (a, Allowed(false))
  }

  function Tripped(o: Options, s: State, now: Time): State {
    s.(circuit := Open, openUntil := Later(now, o.openDuration), trialSuccess := 0, opens := s.opens + 1)
  }

  function Later(now: Time, d: int): Time { if now + d > 0 then now + d else 0 }

  function AfterCircuit(o: Options, s: State, now: Time, status: Status): State {
    match s.circuit
    case Open =>
      if s.openUntil != 0 && now >= s.openUntil
      then s.(circuit := HalfOpen, trialSuccess := 0, halfOpens := s.halfOpens + 1) else s
    case HalfOpen =>
      (match status
       case Healthy =>
         if s.trialSuccess + 1 >= o.successThreshold
         then s.(circuit := Closed, fails := 0, trialSuccess := 0, openUntil := 0, recovers := s.recovers + 1)
         else s.(trialSuccess := s.trialSuccess + 1)
       case Unavailable => Tripped(o, s, now).(fails := 0)
       case Degraded => s)
    case _ =>
      (match status
       case Unavailable =>
         var f := s.(fails := s.fails + 1);
         if f.fails >= o.failureThreshold then Tripped(o, f, now) else f
       case _ => s.(fails := 0))
  }

  function AfterBackoff(o: Options, s: State, now: Time, status: Status, delay: int): State {
    if !o.backoff then s
    else if status == Unavailable then
      s.(backoffFails := s.backoffFails + 1, nextProbeAt := Later(now, delay), backoffTotal := s.backoffTotal + 1)
    else s.(backoffFails := 0, nextProbeAt := 0)
  }

  /** `delay` is the backoff for the failure count reached by this probe. */
  function AfterProbe(o: Options, s: State, now: Time, status: Status, reserved: bool, delay: int): State {
    var a := if o.circuit && s.circuit == Unset then s.(circuit := Closed) else s;
    var b := if reserved && a.inFlight > 0 then a.(inFlight := a.inFlight - 1) else a;
    var c := if o.circuit then AfterCircuit(o, b, now, status) else b;
    AfterBackoff(o, c, now, status, delay)
  }

  // ----- overlapping probes of one target -----

  datatype Flight = Flight(now: Time, reserved: bool)

  datatype Target = Target(state: State, flights: map<nat, Flight>)

  datatype Step = Begin(p: nat, now: Time) | End(p: nat, status: Status, delay: int)

  function Next(o: Options, t: Target, step: Step): Target {
    match step
    case Begin(p, now) =>
      if p in t.flights then t
      else
        var (s, gate) := BeforeProbe(o, t.state, now);
        Target(s, if gate.Allowed? then t.flights[p := Flight(now, gate.reserved)] else t.flights)
    case End(p, status, delay) =>
      if p !in t.flights then t
      else
        var f := t.flights[p];
        Target(AfterProbe(o, t.state, f.now, status, f.reserved, delay), t.flights - {p})
  }

  ghost predicate StepAt(o: Options, ts: seq<Target>, steps: seq<Step>, i: nat)
    requires i < |steps| && |ts| == |steps| + 1
  {
    ts[i + 1] == Next(o, ts[i], steps[i])
  }

  ghost predicate IsRun(o: Options, ts: seq<Target>, steps: seq<Step>) {
    o.circuit && OptionsOk(o) && |ts| == |steps| + 1 && ts[0] == Target(Zero, map[]) &&
    forall i :: 0 <= i < |steps| ==> StepAt(o, ts, steps, i)
  }

  // ----- counters -----

  predicate Inv(o: Options, s: State) {
    s.opens == s.halfOpens + (if s.circuit == Open then 1 else 0) &&
    s.recovers + (if s.circuit == HalfOpen then 1 else 0) <= s.halfOpens && s.recovers >= 0 &&
    (s.circuit == Closed || s.circuit == Unset ==> 0 <= s.fails < o.failureThreshold) &&
    0 <= s.inFlight <= o.halfOpenMaxProbe && 0 <= s.trialSuccess < o.successThreshold && 0 <= s.fails &&
    (s.circuit == Open ==> s.openUntil != 0)
  }

  lemma BeforeKeepsInv(o: Options, s: State, now: Time)
    requires o.circuit && OptionsOk(o) && Inv(o, s)
    ensures Inv(o, BeforeProbe(o, s, now).0)
  {
    assert Inv(o, Awake(o, s, now));
  }

  lemma CircuitKeepsInv(o: Options, s: State, now: Time, status: Status)
    requires o.circuit && OptionsOk(o) && Inv(o, s)
    ensures Inv(o, AfterCircuit(o, s, now, status))
  {
  }

  lemma AfterKeepsInv(o: Options, s: State, now: Time, status: Status, reserved: bool, delay: int)
    requires o.circuit && OptionsOk(o) && Inv(o, s)
    ensures Inv(o, AfterProbe(o, s, now, status, reserved, delay))
  {
    var a := if s.circuit == Unset then s.(circuit := Closed) else s;
    var b := if reserved && a.inFlight > 0 then a.(inFlight := a.inFlight - 1) else a;
    CircuitKeepsInv(o, b, now, status);
    BackoffKeepsInv(o, AfterCircuit(o, b, now, status), now, status, delay);
  }

  lemma BackoffKeepsInv(o: Options, s: State, now: Time, status: Status, delay: int)
    requires Inv(o, s)
    ensures Inv(o, AfterBackoff(o, s, now, status, delay))
  {
  }

  lemma StepKeepsInv(o: Options, t: Target, step: Step)
    requires o.circuit && OptionsOk(o) && Inv(o, t.state)
    ensures Inv(o, Next(o, t, step).state)
  {
    match step
    case Begin(p, now) => BeforeKeepsInv(o, t.state, now);
    case End(p, status, delay) =>
      if p in t.flights { AfterKeepsInv(o, t.state, t.flights[p].now, status, t.flights[p].reserved, delay); }
  }

  /**
   * At every point of every interleaving: opens equal half-opens, plus one
   * exactly when open; recoveries never exceed half-opens; a closed circuit is
   * below its failure threshold; the trial counter stays within its budget.
   */
  lemma {:induction false} CountersAgree(o: Options, ts: seq<Target>, steps: seq<Step>, n: nat)
    requires IsRun(o, ts, steps) && n < |ts|
    ensures Inv(o, ts[n].state)
  {
    if n > 0 {
      CountersAgree(o, ts, steps, n - 1);
      assert StepAt(o, ts, steps, n - 1);
      StepKeepsInv(o, ts[n - 1], steps[n - 1]);
    }
  }

  // ----- the trial counter and the trials that are running -----

  /** The probes that took a half-open slot and have not ended. */
  function Reserved(t: Target): set<nat> { set p | p in t.flights && t.flights[p].reserved }

  /** A probe finds an open circuit past its deadline and starts a new trial phase, with a counter of 0. */
  predicate Reenters(t: Target, step: Step) {
    step.Begin? && step.p !in t.flights && t.state.circuit == Open && t.state.openUntil != 0 &&
    step.now >= t.state.openUntil
  }

  lemma BeforeCounts(o: Options, s: State, now: Time)
    requires o.circuit
    ensures var (a, gate) := BeforeProbe(o, s, now);
      var kept := if s.circuit == Open && s.openUntil != 0 && now >= s.openUntil then 0 else s.inFlight;
      a.inFlight == (if gate == Allowed(true) then kept + 1 else kept)
  {
  }

  lemma ReservedAdd(t: Target, s: State, p: nat, f: Flight)
    requires p !in t.flights
    ensures var u := Target(s, t.flights[p := f]);
      |Reserved(u)| == |Reserved(t)| + (if f.reserved then 1 else 0)
  {
    var u := Target(s, t.flights[p := f]);
    if f.reserved {
      assert Reserved(u) == Reserved(t) + {p};
    } else {
      assert Reserved(u) == Reserved(t);
    }
  }

  lemma BeginCounts(o: Options, t: Target, p: nat, now: Time)
    requires o.circuit && p !in t.flights
    ensures var u := Next(o, t, Begin(p, now)); var kept := if Reenters(t, Begin(p, now)) then 0 else t.state.inFlight;
      (|Reserved(u)| == |Reserved(t)| && u.state.inFlight == kept) ||
      (|Reserved(u)| == |Reserved(t)| + 1 && u.state.inFlight == kept + 1)
  {
    var (s, gate) := BeforeProbe(o, t.state, now);
    BeforeCounts(o, t.state, now);
    if gate.Allowed? {
      ReservedAdd(t, s, p, Flight(now, gate.reserved));
    } else {
      assert Reserved(Target(s, t.flights)) == Reserved(t);
    }
  }

  lemma AfterCounts(o: Options, s: State, now: Time, status: Status, reserved: bool, delay: int)
    ensures AfterProbe(o, s, now, status, reserved, delay).inFlight ==
      if reserved && s.inFlight > 0 then s.inFlight - 1 else s.inFlight
  {
  }

  lemma EndCounts(o: Options, t: Target, p: nat, status: Status, delay: int)
    requires p in t.flights
    ensures var u := Next(o, t, End(p, status, delay));
      if p in Reserved(t) then
        |Reserved(u)| == |Reserved(t)| - 1 &&
        u.state.inFlight == (if t.state.inFlight > 0 then t.state.inFlight - 1 else t.state.inFlight)
      else |Reserved(u)| == |Reserved(t)| && u.state.inFlight == t.state.inFlight
  {
    var u := Next(o, t, End(p, status, delay));
    AfterCounts(o, t.state, t.flights[p].now, status, t.flights[p].reserved, delay);
    assert Reserved(u) == Reserved(t) - {p};
  }

  /**
   * The counter never exceeds the trials that are running. From a state in which
   * they are equal, a step makes them differ if and only if it starts a new
   * trial phase while a trial of an earlier one is still running.
   */
  lemma TrialsStep(o: Options, t: Target, step: Step)
    requires o.circuit && 0 <= t.state.inFlight <= |Reserved(t)|
    ensures var u := Next(o, t, step);
      0 <= u.state.inFlight <= |Reserved(u)| &&
      (t.state.inFlight == |Reserved(t)| ==>
         (u.state.inFlight != |Reserved(u)| <==> Reenters(t, step) && Reserved(t) != {}))
  {
    match step
    case Begin(p, now) => if p !in t.flights { BeginCounts(o, t, p, now); }
    case End(p, status, delay) => if p in t.flights { EndCounts(o, t, p, status, delay); }
  }

  lemma {:induction false} TrialCounterNeverExceeds(o: Options, ts: seq<Target>, steps: seq<Step>, n: nat)
    requires IsRun(o, ts, steps) && n < |ts|
    ensures 0 <= ts[n].state.inFlight <= |Reserved(ts[n])|
  {
    if n > 0 {
      TrialCounterNeverExceeds(o, ts, steps, n - 1);
      assert StepAt(o, ts, steps, n - 1);
      TrialsStep(o, ts[n - 1], steps[n - 1]);
    }
  }

  /** In a run, the counter stops being the number of running trials exactly in such a step. */
  lemma TrialCounterLostIff(o: Options, ts: seq<Target>, steps: seq<Step>, n: nat)
    requires IsRun(o, ts, steps) && n < |steps| && ts[n].state.inFlight == |Reserved(ts[n])|
    ensures ts[n + 1].state.inFlight != |Reserved(ts[n + 1])| <==> Reenters(ts[n], steps[n]) && Reserved(ts[n]) != {}
  {
    assert StepAt(o, ts, steps, n);
    TrialsStep(o, ts[n], steps[n]);
  }

  /** So a run without such a step has the exact count, and never more trials running than the budget allows. */
  lemma {:induction false} TrialBudgetHolds(o: Options, ts: seq<Target>, steps: seq<Step>, n: nat)
    requires IsRun(o, ts, steps) && n < |ts|
    requires forall k :: 0 <= k < n ==> !(Reenters(ts[k], steps[k]) && Reserved(ts[k]) != {})
    ensures ts[n].state.inFlight == |Reserved(ts[n])| <= o.halfOpenMaxProbe
  {
    CountersAgree(o, ts, steps, n);
    if n > 0 {
      TrialBudgetHolds(o, ts, steps, n - 1);
      TrialCounterLostIff(o, ts, steps, n - 1);
    } else {
      assert Reserved(ts[0]) == {};
    }
  }

  /** A circuit that opens at the first failure, for one nanosecond, and allows one trial. */
  predicate Tight(o: Options) {
    o.circuit && OptionsOk(o) && !o.backoff && o.failureThreshold == 1 && o.openDuration == 1 && o.halfOpenMaxProbe == 1
  }

  const Opened: Target := Target(State(Open, 1, 0, 0, 2, 0, 0, 0, 1, 0, 0), map[2 := Flight(1, false)])

  lemma TwoProbesOneFails(o: Options) returns (t1: Target, t2: Target)
    requires Tight(o)
    ensures t1 == Next(o, Target(Zero, map[]), Begin(1, 1)) && t2 == Next(o, t1, Begin(2, 1))
    ensures Next(o, t2, End(1, Unavailable, 0)) == Opened
  {
    t1 := Target(Zero.(circuit := Closed), map[1 := Flight(1, false)]);
    t2 := t1.(flights := map[1 := Flight(1, false), 2 := Flight(1, false)]);
    assert t2.flights - {1} == Opened.flights;
  }

  lemma SecondTrialStarts(o: Options) returns (t4: Target, t5: Target, t6: Target)
    requires Tight(o)
    ensures t4 == Next(o, Opened, Begin(3, 2)) && t5 == Next(o, t4, End(2, Unavailable, 0))
    ensures t6 == Next(o, t5, Begin(4, 2))
    ensures Reserved(t6) == {3, 4} && t6.state.inFlight == 1
  {
    var trial := Opened.state.(circuit := HalfOpen, inFlight := 1, halfOpens := 1);
    t4 := Target(trial, map[2 := Flight(1, false), 3 := Flight(2, true)]);
    t5 := Target(trial.(circuit := Open, fails := 0, opens := 2), map[3 := Flight(2, true)]);
    t6 := Target(t5.state.(circuit := HalfOpen, halfOpens := 2), map[3 := Flight(2, true), 4 := Flight(2, true)]);
    assert t4.flights - {2} == t5.flights;
  }

  /**
   * Six steps after which two trials run although the budget is one: a late result
   * reopens the circuit under the first trial.
   */
  lemma TrialBudgetOverrun(o: Options) returns (ts: seq<Target>, steps: seq<Step>)
    requires Tight(o)
    ensures IsRun(o, ts, steps) && |steps| == 6
    ensures Reserved(ts[6]) == {3, 4} && ts[6].state.inFlight == 1
  {
    steps := [Begin(1, 1), Begin(2, 1), End(1, Unavailable, 0), Begin(3, 2), End(2, Unavailable, 0), Begin(4, 2)];
    var t1, t2 := TwoProbesOneFails(o);
    var t4, t5, t6 := SecondTrialStarts(o);
    ts := [Target(Zero, map[]), t1, t2, Opened, t4, t5, t6];
  }

  // ----- recovery -----

  /** The results with the given status that end in steps `a` to `b - 1`. */
  function Results(ts: seq<Target>, steps: seq<Step>, a: nat, b: nat, status: Status): nat
    requires a <= b <= |steps| && |ts| == |steps| + 1
    decreases b
  {
    if a == b then 0
    else Results(ts, steps, a, b - 1, status) + (if Ends(ts[b - 1], steps[b - 1], status) then 1 else 0)
  }

  predicate Ends(t: Target, step: Step, status: Status) { step.End? && step.p in t.flights && step.status == status }

  /** The steps from `a` on, up to `b`, form one half-open episode that was entered by step `a`. */
  ghost predicate Episode(ts: seq<Target>, a: nat, b: nat)
    requires a < b < |ts|
  {
    ts[a].state.circuit == Open && forall i :: a < i <= b ==> ts[i].state.circuit == HalfOpen
  }

  lemma {:induction false} EpisodeOf(o: Options, ts: seq<Target>, steps: seq<Step>, n: nat) returns (a: nat)
    requires IsRun(o, ts, steps) && n < |ts| && ts[n].state.circuit == HalfOpen
    ensures a < n && Episode(ts, a, n)
    ensures Results(ts, steps, a + 1, n, Healthy) == ts[n].state.trialSuccess
    ensures Results(ts, steps, a + 1, n, Unavailable) == 0
  {
    assert StepAt(o, ts, steps, n - 1);
    StepEffect(o, ts[n - 1], steps[n - 1]);
    if ts[n - 1].state.circuit == HalfOpen {
      a := EpisodeOf(o, ts, steps, n - 1);
    } else {
      a := n - 1;
    }
  }

  /** How one step treats a half-open circuit, and how it becomes half-open. */
  lemma StepEffect(o: Options, t: Target, step: Step)
    requires o.circuit && OptionsOk(o)
    ensures var s, s' := t.state, Next(o, t, step).state;
      (s'.circuit == HalfOpen && s.circuit != HalfOpen ==> s.circuit == Open && s'.trialSuccess == 0) &&
      (s.circuit == HalfOpen && s'.circuit == HalfOpen ==>
         !Ends(t, step, Unavailable) &&
         s'.trialSuccess == s.trialSuccess + (if Ends(t, step, Healthy) then 1 else 0)) &&
      (s'.recovers != s.recovers ==>
         s.circuit == HalfOpen && Ends(t, step, Healthy) && s.trialSuccess + 1 >= o.successThreshold)
  {
  }

  /**
   * A recovery ends a half-open episode in which exactly the threshold number of
   * healthy results, the last of them being the recovery itself, and no
   * unavailable result came in.
   */
  lemma RecoveryNeedsHealthyEpisode(o: Options, ts: seq<Target>, steps: seq<Step>, n: nat) returns (a: nat)
    requires IsRun(o, ts, steps) && n < |steps| && ts[n + 1].state.recovers != ts[n].state.recovers
    ensures a < n && Episode(ts, a, n) && Ends(ts[n], steps[n], Healthy)
    ensures Results(ts, steps, a + 1, n + 1, Healthy) == o.successThreshold
    ensures Results(ts, steps, a + 1, n + 1, Unavailable) == 0
  {
    CountersAgree(o, ts, steps, n);
    assert StepAt(o, ts, steps, n);
    StepEffect(o, ts[n], steps[n]);
    if n == 0 { assert ts[0].state == Zero; }
    a := EpisodeOf(o, ts, steps, n);
  }

  // ----- backoff -----

  const DefaultInitial: int := 200_000_000
  const DefaultMax: int := 5_000_000_000

  /** The initial delay and the cap that the computation falls back to. */
  function Base(o: Options): int { if o.initial <= 0 then DefaultInitial else o.initial }

  function Cap(o: Options): int { if o.max < Base(o) then DefaultMax else o.max }

  function Factor(o: Options): real { if o.multiplier <= 1.0 then 2.0 else o.multiplier }

  /** One more failure: the delay is multiplied and held at the cap. */
  function Raised(x: real, factor: real, cap: real): real { if x * factor < cap then x * factor else cap }

  /** The delay before jitter after `n` further failures. */
  function Grown(base: real, factor: real, cap: real, n: nat): real {
    if n == 0 then base else Raised(Grown(base, factor, cap, n - 1), factor, cap)
  }

  lemma RaisedBounds(x: real, factor: real, cap: real)
    requires x > 0.0 && factor > 1.0 && cap > 0.0
    ensures 0.0 < Raised(x, factor, cap) <= cap
    ensures x <= cap ==> x <= Raised(x, factor, cap)
    ensures x >= cap ==> Raised(x, factor, cap) == cap
  {
    Scaled(x, factor);
    RaisedFrom(x, factor, cap, x * factor);
  }

  lemma RaisedFrom(x: real, factor: real, cap: real, p: real)
    requires x > 0.0 && cap > 0.0 && p == x * factor && p > x
    ensures 0.0 < Raised(x, factor, cap) <= cap
    ensures x <= cap ==> x <= Raised(x, factor, cap)
    ensures x >= cap ==> Raised(x, factor, cap) == cap
  {
  }

  lemma Scaled(x: real, f: real)
    requires x > 0.0 && f > 1.0
    ensures x * f > x
  {
    assert x * f - x == x * (f - 1.0);
  }

  lemma {:induction false} GrownBounds(base: real, factor: real, cap: real, n: nat)
    requires base > 0.0 && factor > 1.0 && cap > 0.0
    ensures 0.0 < Grown(base, factor, cap, n)
    ensures base <= cap ==> base <= Grown(base, factor, cap, n) <= cap
  {
    if n > 0 {
      GrownBounds(base, factor, cap, n - 1);
      RaisedBounds(Grown(base, factor, cap, n - 1), factor, cap);
    }
  }

  /** More failures never shorten the delay before jitter, as long as the initial delay is within the cap. */
  lemma GrownMonotone(base: real, factor: real, cap: real, n: nat)
    requires 0.0 < base <= cap && factor > 1.0
    ensures Grown(base, factor, cap, n) <= Grown(base, factor, cap, n + 1) <= cap
  {
    GrownBounds(base, factor, cap, n);
    RaisedBounds(Grown(base, factor, cap, n), factor, cap);
  }

  lemma {:induction false} GrownStaysAtCap(base: real, factor: real, cap: real, n: nat, m: nat)
    requires base > 0.0 && factor > 1.0 && cap > 0.0 && n <= m && Grown(base, factor, cap, n) == cap
    ensures Grown(base, factor, cap, m) == cap
    decreases m
  {
    if n < m {
      GrownStaysAtCap(base, factor, cap, n, m - 1);
      RaisedBounds(cap, factor, cap);
    }
  }

  /** The loop multiplies until it reaches the cap. */
  method Grow(base: real, factor: real, cap: real, failures: int) returns (value: real)
    requires base > 0.0 && factor > 1.0 && cap > 0.0 && failures > 0
    ensures value == Grown(base, factor, cap, failures - 1)
  {
    value := base;
    var i := 1;
    while i < failures
      invariant 1 <= i <= failures && value == Grown(base, factor, cap, i - 1)
    {
      var next := value * factor;
      assert Raised(value, factor, cap) == (if next < cap then next else cap);
      value := next;
      if value >= cap {
        value := cap;
        GrownStaysAtCap(base, factor, cap, i, failures - 1);
        return;
      }
      i := i + 1;
    }
  }

  /** `computeBackoffDelay`; `unit` is the hash of target and failure count mapped to [0, 1]. */
  method ComputeBackoffDelay(o: Options, failures: int, unit: real) returns (delay: int)
    requires 0.0 <= unit <= 1.0
    ensures failures <= 0 ==> delay == o.initial
    ensures failures > 0 ==> delay <= Cap(o) && (Base(o) <= Cap(o) <==> Base(o) <= delay)
    ensures failures > 0 && Base(o) > Cap(o) ==> delay == Cap(o)
    ensures failures > 0 && Base(o) <= Cap(o) && o.jitterRatio <= 0.0 ==>
      delay == Grown(Base(o) as real, Factor(o), Cap(o) as real, failures - 1).Floor
  {
    if failures <= 0 { return o.initial; }
    var value := Grow(Base(o) as real, Factor(o), Cap(o) as real, failures);
    GrownBounds(Base(o) as real, Factor(o), Cap(o) as real, failures - 1);
    if o.jitterRatio > 0.0 {
      var scale := 1.0 + (unit * 2.0 - 1.0) * o.jitterRatio;
      value := value * scale;
    }
    delay := Bounded(o, value);
  }

  method Bounded(o: Options, x: real) returns (delay: int)
    ensures delay <= Cap(o) && (Base(o) <= Cap(o) ==> Base(o) <= delay) && (Base(o) > Cap(o) ==> delay == Cap(o))
    ensures Base(o) as real <= x <= Cap(o) as real ==> delay == x.Floor
  {
    var value := x;
    if value < Base(o) as real { value := Base(o) as real; }
    if value > Cap(o) as real { value := Cap(o) as real; }
    if value < 0.0 { value := 0.0; }
    delay := value.Floor;
  }

  // ----- the runner -----

  class HealthRunner {
    const options: Options
    var states: map<string, State>

    constructor (options: Options)
      ensures this.options == options && states == map[]
    {
      this.options := options;
      states := map[];
    }

    ghost function Of(target: string): State
      reads this
    {
      if target in states then states[target] else Zero
    }

    method BeforeProbeGovernance(target: string, now: Time) returns (gate: Gate)
      modifies this
      ensures target in states && (states[target], gate) == BeforeProbe(options, old(Of(target)), now)
      ensures states - {target} == old(states) - {target}
    {
      var state := if target in states then states[target] else Zero;
      gate := Allowed(false);
      if options.circuit {
        if state.circuit == Unset { state := state.(circuit := Closed); }
        if state.circuit == Open && state.openUntil != 0 && now >= state.openUntil {
          state := state.(circuit := HalfOpen);
          state := state.(trialSuccess := 0);
          state := state.(inFlight := 0);
          state := state.(halfOpens := state.halfOpens + 1);
        }
        if state.circuit == Open && now < state.openUntil {
          states := states[target := state];
          return CircuitOpen;
        }
        if state.circuit == HalfOpen && options.halfOpenMaxProbe > 0 && state.inFlight >= options.halfOpenMaxProbe {
          states := states[target := state];
          return TrialFull;
        }
      }
      if options.backoff && state.nextProbeAt != 0 && now < state.nextProbeAt {
        states := states[target := state];
        return Throttled;
      }
      if options.circuit && state.circuit == HalfOpen {
        state := state.(inFlight := state.inFlight + 1);
        gate := Allowed(true);
      }
      states := states[target := state];
    }

    method AfterProbeGovernance(target: string, now: Time, status: Status, reserved: bool,
                                unit: real) returns (delay: int)
      requires 0.0 <= unit <= 1.0
      modifies this
      ensures target in states && states - {target} == old(states) - {target}
      ensures states[target] == AfterProbe(options, old(Of(target)), now, status, reserved, delay)
      ensures options.backoff && status == Unavailable && old(Of(target)).backoffFails >= 0 ==>
        delay <= Cap(options) && (Base(options) <= Cap(options) <==> Base(options) <= delay)
    {
      var state := if target in states then states[target] else Zero;
      if options.circuit && state.circuit == Unset { state := state.(circuit := Closed); }
      if reserved && state.inFlight > 0 { state := state.(inFlight := state.inFlight - 1); }
      if options.circuit { state := Moved(state, now, status); }
      state, delay := BackedOff(state, now, status, unit);
      states := states[target := state];
    }

    method BackedOff(s: State, now: Time, status: Status, unit: real) returns (state: State, delay: int)
      requires 0.0 <= unit <= 1.0
      ensures state == AfterBackoff(options, s, now, status, delay)
      ensures options.backoff && status == Unavailable && s.backoffFails >= 0 ==>
        delay <= Cap(options) && (Base(options) <= Cap(options) <==> Base(options) <= delay)
    {
      state, delay := s, 0;
      if options.backoff {
        if status == Unavailable {
          state := state.(backoffFails := state.backoffFails + 1);
          delay := ComputeBackoffDelay(options, state.backoffFails, unit);
          state := state.(nextProbeAt := Later(now, delay));
          state := state.(backoffTotal := state.backoffTotal + 1);
        } else {
          state := state.(backoffFails := 0);
          state := state.(nextProbeAt := 0);
        }
      }
    }

    /** The circuit's reaction to a result. */
    method Moved(s: State, now: Time, status: Status) returns (state: State)
      ensures state == AfterCircuit(options, s, now, status)
    {
      state := s;
      if state.circuit == Open {
        if state.openUntil != 0 && now >= state.openUntil {
          state := state.(circuit := HalfOpen, trialSuccess := 0);
          state := state.(halfOpens := state.halfOpens + 1);
        }
      } else if state.circuit == HalfOpen {
        if status == Healthy {
          state := state.(trialSuccess := state.trialSuccess + 1);
          if state.trialSuccess >= options.successThreshold {
            state := state.(circuit := Closed, fails := 0, trialSuccess := 0, openUntil := 0);
            state := state.(recovers := state.recovers + 1);
          }
        } else if status == Unavailable {
          state := state.(circuit := Open, openUntil := Later(now, options.openDuration), trialSuccess := 0,
                          fails := 0);
          state := state.(opens := state.opens + 1);
        }
      } else if status == Unavailable {
        state := state.(fails := state.fails + 1);
        if state.fails >= options.failureThreshold {
          state := state.(circuit := Open, openUntil := Later(now, options.openDuration), trialSuccess := 0);
          state := state.(opens := state.opens + 1);
        }
      } else {
        state := state.(fails := 0);
      }
    }
  }
}

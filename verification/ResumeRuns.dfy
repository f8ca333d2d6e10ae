/**
 * Every interleaving of resumers, host callbacks, new pauses, cancellations and
 * finishing runs.
 */
module ResumeRuns {

  import opened Common
  import opened ResumeModel

  /** A resumer between its critical sections; `seen` is the generation it showed the host. */
  datatype Resumer =
    | Idle
    | AtHost(d: Decision, stream: bool, seen: nat)
    | Validated(d: Decision, stream: bool, seen: nat)
    | Committing(d: Decision, entry: Entry, control: nat, seen: nat)   // holds the engine's lock
    | Starting(d: Decision, generation: nat)
    | Executing(d: Decision, generation: nat)
    | Over

  /** What an outside observer records, in order. */
  datatype Fact =
    | DecisionAdmitted(d: Decision, generation: nat, control: nat, hostSaw: nat)
    | CancelAccepted(control: nat)
    | ContinuationStarted(d: Decision, generation: nat)
    | ResultReplayed(d: Decision, generation: nat)

  datatype System = System(
    shared: Shared,
    lock: Option<nat>,              // the resumer that holds the engine's dynamic-action lock
    pending: map<nat, nat>,         // pausing goroutines and the generation each has allocated
    resumers: map<nat, Resumer>,
    log: seq<Fact>)

  datatype Step =
    | Begin(runID: string, sessionID: string)
    | PauseAllocate(p: nat)
    | PausePublish(p: nat, version: string, runID: string, sessionID: string, digest: string, token: string,
                   now: Time, stream: bool)
    | PauseMark(c: nat)
    | CloseControl(c: nat)
    | UnregisterControl(c: nat)
    | ContextDone(c: nat)
    | Cancel(c: nat)
    | FirstCheck(r: nat, d: Decision, stream: bool, now: Time)
    | HostReturns(r: nat, ok: bool)
    | SecondCheck(r: nat, now: Time)
    | Admit(r: nat, ctxErr: bool)
    | Start(r: nat)
    | Finish(r: nat, result: string, state: RunState)

  function ResumerOf(s: System, r: nat): Resumer { if r in s.resumers then s.resumers[r] else Idle }

  function SetResumer(s: System, r: nat, x: Resumer): System { s.(resumers := s.resumers[r := x]) }

  predicate Free(s: System) { s.lock.None? }

  /** Steps of runs and controls, which need neither the engine's lock nor a resumer. */
  function ControlIn(sh: Shared, step: Step): Shared {
    match step
    case Begin(runID, sessionID) => BeginRun(sh, runID, sessionID).0
    case PauseMark(c) => if c < |sh.controls| then SetControl(sh, c, sh.controls[c].(state := InputRequired)) else sh
    case CloseControl(c) => if c < |sh.controls| then SetControl(sh, c, sh.controls[c].(closed := true)) else sh
    case UnregisterControl(c) => if c < |sh.controls| then Unregister(sh, c) else sh
    case ContextDone(c) => if c < |sh.controls| then SetControl(sh, c, sh.controls[c].(ctxDone := true)) else sh
    case _ => sh
  }

  function PauseIn(s: System, step: Step): System {
    match step
    case PauseAllocate(p) =>
      if Free(s) && p !in s.pending then
        s.(shared := Allocate(s.shared), pending := s.pending[p := s.shared.generation + 1]) else s
    case PausePublish(p, version, runID, sessionID, digest, token, now, stream) =>
      if Free(s) && p in s.pending then
        s.(shared := Publish(s.shared, PauseEntry(s.pending[p], version, runID, sessionID, digest, token, now, stream)),
           pending := s.pending - {p})
      else s
    case _ => s
  }

  function CancelIn(s: System, c: nat): System {
    if c < |s.shared.controls| then
      var (sh', answer) := CancelUnderLock(s.shared, c);
      s.(shared := sh', log := if answer.Accepted? then s.log + [CancelAccepted(c)] else s.log)
    else s
  }

  /** A resumer that stops; when it found its own decision completed, it replays the result. */
  function StopIn(s: System, r: nat, d: Decision, check: Check): System {
    SetResumer(s, r, Over).(log := if check.Replay? then s.log + [ResultReplayed(d, check.entry.generation)] else s.log)
  }

  function FirstCheckIn(s: System, r: nat, d: Decision, stream: bool, now: Time): System {
    if Free(s) && ResumerOf(s, r).Idle? then
      var check := Preflight(s.shared, d, stream, now);
      if check.Fresh? then SetResumer(s, r, AtHost(d, stream, check.entry.generation)) else StopIn(s, r, d, check)
    else s
  }

  function HostIn(s: System, r: nat, ok: bool): System {
    if ResumerOf(s, r).AtHost? then
      var x := ResumerOf(s, r);
      SetResumer(s, r, if ok then Validated(x.d, x.stream, x.seen) else Over)
    else s
  }

  function SecondCheckIn(s: System, r: nat, now: Time): System {
    if Free(s) && ResumerOf(s, r).Validated? then
      var x := ResumerOf(s, r);
      match CheckAgain(s.shared, x.d, x.stream, now, x.seen)
      case Proceed(e, c) => SetResumer(s, r, Committing(x.d, e, c, x.seen)).(lock := Some(r))
      case Stop(check) => StopIn(s, r, x.d, check)
    else s
  }

  function StartIn(s: System, r: nat): System {
    if ResumerOf(s, r).Starting? then
      var x := ResumerOf(s, r);
      SetResumer(s, r, Executing(x.d, x.generation)).(log := s.log + [ContinuationStarted(x.d, x.generation)])
    else s
  }

  function FinishIn(s: System, r: nat, result: string, state: RunState): System {
    if Free(s) && ResumerOf(s, r).Executing? then
      var x := ResumerOf(s, r);
      SetResumer(s, r, Over).(shared := Complete(s.shared, x.d.runID, x.generation, result, state))
    else s
  }

  function Next(s: System, step: Step): System {
    match step
    case PauseAllocate(_) => PauseIn(s, step)
    case PausePublish(_, _, _, _, _, _, _, _) => PauseIn(s, step)
    case Cancel(c) => CancelIn(s, c)
    case FirstCheck(r, d, stream, now) => FirstCheckIn(s, r, d, stream, now)
    case HostReturns(r, ok) => HostIn(s, r, ok)
    case SecondCheck(r, now) => SecondCheckIn(s, r, now)
    case Admit(r, ctxErr) => AdmitIn(s, r, ctxErr)
    case Start(r) => StartIn(s, r)
    case Finish(r, result, state) => FinishIn(s, r, result, state)
    case _ => s.(shared := ControlIn(s.shared, step))
  }

  function AdmitIn(s: System, r: nat, ctxErr: bool): System {
    if ResumerOf(s, r).Committing? && ResumerOf(s, r).control < |s.shared.controls| then
      var x := ResumerOf(s, r);
      var (sh', refusal) := Commit(s.shared, x.entry, x.d, x.control, ctxErr);
      if refusal.Some? then SetResumer(s, r, Over).(lock := None)
      else
        SetResumer(s, r, if x.d.kind == Confirm then Starting(x.d, x.entry.generation) else Over)
          .(lock := None, shared := sh', log := s.log + [DecisionAdmitted(x.d, x.entry.generation, x.control, x.seen)])
    else s
  }

  ghost predicate StepAt(ss: seq<System>, steps: seq<Step>, i: nat)
    requires i < |steps| && |ss| == |steps| + 1
  {
    ss[i + 1] == Next(ss[i], steps[i])
  }

  ghost predicate IsRun(ss: seq<System>, steps: seq<Step>, limit: nat) {
    |ss| == |steps| + 1 && ss[0] == System(Shared(map[], 0, [], map[], limit), None, map[], map[], []) &&
    forall i :: 0 <= i < |steps| ==> StepAt(ss, steps, i)
  }

  // ----- the invariant -----

  predicate IsAdmitted(log: seq<Fact>, g: nat) {
    exists i :: 0 <= i < |log| && log[i].DecisionAdmitted? && log[i].generation == g
  }

  predicate IsStarted(log: seq<Fact>, g: nat) {
    exists i :: 0 <= i < |log| && log[i].ContinuationStarted? && log[i].generation == g
  }

  /** Generations identify pauses: no two stored or pending pauses share one. */
  ghost predicate GenerationsOk(checkpoints: map<string, Entry>, counter: nat, pending: map<nat, nat>) {
    (forall a :: a in checkpoints ==> checkpoints[a].generation <= counter && checkpoints[a].checkpoint.runID == a) &&
    (forall a :: a in checkpoints ==> checkpoints[a].checkpoint.id == checkpoints[a].generation) &&
    (forall p :: p in pending ==> pending[p] <= counter) &&
    (forall a, b :: a in checkpoints && b in checkpoints && checkpoints[a].generation == checkpoints[b].generation ==>
       a == b) &&
    (forall p, q :: p in pending && q in pending && pending[p] == pending[q] ==> p == q) &&
    (forall a, p :: a in checkpoints && p in pending ==> checkpoints[a].generation != pending[p])
  }

  /** An admitted generation is used up: it is not pending, and its entry, if still stored, is resumed. */
  ghost predicate UsedUp(checkpoints: map<string, Entry>, counter: nat, pending: map<nat, nat>, log: seq<Fact>) {
    forall g: nat :: IsAdmitted(log, g) ==>
      g <= counter && (forall p :: p in pending ==> pending[p] != g) &&
      (forall a :: a in checkpoints && checkpoints[a].generation == g ==> checkpoints[a].resumed)
  }

  /** Only the holder of the lock is committing, and what it read is still what is stored. */
  ghost predicate LockOk(s: System) {
    forall r :: r in s.resumers && s.resumers[r].Committing? ==>
      var x := s.resumers[r];
      s.lock == Some(r) && x.d.runID in s.shared.checkpoints && s.shared.checkpoints[x.d.runID] == x.entry &&
      !x.entry.resumed && x.entry.generation == x.seen == x.d.checkpointID && x.control < |s.shared.controls|
  }

  /**
   * Every admission was for the generation shown to the host and named by the
   * decision, and no two share a generation.
   */
  ghost predicate AdmissionsOk(log: seq<Fact>) {
    (forall i :: 0 <= i < |log| && log[i].DecisionAdmitted? ==>
       log[i].generation == log[i].hostSaw == log[i].d.checkpointID) &&
    (forall i, j :: 0 <= i < j < |log| && log[i].DecisionAdmitted? && log[j].DecisionAdmitted? ==>
       log[i].generation != log[j].generation)
  }

  ghost predicate CancelsOk(controls: seq<Control>, log: seq<Fact>) {
    (forall i :: 0 <= i < |log| && log[i].CancelAccepted? ==>
       log[i].control < |controls| && controls[log[i].control].cancelAdmitted) &&
    (forall i, j :: 0 <= i < j < |log| && log[i].CancelAccepted? && log[j].DecisionAdmitted? ==>
       log[i].control != log[j].control)
  }

  /** A continuation is started by the one resumer that was admitted for its generation. */
  ghost predicate StartsOk(resumers: map<nat, Resumer>, log: seq<Fact>) {
    (forall r :: r in resumers && resumers[r].Starting? ==>
       IsAdmitted(log, resumers[r].generation) && !IsStarted(log, resumers[r].generation)) &&
    (forall r, q ::
       (r in resumers && q in resumers && resumers[r].Starting? && resumers[q].Starting? &&
        resumers[r].generation == resumers[q].generation) ==> r == q) &&
    (forall i :: 0 <= i < |log| && log[i].ContinuationStarted? ==> IsAdmitted(log, log[i].generation)) &&
    (forall i, j :: 0 <= i < j < |log| && log[i].ContinuationStarted? && log[j].ContinuationStarted? ==>
       log[i].generation != log[j].generation)
  }

  /** Decision `d` was admitted for generation `g`. */
  predicate IsAdmittedFor(log: seq<Fact>, d: Decision, g: nat) {
    exists i :: 0 <= i < |log| && log[i].DecisionAdmitted? && log[i].d == d && log[i].generation == g
  }

  /** What is stored as resumed, replayed or started goes back to an admission of that very decision. */
  ghost predicate OriginsOk(checkpoints: map<string, Entry>, resumers: map<nat, Resumer>, log: seq<Fact>) {
    (forall a :: a in checkpoints && checkpoints[a].resumed ==>
       checkpoints[a].decision.Some? && IsAdmittedFor(log, checkpoints[a].decision.value, checkpoints[a].generation)) &&
    (forall r :: r in resumers && resumers[r].Starting? ==>
       resumers[r].d.kind == Confirm && IsAdmittedFor(log, resumers[r].d, resumers[r].generation)) &&
    (forall i :: 0 <= i < |log| && log[i].ResultReplayed? ==> IsAdmittedFor(log, log[i].d, log[i].generation)) &&
    (forall i :: 0 <= i < |log| && log[i].ContinuationStarted? ==>
       log[i].d.kind == Confirm && IsAdmittedFor(log, log[i].d, log[i].generation))
  }

  ghost predicate ControlsOk(sh: Shared) {
    forall r :: r in sh.activeRuns ==> sh.activeRuns[r] < |sh.controls|
  }

  ghost predicate Inv(s: System) {
    GenerationsOk(s.shared.checkpoints, s.shared.generation, s.pending) &&
    UsedUp(s.shared.checkpoints, s.shared.generation, s.pending, s.log) &&
    LockOk(s) && AdmissionsOk(s.log) && CancelsOk(s.shared.controls, s.log) && StartsOk(s.resumers, s.log) &&
    ControlsOk(s.shared) && OriginsOk(s.shared.checkpoints, s.resumers, s.log)
  }

  // ----- every step keeps it -----

  /** Controls may be added, and their flags only ever rise. */
  predicate ControlsGrow(a: seq<Control>, b: seq<Control>) {
    |a| <= |b| && forall c :: 0 <= c < |a| && a[c].cancelAdmitted ==> b[c].cancelAdmitted
  }

  lemma ControlStep(s: System, sh: Shared)
    requires Inv(s) && ControlsOk(sh) && ControlsGrow(s.shared.controls, sh.controls)
    requires sh.checkpoints == s.shared.checkpoints && sh.generation == s.shared.generation
    ensures Inv(s.(shared := sh))
  {
  }

  lemma AdmittedSnoc(log: seq<Fact>, f: Fact, g: nat)
    ensures IsAdmitted(log + [f], g) <==> IsAdmitted(log, g) || (f.DecisionAdmitted? && f.generation == g)
    ensures IsStarted(log + [f], g) <==> IsStarted(log, g) || (f.ContinuationStarted? && f.generation == g)
  {
    var l := log + [f];
    assert l[|log|] == f;
    if IsAdmitted(log, g) {
      var i :| 0 <= i < |log| && log[i].DecisionAdmitted? && log[i].generation == g;
      assert l[i] == log[i];
    }
    if IsStarted(log, g) {
      var i :| 0 <= i < |log| && log[i].ContinuationStarted? && log[i].generation == g;
      assert l[i] == log[i];
    }
    if IsAdmitted(l, g) {
      var i :| 0 <= i < |l| && l[i].DecisionAdmitted? && l[i].generation == g;
      assert i < |log| ==> log[i] == l[i];
    }
    if IsStarted(l, g) {
      var i :| 0 <= i < |l| && l[i].ContinuationStarted? && l[i].generation == g;
      assert i < |log| ==> log[i] == l[i];
    }
  }

  lemma AdmittedForSnoc(log: seq<Fact>, f: Fact, d: Decision, g: nat)
    ensures IsAdmittedFor(log + [f], d, g) <==>
      IsAdmittedFor(log, d, g) || (f.DecisionAdmitted? && f.d == d && f.generation == g)
  {
    var l := log + [f];
    assert l[|log|] == f;
    if IsAdmittedFor(log, d, g) {
      var i :| 0 <= i < |log| && log[i].DecisionAdmitted? && log[i].d == d && log[i].generation == g;
      assert l[i] == log[i];
    }
  }

  /** Logging a fact keeps every origin, provided the fact itself has one. */
  lemma OriginsGrow(checkpoints: map<string, Entry>, resumers: map<nat, Resumer>, log: seq<Fact>, f: Fact)
    requires OriginsOk(checkpoints, resumers, log)
    requires f.ResultReplayed? || f.ContinuationStarted? ==> IsAdmittedFor(log, f.d, f.generation)
    requires f.ContinuationStarted? ==> f.d.kind == Confirm
    ensures OriginsOk(checkpoints, resumers, log + [f])
  {
    forall d: Decision, g: nat | IsAdmittedFor(log, d, g) ensures IsAdmittedFor(log + [f], d, g) {
      AdmittedForSnoc(log, f, d, g);
    }
  }

  /** A logged fact that is neither an admission nor a start leaves everything about those as it was. */
  lemma QuietLog(cps: map<string, Entry>, counter: nat, pending: map<nat, nat>, resumers: map<nat, Resumer>,
                 log: seq<Fact>, f: Fact)
    requires UsedUp(cps, counter, pending, log) && AdmissionsOk(log) && StartsOk(resumers, log)
    requires !f.DecisionAdmitted? && !f.ContinuationStarted?
    ensures UsedUp(cps, counter, pending, log + [f]) && AdmissionsOk(log + [f]) && StartsOk(resumers, log + [f])
  {
    forall g: nat ensures IsAdmitted(log + [f], g) <==> IsAdmitted(log, g)
                  ensures IsStarted(log + [f], g) <==> IsStarted(log, g) {
      AdmittedSnoc(log, f, g);
    }
  }

  lemma QuietCancels(controls: seq<Control>, log: seq<Fact>, f: Fact)
    requires CancelsOk(controls, log) && !f.DecisionAdmitted?
    requires f.CancelAccepted? ==> f.control < |controls| && controls[f.control].cancelAdmitted
    ensures CancelsOk(controls, log + [f])
  {
  }

  lemma LogStep(s: System, f: Fact)
    requires Inv(s) && !f.DecisionAdmitted? && !f.ContinuationStarted?
    requires f.CancelAccepted? ==> f.control < |s.shared.controls| && s.shared.controls[f.control].cancelAdmitted
    requires f.ResultReplayed? ==> IsAdmittedFor(s.log, f.d, f.generation)
    ensures Inv(s.(log := s.log + [f]))
  {
    QuietLog(s.shared.checkpoints, s.shared.generation, s.pending, s.resumers, s.log, f);
    QuietCancels(s.shared.controls, s.log, f);
    OriginsGrow(s.shared.checkpoints, s.resumers, s.log, f);
  }

  lemma CancelStep(s: System, c: nat)
    requires Inv(s) && c < |s.shared.controls| && CancelUnderLock(s.shared, c).1.Accepted?
    ensures Inv(s.(shared := CancelUnderLock(s.shared, c).0, log := s.log + [CancelAccepted(c)]))
  {
    var t := s.(shared := CancelUnderLock(s.shared, c).0);
    ControlStep(s, t.shared);
    LogStep(t, CancelAccepted(c));
  }

  /** A resumer moves to a phase in which it neither holds the lock nor may start a continuation. */
  lemma QuietResumer(s: System, r: nat, x: Resumer)
    requires Inv(s) && !x.Committing? && !x.Starting?
    ensures Inv(SetResumer(s, r, x))
    ensures s.lock == Some(r) ==> Inv(SetResumer(s, r, x).(lock := None))
  {
  }

  lemma AllocateStep(s: System, p: nat)
    requires Inv(s) && p !in s.pending
    ensures Inv(s.(shared := Allocate(s.shared), pending := s.pending[p := s.shared.generation + 1]))
  {
  }

  lemma PublishStep(s: System, p: nat, e: Entry)
    requires Inv(s) && Free(s) && p in s.pending && e.generation == s.pending[p] == e.checkpoint.id && !e.resumed
    ensures Inv(s.(shared := Publish(s.shared, e), pending := s.pending - {p}))
  {
  }

  lemma QuietParts(cps: map<string, Entry>, resumers: map<nat, Resumer>, log: seq<Fact>, r: nat, x: Resumer)
    requires StartsOk(resumers, log) && OriginsOk(cps, resumers, log) && !x.Starting?
    ensures StartsOk(resumers[r := x], log) && OriginsOk(cps, resumers[r := x], log)
  {
  }

  lemma LockStep(s: System, r: nat, d: Decision, stream: bool, now: Time, seen: nat)
    requires Inv(s) && Free(s) && CheckAgain(s.shared, d, stream, now, seen).Proceed?
    ensures var again := CheckAgain(s.shared, d, stream, now, seen);
      Inv(SetResumer(s, r, Committing(d, again.entry, again.control, seen)).(lock := Some(r)))
  {
    var again := CheckAgain(s.shared, d, stream, now, seen);
    QuietParts(s.shared.checkpoints, s.resumers, s.log, r, Committing(d, again.entry, again.control, seen));
  }

  /** Rewriting an entry without touching its admission guard. */
  lemma SameGuard(cps: map<string, Entry>, counter: nat, pending: map<nat, nat>, resumers: map<nat, Resumer>,
                  log: seq<Fact>, runID: string, e: Entry)
    requires GenerationsOk(cps, counter, pending) && UsedUp(cps, counter, pending, log) && OriginsOk(cps, resumers, log)
    requires runID in cps && e.generation == cps[runID].generation && e.resumed == cps[runID].resumed
    requires e.decision == cps[runID].decision && e.checkpoint.runID == runID && e.checkpoint.id == e.generation
    ensures GenerationsOk(cps[runID := e], counter, pending) && UsedUp(cps[runID := e], counter, pending, log)
    ensures OriginsOk(cps[runID := e], resumers, log)
  {
    SameGenerations(cps, counter, pending, runID, e);
  }

  lemma SameGenerations(cps: map<string, Entry>, counter: nat, pending: map<nat, nat>, runID: string, e: Entry)
    requires GenerationsOk(cps, counter, pending) && runID in cps && e.generation == cps[runID].generation
    requires e.checkpoint.runID == runID && e.checkpoint.id == e.generation
    ensures GenerationsOk(cps[runID := e], counter, pending)
  {
  }

  lemma CompleteStep(s: System, runID: string, g: nat, result: string, state: RunState)
    requires Inv(s) && Free(s)
    ensures Inv(s.(shared := Complete(s.shared, runID, g, result, state)))
  {
    var t := Complete(s.shared, runID, g, result, state);
    if t != s.shared {
      SameGuard(s.shared.checkpoints, s.shared.generation, s.pending, s.resumers, s.log, runID, t.checkpoints[runID]);
    }
  }

  lemma StartStep(s: System, r: nat)
    requires Inv(s) && ResumerOf(s, r).Starting?
    ensures Inv(StartIn(s, r))
  {
    var x := ResumerOf(s, r);
    var f := ContinuationStarted(x.d, x.generation);
    forall g: nat ensures IsAdmitted(s.log + [f], g) <==> IsAdmitted(s.log, g)
                  ensures IsStarted(s.log + [f], g) <==> IsStarted(s.log, g) || g == x.generation {
      AdmittedSnoc(s.log, f, g);
    }
    OriginsGrow(s.shared.checkpoints, s.resumers, s.log, f);
    StartsOnce(s.resumers, s.log, r);
  }

  lemma StartsOnce(resumers: map<nat, Resumer>, log: seq<Fact>, r: nat)
    requires StartsOk(resumers, log) && r in resumers && resumers[r].Starting?
    ensures var x := resumers[r];
      StartsOk(resumers[r := Executing(x.d, x.generation)], log + [ContinuationStarted(x.d, x.generation)])
  {
    var f := ContinuationStarted(resumers[r].d, resumers[r].generation);
    forall g: nat ensures IsAdmitted(log + [f], g) <==> IsAdmitted(log, g)
                  ensures IsStarted(log + [f], g) <==> IsStarted(log, g) || g == f.generation {
      AdmittedSnoc(log, f, g);
    }
  }

  lemma NotYetAdmitted(s: System, r: nat)
    requires Inv(s) && ResumerOf(s, r).Committing?
    ensures var g := ResumerOf(s, r).entry.generation; !IsAdmitted(s.log, g) && !IsStarted(s.log, g)
  {
  }

  lemma AdmitLog(s: System, log: seq<Fact>, f: Fact)
    requires Inv(s) && f.DecisionAdmitted? && f.generation == f.hostSaw == f.d.checkpointID && log == s.log + [f]
    requires !IsAdmitted(s.log, f.generation)
    requires f.control < |s.shared.controls| && !s.shared.controls[f.control].cancelAdmitted
    ensures AdmissionsOk(log) && CancelsOk(s.shared.controls, log)
  {
  }

  lemma AdmitStarts(s: System, r: nat, x: Resumer, f: Fact)
    requires Inv(s) && f.DecisionAdmitted? && !IsAdmitted(s.log, f.generation) && !IsStarted(s.log, f.generation)
    requires x.Over? || (x.Starting? && x.generation == f.generation)
    ensures StartsOk(s.resumers[r := x], s.log + [f])
  {
    forall g: nat ensures IsAdmitted(s.log + [f], g) <==> IsAdmitted(s.log, g) || g == f.generation
                  ensures IsStarted(s.log + [f], g) <==> IsStarted(s.log, g) {
      AdmittedSnoc(s.log, f, g);
    }
  }

  lemma AdmitGenerations(s: System, e: Entry, d: Decision)
    requires Inv(s) && d.runID in s.shared.checkpoints && s.shared.checkpoints[d.runID] == e
    ensures GenerationsOk(s.shared.checkpoints[d.runID := Admitted(e, d)], s.shared.generation, s.pending)
  {
  }

  lemma AdmitUses(s: System, e: Entry, d: Decision, f: Fact)
    requires Inv(s) && f.DecisionAdmitted? && f.generation == e.generation
    requires d.runID in s.shared.checkpoints && s.shared.checkpoints[d.runID] == e
    ensures UsedUp(s.shared.checkpoints[d.runID := Admitted(e, d)], s.shared.generation, s.pending, s.log + [f])
  {
    forall g: nat ensures IsAdmitted(s.log + [f], g) <==> IsAdmitted(s.log, g) || g == e.generation {
      AdmittedSnoc(s.log, f, g);
    }
  }

  lemma AdmitOrigins(s: System, r: nat, x: Resumer, e: Entry, f: Fact)
    requires Inv(s) && f.DecisionAdmitted? && f.generation == e.generation && e.resumed && e.decision == Some(f.d)
    requires x.Over? || (x.Starting? && x.generation == f.generation && x.d == f.d && f.d.kind == Confirm)
    ensures OriginsOk(s.shared.checkpoints[f.d.runID := e], s.resumers[r := x], s.log + [f])
  {
    OriginsGrow(s.shared.checkpoints, s.resumers, s.log, f);
    AdmittedForSnoc(s.log, f, f.d, f.generation);
  }

  lemma AdmitLock(s: System, r: nat, x: Resumer, sh: Shared)
    requires LockOk(s) && ResumerOf(s, r).Committing? && !x.Committing?
    ensures LockOk(s.(resumers := s.resumers[r := x], lock := None, shared := sh))
  {
  }

  lemma GrantStep(s: System, r: nat)
    requires Inv(s) && ResumerOf(s, r).Committing?
    requires Commit(s.shared, ResumerOf(s, r).entry, ResumerOf(s, r).d, ResumerOf(s, r).control, false).1.None?
    ensures Inv(AdmitIn(s, r, false))
  {
    var x := ResumerOf(s, r);
    var sh := Commit(s.shared, x.entry, x.d, x.control, false).0;
    var f := DecisionAdmitted(x.d, x.entry.generation, x.control, x.seen);
    var after := if x.d.kind == Confirm then Starting(x.d, x.entry.generation) else Over;
    NotYetAdmitted(s, r);
    AdmitLog(s, s.log + [f], f);
    AdmitStarts(s, r, after, f);
    AdmitGenerations(s, x.entry, x.d);
    AdmitUses(s, x.entry, x.d, f);
    AdmitOrigins(s, r, after, Admitted(x.entry, x.d), f);
    AdmitLock(s, r, after, sh);
    StateOnly(s.shared.controls, sh.controls, s.log + [f]);
  }

  lemma StateOnly(a: seq<Control>, b: seq<Control>, log: seq<Fact>)
    requires CancelsOk(a, log) && ControlsGrow(a, b)
    ensures CancelsOk(b, log)
  {
  }

  lemma AdmitStep(s: System, r: nat, ctxErr: bool)
    requires Inv(s) && ResumerOf(s, r).Committing?
    ensures Inv(AdmitIn(s, r, ctxErr))
  {
    var x := ResumerOf(s, r);
    if Commit(s.shared, x.entry, x.d, x.control, ctxErr).1.None? {
      GrantStep(s, r);
    } else {
      QuietResumer(s, r, Over);
    }
  }

  lemma ReplayedWasAdmitted(s: System, d: Decision, stream: bool, now: Time)
    requires Inv(s) && Preflight(s.shared, d, stream, now).Replay?
    ensures IsAdmittedFor(s.log, d, Preflight(s.shared, d, stream, now).entry.generation)
  {
  }

  lemma StopStep(s: System, r: nat, d: Decision, check: Check)
    requires Inv(s) && (check.Replay? ==> IsAdmittedFor(s.log, d, check.entry.generation))
    ensures Inv(StopIn(s, r, d, check))
  {
    QuietResumer(s, r, Over);
    if check.Replay? { LogStep(SetResumer(s, r, Over), ResultReplayed(d, check.entry.generation)); }
  }

  lemma FirstCheckStep(s: System, r: nat, d: Decision, stream: bool, now: Time)
    requires Inv(s)
    ensures Inv(FirstCheckIn(s, r, d, stream, now))
  {
    var check := Preflight(s.shared, d, stream, now);
    if check.Fresh? {
      QuietResumer(s, r, AtHost(d, stream, check.entry.generation));
    } else {
      if check.Replay? { ReplayedWasAdmitted(s, d, stream, now); }
      StopStep(s, r, d, check);
    }
  }

  lemma SecondCheckStep(s: System, r: nat, now: Time)
    requires Inv(s) && Free(s) && ResumerOf(s, r).Validated?
    ensures Inv(SecondCheckIn(s, r, now))
  {
    var x := ResumerOf(s, r);
    var again := CheckAgain(s.shared, x.d, x.stream, now, x.seen);
    if again.Proceed? {
      LockStep(s, r, x.d, x.stream, now, x.seen);
    } else {
      if again.check.Replay? { ReplayedWasAdmitted(s, x.d, x.stream, now); }
      StopStep(s, r, x.d, again.check);
    }
  }

  lemma HostStep(s: System, r: nat, ok: bool)
    requires Inv(s)
    ensures Inv(Next(s, HostReturns(r, ok)))
  {
    if ResumerOf(s, r).AtHost? {
      var x := ResumerOf(s, r);
      QuietResumer(s, r, if ok then Validated(x.d, x.stream, x.seen) else Over);
    }
  }

  lemma FinishStep(s: System, r: nat, result: string, state: RunState)
    requires Inv(s)
    ensures Inv(Next(s, Finish(r, result, state)))
  {
    if Free(s) && ResumerOf(s, r).Executing? {
      var x := ResumerOf(s, r);
      QuietResumer(s, r, Over);
      CompleteStep(SetResumer(s, r, Over), x.d.runID, x.generation, result, state);
    }
  }

  lemma PauseStep(s: System, step: Step)
    requires Inv(s)
    ensures Inv(PauseIn(s, step))
  {
    if step.PauseAllocate? && Free(s) && step.p !in s.pending { AllocateStep(s, step.p); }
    if step.PausePublish? && Free(s) && step.p in s.pending {
      PublishStep(s, step.p, PauseEntry(s.pending[step.p], step.version, step.runID, step.sessionID, step.digest,
                                        step.token, step.now, step.stream));
    }
  }

  lemma ControlKeeps(sh: Shared, step: Step)
    requires ControlsOk(sh)
    ensures var t := ControlIn(sh, step);
      ControlsOk(t) && ControlsGrow(sh.controls, t.controls) && t.checkpoints == sh.checkpoints &&
      t.generation == sh.generation
  {
  }

  lemma FirstCheckKeeps(s: System, r: nat, d: Decision, stream: bool, now: Time)
    requires Inv(s)
    ensures Inv(Next(s, FirstCheck(r, d, stream, now)))
  {
    FirstCheckStep(s, r, d, stream, now);
  }

  lemma SecondCheckKeeps(s: System, r: nat, now: Time)
    requires Inv(s)
    ensures Inv(Next(s, SecondCheck(r, now)))
  {
    if Free(s) && ResumerOf(s, r).Validated? { SecondCheckStep(s, r, now); }
  }

  lemma AdmitKeeps(s: System, r: nat, ctxErr: bool)
    requires Inv(s)
    ensures Inv(Next(s, Admit(r, ctxErr)))
  {
    if ResumerOf(s, r).Committing? { AdmitStep(s, r, ctxErr); }
  }

  lemma StartKeeps(s: System, r: nat)
    requires Inv(s)
    ensures Inv(Next(s, Start(r)))
  {
    if ResumerOf(s, r).Starting? { StartStep(s, r); }
  }

  lemma CancelKeeps(s: System, c: nat)
    requires Inv(s)
    ensures Inv(Next(s, Cancel(c)))
  {
    if c < |s.shared.controls| && CancelUnderLock(s.shared, c).1.Accepted? { CancelStep(s, c); }
  }

  lemma ControlSteps(s: System, step: Step)
    requires Inv(s)
    requires (step.Begin? || step.PauseMark? || step.CloseControl? || step.UnregisterControl? || step.ContextDone?)
    ensures Inv(Next(s, step))
  {
    ControlKeeps(s.shared, step);
    ControlStep(s, ControlIn(s.shared, step));
  }

  lemma PauseSteps(s: System, step: Step)
    requires Inv(s) && (step.PauseAllocate? || step.PausePublish?)
    ensures Inv(Next(s, step))
  {
    PauseStep(s, step);
  }

  /** Every step of every goroutine keeps the invariant. */
  lemma StepKeepsInv(s: System, step: Step)
    requires Inv(s)
    ensures Inv(Next(s, step))
  {
    match step
    case PauseAllocate(_) => PauseSteps(s, step);
    case PausePublish(_, _, _, _, _, _, _, _) => PauseSteps(s, step);
    case Cancel(c) => CancelKeeps(s, c);
    case FirstCheck(r, d, stream, now) => FirstCheckKeeps(s, r, d, stream, now);
    case HostReturns(r, ok) => HostStep(s, r, ok);
    case SecondCheck(r, now) => SecondCheckKeeps(s, r, now);
    case Admit(r, ctxErr) => AdmitKeeps(s, r, ctxErr);
    case Start(r) => StartKeeps(s, r);
    case Finish(r, result, state) => FinishStep(s, r, result, state);
    case _ => ControlSteps(s, step);
  }

  lemma NodeKeepsInv(ss: seq<System>, steps: seq<Step>, limit: nat, i: nat)
    requires IsRun(ss, steps, limit) && i < |steps| && Inv(ss[i])
    ensures Inv(ss[i + 1])
  {
    assert StepAt(ss, steps, i);
    StepKeepsInv(ss[i], steps[i]);
  }

  lemma {:induction false} RunInv(ss: seq<System>, steps: seq<Step>, limit: nat, i: nat)
    requires IsRun(ss, steps, limit) && i < |ss|
    ensures Inv(ss[i])
  {
    if i > 0 {
      RunInv(ss, steps, limit, i - 1);
      NodeKeepsInv(ss, steps, limit, i - 1);
    }
  }

  // ----- theorems -----

  /**
   * A generation names one pause: no two stored or pending pauses ever share one,
   * and a new one is above all of them.
   */
  lemma GenerationsNamePauses(ss: seq<System>, steps: seq<Step>, limit: nat, n: nat)
    requires IsRun(ss, steps, limit) && n < |ss|
    ensures GenerationsOk(ss[n].shared.checkpoints, ss[n].shared.generation, ss[n].pending)
    ensures forall a :: a in ss[n].shared.checkpoints ==>
      ss[n].shared.checkpoints[a].generation < Allocate(ss[n].shared).generation
    ensures forall p :: p in ss[n].pending ==> ss[n].pending[p] < Allocate(ss[n].shared).generation
  {
    RunInv(ss, steps, limit, n);
  }

  /**
   * Every decision is admitted for the pause it names, which is the one the host
   * revalidated; no two for the same pause.
   */
  lemma OneDecisionPerGeneration(ss: seq<System>, steps: seq<Step>, limit: nat, n: nat, i: nat, j: nat)
    requires IsRun(ss, steps, limit) && n < |ss| && i < |ss[n].log| && ss[n].log[i].DecisionAdmitted?
    ensures ss[n].log[i].generation == ss[n].log[i].hostSaw == ss[n].log[i].d.checkpointID
    ensures i < j < |ss[n].log| && ss[n].log[j].DecisionAdmitted? ==> ss[n].log[i].generation != ss[n].log[j].generation
  {
    RunInv(ss, steps, limit, n);
  }

  /** Once a cancellation is accepted on a control, no decision is admitted on it any more. */
  lemma NoAdmissionAfterCancel(ss: seq<System>, steps: seq<Step>, limit: nat, n: nat, i: nat, j: nat)
    requires IsRun(ss, steps, limit) && n < |ss| && i < j < |ss[n].log|
    requires ss[n].log[i].CancelAccepted? && ss[n].log[j].DecisionAdmitted?
    ensures ss[n].log[i].control != ss[n].log[j].control
  {
    RunInv(ss, steps, limit, n);
  }

  /** Each pause is continued at most once, and only for the confirmed decision that was admitted for it. */
  lemma ContinuesAtMostOnce(ss: seq<System>, steps: seq<Step>, limit: nat, n: nat, i: nat, j: nat)
    requires IsRun(ss, steps, limit) && n < |ss| && i < |ss[n].log| && ss[n].log[i].ContinuationStarted?
    ensures ss[n].log[i].d.kind == Confirm && IsAdmittedFor(ss[n].log, ss[n].log[i].d, ss[n].log[i].generation)
    ensures i < j < |ss[n].log| && ss[n].log[j].ContinuationStarted? ==>
      ss[n].log[i].generation != ss[n].log[j].generation
  {
    RunInv(ss, steps, limit, n);
  }

  /** A duplicate is answered from an earlier admission of the identical decision. */
  lemma ReplaysComeFromAdmissions(ss: seq<System>, steps: seq<Step>, limit: nat, n: nat, i: nat)
    requires IsRun(ss, steps, limit) && n < |ss| && i < |ss[n].log| && ss[n].log[i].ResultReplayed?
    ensures IsAdmittedFor(ss[n].log, ss[n].log[i].d, ss[n].log[i].generation)
  {
    RunInv(ss, steps, limit, n);
  }
}

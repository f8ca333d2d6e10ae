/**
 * Dynamic-action pauses and their same-run resume: check under the engine's
 * lock, call the host without locks, check again and commit one decision under
 * the engine's and the control's lock. Each critical section is one function
 * on the shared state.
 */
module ResumeModel {

  import opened Common

  type Time = nat

  const Day: nat := 86_400_000_000_000

  datatype RunState = Working | InputRequired | Canceled | Completed | Failed

  datatype DecisionKind = Confirm | Deny | Timeout

  /** Checkpoint ids are the exact code of the generation they were created with. */
  datatype Decision = Decision(
    kind: DecisionKind, token: string, runID: string, sessionID: string, checkpointID: nat,
    version: string, digest: string, idempotencyKey: string, reference: string)

  datatype Checkpoint = Checkpoint(
    id: nat, version: string, runID: string, sessionID: string, state: RunState, digest: string,
    token: Option<string>, createdAt: Time)

  /** A paused checkpoint with its admission guard; `generation` identifies the pause. */
  datatype Entry = Entry(
    checkpoint: Checkpoint, stream: bool, resumed: bool, decision: Option<Decision>,
    completed: bool, result: string, generation: nat)

  /** The control of one active run. */
  datatype Control = Control(
    runID: string, sessionID: string, state: RunState, cancelAdmitted: bool, closed: bool, ctxDone: bool)

  /** What the goroutines share: checkpoints, generation counter, controls and the runs registered with them. */
  datatype Shared = Shared(
    checkpoints: map<string, Entry>, generation: nat, controls: seq<Control>, activeRuns: map<string, nat>, limit: nat)

  datatype Refusal =
    | Unknown | InProgress | Stale | Expired | Terminal | Conflicting | RevalidationFailed
    | DuplicateRun | Backpressure | SessionMismatch | Closed | NoRunID

  // ----- pausing -----

  function Allocate(s: Shared): Shared { s.(generation := s.generation + 1) }

  function PauseEntry(generation: nat, version: string, runID: string, sessionID: string, digest: string, token: string,
                      now: Time, stream: bool): Entry {
    Entry(Checkpoint(generation, version, runID, sessionID, InputRequired, digest, Some(token), now),
          stream, false, None, false, "", generation)
  }

  function Publish(s: Shared, e: Entry): Shared { s.(checkpoints := s.checkpoints[e.checkpoint.runID := e]) }

  // ----- controls -----

  function BeginRun(s: Shared, runID: string, sessionID: string): (Shared, Option<Refusal>) {
    if runID == "" then (s, Some(NoRunID))
    else if runID in s.activeRuns then (s, Some(DuplicateRun))
    else if |s.activeRuns| >= s.limit then (s, Some(Backpressure))
    else (s.(controls := s.controls + [Control(runID, sessionID, Working, false, false, false)],
             activeRuns := s.activeRuns[runID := |s.controls|]), None)
  }

  function SetControl(s: Shared, c: nat, x: Control): Shared
    requires c < |s.controls|
  {
    s.(controls := s.controls[c := x])
  }

  datatype CancelAnswer = Accepted | Duplicate | Rejected(why: Refusal)

  /** The part of `CancelRun` under the control's lock. */
  function CancelUnderLock(s: Shared, c: nat): (Shared, CancelAnswer)
    requires c < |s.controls|
  {
    var x := s.controls[c];
    if x.closed then (s, Rejected(Closed))
    else if x.cancelAdmitted then (s, Duplicate)
    else (SetControl(s, c, x.(cancelAdmitted := true)), Accepted)
  }

  /** The part of `finishActiveRun` under the engine's lock: only the registered control is removed. */
  function Unregister(s: Shared, c: nat): Shared
    requires c < |s.controls|
  {
    var r := s.controls[c].runID;
    if r in s.activeRuns && s.activeRuns[r] == c then s.(activeRuns := s.activeRuns - {r}) else s
  }

  // ----- resuming -----

  datatype Check = Refused(why: Refusal) | Replay(entry: Entry) | Fresh(entry: Entry)

  predicate SameCheckpoint(e: Entry, d: Decision, stream: bool) {
    e.stream == stream && e.checkpoint.sessionID == d.sessionID && e.checkpoint.id == d.checkpointID &&
    e.checkpoint.version == d.version && e.checkpoint.digest == d.digest && e.checkpoint.token == Some(d.token)
  }

  /** `dynamicResumePreflight`. */
  function Preflight(s: Shared, d: Decision, stream: bool, now: Time): Check {
    if d.runID !in s.checkpoints then Refused(Unknown)
    else
      var e := s.checkpoints[d.runID];
      if e.resumed && e.decision == Some(d) && e.stream == stream then
        (if !e.completed then Refused(InProgress) else Replay(e))
      else if !SameCheckpoint(e, d, stream) then Refused(Stale)
      else if e.checkpoint.createdAt != 0 && now - e.checkpoint.createdAt > Day then Refused(Expired)
      else if e.checkpoint.state != InputRequired then Refused(Terminal)
      else if e.resumed then Refused(Conflicting)
      else Fresh(e)
  }

  /** The second check and the lookup of the control, after the host has returned. */
  datatype Recheck = Stop(check: Check) | Proceed(entry: Entry, control: nat)

  function CheckAgain(s: Shared, d: Decision, stream: bool, now: Time, seen: nat): Recheck {
    var c := Preflight(s, d, stream, now);
    if !c.Fresh? then Stop(c)
    else if c.entry.generation != seen then Stop(Refused(Stale))
    else if d.runID !in s.activeRuns then Stop(Refused(Terminal))
    else Proceed(c.entry, s.activeRuns[d.runID])
  }

  function Admitted(e: Entry, d: Decision): Entry {
    var a := e.(resumed := true, decision := Some(d));
    if d.kind == Confirm then a
    else a.(completed := true, result := "canceled", checkpoint := a.checkpoint.(state := Canceled))
  }

  /** The decision commit, under both locks; `ctxErr`: the caller's context is done. */
  function Commit(s: Shared, e: Entry, d: Decision, c: nat, ctxErr: bool): (Shared, Option<Refusal>)
    requires c < |s.controls|
  {
    var x := s.controls[c];
    if x.cancelAdmitted || x.closed || x.ctxDone || x.state != InputRequired then (s, Some(Terminal))
    else if ctxErr then (s, Some(RevalidationFailed))
    else
      (s.(checkpoints := s.checkpoints[d.runID := Admitted(e, d)],
          controls := s.controls[c := x.(state := if d.kind == Confirm then Working else Canceled)]), None)
  }

  /** Stores the continuation's result, unless a newer pause has replaced the checkpoint. */
  function Complete(s: Shared, runID: string, generation: nat, result: string, state: RunState): Shared {
    if runID in s.checkpoints && s.checkpoints[runID].generation == generation then
      var e := s.checkpoints[runID];
      var done := e.(result := result, completed := true, checkpoint := e.checkpoint.(state := state));
      s.(checkpoints := s.checkpoints[runID := done])
    else s
  }
}

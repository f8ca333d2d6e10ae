/**
 * The engine's critical sections as they run, each on the fields it changes in
 * place. Every method is proved to do exactly the section of `ResumeModel` that
 * the interleavings of `ResumeRuns` are built from.
 */
module ResumeEngine {

  import opened Common
  import opened ResumeModel

  class Engine {
    const limit: nat
    var checkpoints: map<string, Entry>
    var generation: nat
    var controls: seq<Control>
    var activeRuns: map<string, nat>

    ghost function View(): Shared
      reads this
    {
      Shared(checkpoints, generation, controls, activeRuns, limit)
    }

    constructor (limit: nat)
      ensures View() == Shared(map[], 0, [], map[], limit)
    {
      this.limit := limit;
      checkpoints, generation, controls, activeRuns := map[], 0, [], map[];
    }

    method BeginActiveRun(runID: string, sessionID: string) returns (c: nat, err: Option<Refusal>)
      modifies this`controls, this`activeRuns
      ensures (View(), err) == BeginRun(old(View()), runID, sessionID)
      ensures err.None? ==> c == |old(controls)| && runID in activeRuns && activeRuns[runID] == c
    {
      c := 0;
      if runID == "" { return c, Some(NoRunID); }
      if runID in activeRuns { return c, Some(DuplicateRun); }
      if |activeRuns| >= limit { return c, Some(Backpressure); }
      c := |controls|;
      controls := controls + [Control(runID, sessionID, Working, false, false, false)];
      activeRuns := activeRuns[runID := c];
      err := None;
    }

    /** Looks the run up, compares the session and, under the control's lock, accepts the first cancellation. */
    method CancelRun(runID: string, sessionID: string) returns (answer: CancelAnswer)
      requires forall r :: r in activeRuns ==> activeRuns[r] < |controls|
      modifies this`controls
      ensures runID !in activeRuns ==> answer == Rejected(Unknown) && controls == old(controls)
      ensures runID in activeRuns && sessionID != "" && old(controls)[activeRuns[runID]].sessionID != sessionID ==>
        answer == Rejected(SessionMismatch) && controls == old(controls)
      ensures runID in activeRuns && (sessionID == "" || old(controls)[activeRuns[runID]].sessionID == sessionID) ==>
        var c := activeRuns[runID];
        var (sh, a) := CancelUnderLock(old(View()), c);
        answer == a && View() == (if a.Accepted? then SetControl(sh, c, sh.controls[c].(ctxDone := true)) else sh)
    {
      if runID !in activeRuns { return Rejected(Unknown); }
      var c := activeRuns[runID];
      if sessionID != "" && sessionID != controls[c].sessionID { return Rejected(SessionMismatch); }
      if controls[c].closed { return Rejected(Closed); }
      if controls[c].cancelAdmitted { return Duplicate; }
      controls := controls[c := controls[c].(cancelAdmitted := true)];
      controls := controls[c := controls[c].(ctxDone := true)];
      answer := Accepted;
    }

    /** Closes a control for good; a later run of the same id keeps its own registration. */
    method FinishActiveRun(c: nat)
      requires c < |controls|
      modifies this`controls, this`activeRuns
      ensures var closed := SetControl(old(View()), c, old(controls)[c].(closed := true));
        var gone := Unregister(closed, c);
        View() == SetControl(gone, c, gone.controls[c].(ctxDone := true))
    {
      controls := controls[c := controls[c].(closed := true)];
      var r := controls[c].runID;
      if r in activeRuns && activeRuns[r] == c { activeRuns := activeRuns - {r}; }
      controls := controls[c := controls[c].(ctxDone := true)];
    }

    method AllocateGeneration() returns (g: nat)
      modifies this`generation
      ensures View() == Allocate(old(View())) && g == generation
    {
      generation := generation + 1;
      g := generation;
    }

    method PublishCheckpoint(e: Entry)
      modifies this`checkpoints
      ensures View() == Publish(old(View()), e)
    {
      checkpoints := checkpoints[e.checkpoint.runID := e];
    }

    /** No stored pause has a generation that is still to come. */
    ghost predicate GenerationsBelow()
      reads this
    {
      forall a :: a in checkpoints ==> checkpoints[a].generation <= generation
    }

    /**
     * A run pauses. `ok` tells whether the checkpoint is valid and could be
     * persisted, which is found out between the two sections; a pause that fails
     * there has used up its generation.
     */
    method PauseForDynamicAction(version: string, runID: string, sessionID: string, digest: string, token: string,
                                 now: Time, stream: bool, control: Option<nat>, ok: bool) returns (g: nat)
      requires GenerationsBelow() && (control.Some? ==> control.value < |controls|)
      modifies this`generation, this`checkpoints, this`controls
      ensures GenerationsBelow() && g == generation == old(generation) + 1
      ensures forall a :: a in old(checkpoints) ==> old(checkpoints)[a].generation < g
      ensures forall a :: a in checkpoints && checkpoints[a].generation == g ==> ok && a == runID
      ensures !ok ==> View() == Allocate(old(View()))
      ensures ok ==>
        var entry := PauseEntry(g, version, runID, sessionID, digest, token, now, stream);
        var paused := Publish(Allocate(old(View())), entry);
        View() == (if control.None? then paused
                   else SetControl(paused, control.value, old(controls)[control.value].(state := InputRequired)))
    {
      g := AllocateGeneration();
      if !ok { return; }
      PublishCheckpoint(PauseEntry(g, version, runID, sessionID, digest, token, now, stream));
      if control.Some? {
        controls := controls[control.value := controls[control.value].(state := InputRequired)];
      }
    }

    method DynamicResumePreflight(d: Decision, stream: bool, now: Time) returns (check: Check)
      ensures check == Preflight(View(), d, stream, now)
    {
      if d.runID !in checkpoints { return Refused(Unknown); }
      var e := checkpoints[d.runID];
      if e.resumed && e.decision == Some(d) && e.stream == stream {
        if !e.completed { return Refused(InProgress); }
        return Replay(e);
      }
      if !SameCheckpoint(e, d, stream) { return Refused(Stale); }
      if e.checkpoint.createdAt != 0 && now - e.checkpoint.createdAt > Day { return Refused(Expired); }
      if e.checkpoint.state != InputRequired { return Refused(Terminal); }
      if e.resumed { return Refused(Conflicting); }
      check := Fresh(e);
    }

    /** The whole second section, from the second check to the decision commit, with both locks held. */
    method AdmitDecision(d: Decision, stream: bool, now: Time, seen: nat,
                         ctxErr: bool) returns (again: Recheck, refusal: Option<Refusal>)
      requires forall r :: r in activeRuns ==> activeRuns[r] < |controls|
      modifies this`checkpoints, this`controls
      ensures again == CheckAgain(old(View()), d, stream, now, seen)
      ensures again.Stop? ==> View() == old(View())
      ensures again.Proceed? ==>
        again.control < |old(controls)| &&
        (View(), refusal) == Commit(old(View()), again.entry, d, again.control, ctxErr)
    {
      refusal := None;
      var check := DynamicResumePreflight(d, stream, now);
      if !check.Fresh? { return Stop(check), None; }
      if check.entry.generation != seen { return Stop(Refused(Stale)), None; }
      if d.runID !in activeRuns { return Stop(Refused(Terminal)), None; }
      var c := activeRuns[d.runID];
      again := Proceed(check.entry, c);
      var x := controls[c];
      if x.cancelAdmitted || x.closed || x.ctxDone || x.state != InputRequired { return again, Some(Terminal); }
      if ctxErr { return again, Some(RevalidationFailed); }
      var e := check.entry.(resumed := true, decision := Some(d));
      if d.kind != Confirm {
        e := e.(result := "canceled");
        e := e.(checkpoint := e.checkpoint.(state := Canceled));
        e := e.(completed := true);
        controls := controls[c := x.(state := Canceled)];
        checkpoints := checkpoints[d.runID := e];
      } else {
        checkpoints := checkpoints[d.runID := e];
        controls := controls[c := x.(state := Working)];
      }
    }

    method CompleteContinuation(runID: string, g: nat, result: string, state: RunState)
      modifies this`checkpoints
      ensures View() == Complete(old(View()), runID, g, result, state)
    {
      if runID in checkpoints && checkpoints[runID].generation == g {
        var e := checkpoints[runID];
        e := e.(result := result, completed := true);
        e := e.(checkpoint := e.checkpoint.(state := state));
        checkpoints := checkpoints[runID := e];
      }
    }
  }
}

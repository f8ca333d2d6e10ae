/**
 * The file store as it runs: one writer's fields over one directory, changed in
 * place and republished. Every method is proved to do exactly the step of
 * `CheckpointModel` that the run statements are about.
 */
module CheckpointStore {

  import opened Common
  import opened CheckpointModel

  class Store {
    const env: Env
    var disk: Option<Snapshot>
    var records: Records
    var recovered: set<string>
    var poisoned: bool
    var closed: bool

    /** The directory exists and nobody has opened it. */
    constructor (env: Env, disk: Option<Snapshot>)
      ensures this.env == env && View() == World(disk, None)
    {
      this.env := env;
      this.disk := disk;
      records, recovered, poisoned, closed := map[], {}, false, true;
    }

    ghost function Memory(): Owner
      reads this
    {
      Owner(records, recovered, poisoned)
    }

    ghost function View(): World
      reads this
    {
      World(disk, if closed then None else Some(Memory()))
    }

    method Close()
      modifies this
      ensures View() == Step(env, old(View()), Stop).0
    {
      closed := true;
    }

    method Open() returns (err: Option<Error>)
      modifies this
      ensures (View(), Outcome(err, None, None)) == Step(env, old(View()), CheckpointModel.Open)
    {
      if !closed { return Some(Unavailable); }
      var marks := {};
      if disk.Some? {
        var snap := disk.value;
        if env.snapshotSize(snap) > MaxSnapshotBytes(env) { return Some(Corrupt); }
        if snap.version != ContinuationVersion || snap.namespace != env.namespace { return Some(Corrupt); }
        if snap.checksum != env.digest(snap.(checksum := "")) { return Some(Corrupt); }
        if |snap.records| > env.capacity { return Some(Corrupt); }
        var sound := CheckRecords(snap);
        if !sound { return Some(Corrupt); }
        marks := Unfinisheds(snap);
        records := snap.records;
      } else {
        records := map[];
      }
      recovered, poisoned, closed := marks, false, false;
      err := None;
    }

    method CheckRecords(snap: Snapshot) returns (sound: bool)
      ensures sound == forall k :: k in snap.records ==> RecordAccepted(env, k, snap.records[k])
    {
      var todo := snap.records.Keys;
      while todo != {}
        invariant todo <= snap.records.Keys
        invariant forall k :: k in snap.records && k !in todo ==> RecordAccepted(env, k, snap.records[k])
        decreases |todo|
      {
        var id :| id in todo;
        if !RecordAccepted(env, id, snap.records[id]) { return false; }
        todo := todo - {id};
      }
      sound := true;
    }

    method Unfinisheds(snap: Snapshot) returns (marks: set<string>)
      ensures marks == UnfinishedKeys(snap.records)
    {
      var todo := snap.records.Keys;
      marks := {};
      while todo != {}
        invariant todo <= snap.records.Keys
        invariant marks == set k | k in snap.records && k !in todo && Unfinished(snap.records[k])
        decreases |todo|
      {
        var id :| id in todo;
        if snap.records[id].claim.Some? && snap.records[id].claim.value.result.None? { marks := marks + {id}; }
        todo := todo - {id};
      }
    }

    /** Writes the memory out; any failure poisons this owner for good. */
    method PublishRecords(io: PublishIO) returns (ok: bool)
      modifies this`disk, this`poisoned
      ensures (disk, ok) == Publish(env, old(disk), records, io)
      ensures poisoned == (old(poisoned) || !ok)
    {
      var snap := Snapshot(ContinuationVersion, env.namespace, records, "");
      snap := snap.(checksum := env.digest(snap));
      ok := true;
      if env.snapshotSize(snap) > MaxSnapshotBytes(env) {
        ok := false;
      } else if io.FailedBeforeReplace? {
        ok := false;
      } else {
        disk := Some(snap);
        ok := io.Published?;
      }
      if !ok { poisoned := true; }
    }

    method Save(p: Checkpoint, io: PublishIO) returns (err: Option<Error>)
      modifies this
      ensures (View(), Outcome(err, None, None)) == Step(env, old(View()), CheckpointModel.Save(p, io))
    {
      if closed { return Some(Unavailable); }
      if !env.checkpointOk(p) { return Some(Invalid); }
      if p.ref.ownerNamespace != env.namespace { return Some(Foreign); }
      if !WithinLimits(env, p) { return Some(Malformed); }
      if poisoned { return Some(Unavailable); }
      var key := p.ref.checkpointID;
      if key in records {
        if records[key].checkpoint.ref.digest == p.ref.digest { return None; }
        return Some(Conflict);
      }
      if |records| >= env.capacity { return Some(Unavailable); }
      records := records[key := Fresh(p)];
      var ok := PublishRecords(io);
      if !ok {
        records := records - {key};
        assert records == old(records);
        return Some(Unavailable);
      }
      err := None;
    }

    method Load(ref: Ref, t: Clock) returns (out: Outcome)
      ensures out == Step(env, View(), CheckpointModel.Load(ref, t)).1
    {
      if closed { return Fail(Unavailable); }
      if !env.refOk(ref) { return Fail(Invalid); }
      if ref.ownerNamespace != env.namespace { return Fail(Foreign); }
      if poisoned { return Fail(Unavailable); }
      if ref.checkpointID !in records { return Fail(NotFound); }
      var r := records[ref.checkpointID];
      var invalid := ValidateRecord(env, r, ref, true, t);
      if invalid.Some? { return Fail(invalid.value); }
      if env.envelopeSize(r.checkpoint) > env.envelopeBytes { return Fail(Corrupt); }
      out := Outcome(None, None, Some(r.checkpoint));
    }

    method ReadResumeClaim(ref: Ref, t: Clock) returns (out: Outcome)
      ensures out == Step(env, View(), ReadClaim(ref, t)).1
    {
      if closed { return Fail(Unavailable); }
      if !env.refOk(ref) { return Fail(Invalid); }
      if ref.ownerNamespace != env.namespace { return Fail(Foreign); }
      if poisoned { return Fail(Unavailable); }
      if ref.checkpointID !in records { return Fail(NotFound); }
      var r := records[ref.checkpointID];
      var invalid := ValidateRecord(env, r, ref, true, t);
      if invalid.Some? { return Fail(invalid.value); }
      if r.canceled { return Fail(Terminal); }
      if r.claim.None? { return Fail(NotFound); }
      out := Granted(r.claim.value.(duplicate := true));
    }

    method ClaimResume(req: Request, attempt: string, t: Clock, io: PublishIO) returns (out: Outcome)
      modifies this
      ensures (View(), out) == Step(env, old(View()), CheckpointModel.ClaimResume(req, attempt, t, io))
    {
      if closed { return Fail(Unavailable); }
      if !env.requestOk(req) || !env.deploymentOk(req.deployment) { return Fail(Invalid); }
      if req.checkpoint.ownerNamespace != env.namespace { return Fail(Foreign); }
      if poisoned { return Fail(Unavailable); }
      var key := req.checkpoint.checkpointID;
      if key !in records { return Fail(NotFound); }
      var r := records[key];
      if r.canceled { return Fail(Terminal); }
      if r.claim.Some? { return DuplicateReply(env, r, key in recovered, req, t); }
      var invalid := ValidateRecord(env, r, req.checkpoint, false, t);
      if invalid.Some? { return Fail(invalid.value); }
      if req.generation != r.checkpoint.generation { return Fail(Conflict); }
      if req.mode != r.checkpoint.mode || req.dependencyProfile != r.checkpoint.dependencyProfile ||
         req.dependencyRevision != r.checkpoint.dependencyRevision { return Fail(Foreign); }
      if BudgetSpentDiffers(req.budget, r.checkpoint.budget) ||
         BudgetShrinks(req.budget, r.checkpoint.budget, req.checkpoint.pauseReason) { return Fail(Conflict); }
      var claim := Claim(req, attempt, NextGeneration(r.generation), Claimed, false, None, 0);
      r := r.(claim := Some(claim));
      r := r.(identity := env.identityOf(req));
      r := r.(state := InClaimed);
      r := r.(generation := claim.generation);
      records := records[key := r];
      var ok := PublishRecords(io);
      if !ok { return Fail(Unavailable); }
      out := Granted(claim);
    }

    method MarkRunning(token: Claim, io: PublishIO) returns (out: Outcome)
      modifies this
      ensures (View(), out) == Step(env, old(View()), CheckpointModel.MarkRunning(token, io))
    {
      if closed || poisoned { return Fail(Unavailable); }
      var key := token.request.checkpoint.checkpointID;
      if key !in records { return Fail(NotFound); }
      var r := records[key];
      if !TokenMatches(env, r, token) { return Fail(Conflict); }
      if key in recovered { return Fail(RecoveryRequired); }
      var claim := r.claim.value;
      if claim.state != Running {
        if claim.state != Claimed { return Fail(Terminal); }
        claim := claim.(state := Running);
        r := r.(state := InRunning);
        r := r.(generation := NextGeneration(r.generation));
        claim := claim.(generation := r.generation);
        r := r.(claim := Some(claim));
      }
      records := records[key := r];
      assert old(records)[key] == r ==> records == old(records);
      var ok := PublishRecords(io);
      if !ok { return Fail(Unavailable); }
      out := Granted(claim);
    }

    method CommitResumeResult(token: Claim, result: ResumeResult, now: Time, io: PublishIO) returns (out: Outcome)
      modifies this
      ensures (View(), out) == Step(env, old(View()), Commit(token, result, now, io))
    {
      if closed || poisoned { return Fail(Unavailable); }
      var key := token.request.checkpoint.checkpointID;
      if key !in records { return Fail(NotFound); }
      var r := records[key];
      if !TokenMatches(env, r, token) { return Fail(Conflict); }
      var claim := r.claim.value;
      if claim.result.Some? {
        if claim.result.value != result { return Fail(Conflict); }
      } else {
        if key in recovered { return Fail(RecoveryRequired); }
        if claim.state != Running && claim.state != Claimed { return Fail(Terminal); }
        if !ResultOk(env, result) { return Fail(Malformed); }
        if result.successor.Some? {
          var next := result.successor.value;
          var refusal := SuccessorRefusal(env, Owner(records, recovered, poisoned), r, next, token);
          if refusal.Some? { return Fail(refusal.value); }
          records := records[next.ref.checkpointID := Fresh(next)];
        }
        r := CompleteRecord(r, result, now);
        claim := r.claim.value;
      }
      records := records[key := r];
      assert old(records)[key] == r ==> records == old(records);
      var ok := PublishRecords(io);
      if !ok { return Fail(Unavailable); }
      out := Granted(claim);
    }

    /** The record after its claim has been given its result. */
    method CompleteRecord(before: Record, result: ResumeResult, now: Time) returns (r: Record)
      requires before.claim.Some?
      ensures r == Finished(before, result, now)
    {
      r := before;
      var claim := r.claim.value;
      claim := claim.(result := Some(result));
      claim := claim.(state := Completed);
      claim := claim.(retainedUntil := now + Day);
      r := r.(state := InCompleted);
      r := r.(generation := NextGeneration(r.generation));
      claim := claim.(generation := r.generation);
      r := r.(claim := Some(claim));
    }

    method Control(ref: Ref, generation: nat, action: ControlAction, t: Clock, io: PublishIO) returns (out: Outcome)
      modifies this
      ensures (View(), out) == Step(env, old(View()), CheckpointModel.Control(ref, generation, action, t, io))
    {
      if closed { return Fail(Unavailable); }
      if action.Unsupported? { return Fail(Malformed); }
      if poisoned { return Fail(Unavailable); }
      if ref.checkpointID !in records { return Fail(NotFound); }
      var r := records[ref.checkpointID];
      var invalid := ValidateRecord(env, r, ref, false, t);
      if invalid.Some? { return Fail(invalid.value); }
      if generation != r.checkpoint.generation { return Fail(Conflict); }
      if r.claim.Some? { return Fail(InProgress); }
      r := r.(canceled := true);
      r := r.(state := InCanceled);
      records := records[ref.checkpointID := r];
      var ok := PublishRecords(io);
      if !ok { return Fail(Unavailable); }
      out := Done;
    }
  }
}

/**
 * Generations are 64-bit and wrap. A record whose generation wraps to zero is
 * published but refused by the reader, so the bound that the other statements
 * put on saved generations is exact.
 */
module CheckpointGenerations {

  import opened Common
  import opened CheckpointModel

  function Next(o: Owner, v: Verdict): Owner { if v.Write? then o.(records := v.records) else o }

  predicate Readable(env: Env, m: Records) { ReadSnapshot(env, Some(Seal(env, m))).Some? }

  /** The sealed snapshot of `m` is within the size limit. */
  predicate Fits(env: Env, m: Records) { env.snapshotSize(Seal(env, m)) <= MaxSnapshotBytes(env) }

  /** Every record but `key` is one that the reader accepts. */
  predicate OthersAccepted(env: Env, m: Records, key: string) {
    forall k :: k in m && k != key ==> RecordAccepted(env, k, m[k])
  }

  /** A healthy owner that holds `p` as it was saved, next to any other records within the capacity. */
  predicate HoldsSaved(env: Env, o: Owner, p: Checkpoint) {
    var key := p.ref.checkpointID;
    !o.poisoned && key in o.records && o.records[key] == Fresh(p) && key !in o.recovered &&
    |o.records| <= env.capacity && OthersAccepted(env, o.records, key)
  }

  function ClaimOf(p: Checkpoint, req: Request, attempt: string): Claim {
    Claim(req, attempt, NextGeneration(p.generation), Claimed, false, None, 0)
  }

  function ClaimedRecord(env: Env, p: Checkpoint, req: Request, attempt: string): Record {
    Fresh(p).(claim := Some(ClaimOf(p, req, attempt)), identity := env.identityOf(req), state := InClaimed,
              generation := NextGeneration(p.generation))
  }

  function RunningRecord(r: Record): Record
    requires r.claim.Some?
  {
    var g := NextGeneration(r.generation);
    r.(claim := Some(r.claim.value.(state := Running, generation := g)), state := InRunning, generation := g)
  }

  /** The resume of `p` by `req` passes every check that does not concern generations. */
  ghost predicate Acceptable(env: Env, o: Owner, p: Checkpoint, req: Request, attempt: string, result: ResumeResult) {
    EnvOk(env) && HoldsSaved(env, o, p) &&
    env.checkpointOk(p) && p.ref.ownerNamespace == env.namespace && WithinLimits(env, p) &&
    env.requestOk(req) && env.deploymentOk(req.deployment) && req.checkpoint == p.ref && attempt != "" &&
    req.generation == p.generation && req.mode == p.mode && req.dependencyProfile == p.dependencyProfile &&
    req.dependencyRevision == p.dependencyRevision && !BudgetSpentDiffers(req.budget, p.budget) &&
    !BudgetShrinks(req.budget, p.budget, p.ref.pauseReason) && ResultOk(env, result) &&
    (result.successor.Some? ==>
       SuccessorRefusal(env, o, Fresh(p), result.successor.value, ClaimOf(p, req, attempt)).None?)
  }

  /** The records published by the claim, by the mark and by the commit. */
  function Published1(env: Env, o: Owner, p: Checkpoint, req: Request, attempt: string): Records {
    o.records[p.ref.checkpointID := ClaimedRecord(env, p, req, attempt)]
  }

  function Published2(env: Env, o: Owner, p: Checkpoint, req: Request, attempt: string): Records {
    o.records[p.ref.checkpointID := RunningRecord(ClaimedRecord(env, p, req, attempt))]
  }

  function Published3(env: Env, o: Owner, p: Checkpoint, req: Request, attempt: string, result: ResumeResult,
                      now: Time): Records {
    var r := Finished(RunningRecord(ClaimedRecord(env, p, req, attempt)), result, now);
    WithSuccessor(o.records, result)[p.ref.checkpointID := r]
  }

  /** Next to records that the reader accepts, one record decides whether the snapshot is readable. */
  lemma ReadableIff(env: Env, m: Records, key: string)
    requires key in m && |m| <= env.capacity && Fits(env, m) && OthersAccepted(env, m, key)
    ensures Readable(env, m) <==> RecordAccepted(env, key, m[key])
  {
    var s := Seal(env, m);
    assert s.(checksum := "") == Snapshot(ContinuationVersion, env.namespace, m, "");
  }

  lemma SameSize(m: Records, key: string, r: Record)
    requires key in m
    ensures |m[key := r]| == |m|
  {
    assert m[key := r].Keys == m.Keys;
  }

  lemma ClaimEffect(env: Env, o: Owner, p: Checkpoint, req: Request, attempt: string, t: Clock, result: ResumeResult)
    requires Acceptable(env, o, p, req, attempt, result) && t.first < p.ref.expiresAt
    ensures var m := Published1(env, o, p, req, attempt);
      ClaimVerdict(env, o, req, attempt, t) == Write(m, m, Granted(ClaimOf(p, req, attempt)))
  {
  }

  lemma MarkEffect(env: Env, o: Owner, key: string, r: Record)
    requires !o.poisoned && key in o.records && o.records[key] == r && key !in o.recovered
    requires r.claim.Some? && r.claim.value.request.checkpoint.checkpointID == key && r.claim.value.state == Claimed
    requires r.claim.value.generation == r.generation && r.identity == env.identityOf(r.claim.value.request)
    ensures var m := o.records[key := RunningRecord(r)];
      MarkVerdict(env, o, r.claim.value) == Write(m, m, Granted(RunningRecord(r).claim.value))
  {
  }

  lemma CommitEffect(env: Env, o: Owner, key: string, r: Record, result: ResumeResult, now: Time)
    requires !o.poisoned && key in o.records && o.records[key] == r && key !in o.recovered
    requires r.claim.Some? && r.claim.value.request.checkpoint.checkpointID == key && r.claim.value.state == Running
    requires r.claim.value.generation == r.generation && r.identity == env.identityOf(r.claim.value.request)
    requires r.claim.value.result.None? && ResultOk(env, result)
    requires result.successor.Some? ==> SuccessorRefusal(env, o, r, result.successor.value, r.claim.value).None?
    ensures var m := WithSuccessor(o.records, result)[key := Finished(r, result, now)];
      CommitVerdict(env, o, r.claim.value, result, now) == Write(m, m, Granted(Finished(r, result, now).claim.value))
  {
  }

  lemma StageAccepted(env: Env, o: Owner, p: Checkpoint, req: Request, attempt: string, result: ResumeResult, now: Time)
    requires Acceptable(env, o, p, req, attempt, result) && p.generation < Uint64Size
    ensures var k := p.ref.checkpointID;
      var r1 := ClaimedRecord(env, p, req, attempt);
      var r2 := RunningRecord(r1);
      (RecordAccepted(env, k, r1) && RecordAccepted(env, k, r2) && RecordAccepted(env, k, Finished(r2, result, now)))
      <==> p.generation + 3 < Uint64Size
  {
  }

  /** The first two publications change the record of `p` alone. */
  lemma ReplacedReadable(env: Env, o: Owner, p: Checkpoint, r: Record)
    requires HoldsSaved(env, o, p) && Fits(env, o.records[p.ref.checkpointID := r])
    ensures Readable(env, o.records[p.ref.checkpointID := r]) <==> RecordAccepted(env, p.ref.checkpointID, r)
  {
    SameSize(o.records, p.ref.checkpointID, r);
    ReadableIff(env, o.records[p.ref.checkpointID := r], p.ref.checkpointID);
  }

  /** The third adds a successor, which is accepted as it is saved. */
  lemma CommittedReadable(env: Env, o: Owner, p: Checkpoint, req: Request, attempt: string, result: ResumeResult,
                          r: Record)
    requires Acceptable(env, o, p, req, attempt, result)
    requires Fits(env, WithSuccessor(o.records, result)[p.ref.checkpointID := r])
    ensures Readable(env, WithSuccessor(o.records, result)[p.ref.checkpointID := r]) <==>
      RecordAccepted(env, p.ref.checkpointID, r)
  {
    var key, m := p.ref.checkpointID, WithSuccessor(o.records, result);
    SameSize(m, key, r);
    if result.successor.Some? {
      var id := result.successor.value.ref.checkpointID;
      assert m.Keys == o.records.Keys + {id};
      assert RecordAccepted(env, id, Fresh(result.successor.value));
    }
    ReadableIff(env, m[key := r], key);
  }

  /** The mark that follows the claim. */
  lemma MarkAfterClaim(env: Env, o: Owner, p: Checkpoint, req: Request, attempt: string, result: ResumeResult)
    requires Acceptable(env, o, p, req, attempt, result)
    ensures var m := Published2(env, o, p, req, attempt);
      MarkVerdict(env, o.(records := Published1(env, o, p, req, attempt)), ClaimOf(p, req, attempt)) ==
      Write(m, m, Granted(RunningRecord(ClaimedRecord(env, p, req, attempt)).claim.value))
  {
    var key, m1 := p.ref.checkpointID, Published1(env, o, p, req, attempt);
    MarkEffect(env, o.(records := m1), key, ClaimedRecord(env, p, req, attempt));
    assert m1[key := RunningRecord(ClaimedRecord(env, p, req, attempt))] == Published2(env, o, p, req, attempt);
  }

  lemma SuccessorStillFits(env: Env, o: Owner, p: Checkpoint, req: Request, attempt: string, next: Checkpoint)
    requires p.ref.checkpointID in o.records
    ensures var r := RunningRecord(ClaimedRecord(env, p, req, attempt));
      SuccessorRefusal(env, o.(records := Published2(env, o, p, req, attempt)), r, next, r.claim.value) ==
      SuccessorRefusal(env, o, Fresh(p), next, ClaimOf(p, req, attempt))
  {
    SameSize(o.records, p.ref.checkpointID, RunningRecord(ClaimedRecord(env, p, req, attempt)));
  }

  /** The commit that follows the mark. */
  lemma CommitAfterMark(env: Env, o: Owner, p: Checkpoint, req: Request, attempt: string, result: ResumeResult,
                        now: Time)
    requires Acceptable(env, o, p, req, attempt, result)
    ensures var m := Published3(env, o, p, req, attempt, result, now);
      var r := RunningRecord(ClaimedRecord(env, p, req, attempt));
      CommitVerdict(env, o.(records := Published2(env, o, p, req, attempt)), r.claim.value, result, now) ==
      Write(m, m, Granted(Finished(r, result, now).claim.value))
  {
    var key, m2 := p.ref.checkpointID, Published2(env, o, p, req, attempt);
    var r := RunningRecord(ClaimedRecord(env, p, req, attempt));
    if result.successor.Some? { SuccessorStillFits(env, o, p, req, attempt, result.successor.value); }
    CommitEffect(env, o.(records := m2), key, r, result, now);
    SuccessorCommutes(o.records, key, r, Finished(r, result, now), result);
  }

  lemma SuccessorCommutes(m: Records, key: string, r: Record, r': Record, result: ResumeResult)
    ensures WithSuccessor(m[key := r], result)[key := r'] == WithSuccessor(m, result)[key := r']
  {
  }

  /**
   * Whatever else the store holds, the snapshots published while `p` is claimed,
   * run and completed are all readable if and only if its generation leaves room
   * for three increments; only these three snapshots need to fit the size limit.
   */
  lemma GenerationBoundIsExact(env: Env, o: Owner, p: Checkpoint, req: Request, attempt: string, t: Clock,
                               result: ResumeResult, now: Time)
    requires Acceptable(env, o, p, req, attempt, result)
    requires p.generation < Uint64Size && t.first < p.ref.expiresAt
    requires Fits(env, Published1(env, o, p, req, attempt)) && Fits(env, Published2(env, o, p, req, attempt))
    requires Fits(env, Published3(env, o, p, req, attempt, result, now))
    ensures
      var v1 := ClaimVerdict(env, o, req, attempt, t);
      var o1 := Next(o, v1);
      v1.Write? && v1.outcome.claim.Some? &&
      var v2 := MarkVerdict(env, o1, v1.outcome.claim.value);
      var o2 := Next(o1, v2);
      v2.Write? && v2.outcome.claim.Some? &&
      var v3 := CommitVerdict(env, o2, v2.outcome.claim.value, result, now);
      v3.Write? &&
      ((Readable(env, v1.records) && Readable(env, v2.records) && Readable(env, v3.records)) <==>
       p.generation + 3 < Uint64Size)
  {
    var r1 := ClaimedRecord(env, p, req, attempt);
    var r2 := RunningRecord(r1);
    ClaimEffect(env, o, p, req, attempt, t, result);
    MarkAfterClaim(env, o, p, req, attempt, result);
    CommitAfterMark(env, o, p, req, attempt, result, now);
    ReplacedReadable(env, o, p, r1);
    ReplacedReadable(env, o, p, r2);
    CommittedReadable(env, o, p, req, attempt, result, Finished(r2, result, now));
    StageAccepted(env, o, p, req, attempt, result, now);
  }
}

/**
 * What every step of the checkpoint store keeps, and what follows over whole
 * runs of operations, failed publications, crashes and reopens.
 */
module CheckpointSafety {

  import opened Common
  import opened CheckpointModel

  // ----- the invariant -----

  /** How far a record has come; a record at stage 3 is final. */
  function Stage(r: Record): nat {
    match r.state
    case InPersisted => 0
    case InClaimed => 1
    case InRunning => 2
    case _ => 3
  }

  /** The budget a claim runs on spends nothing already spent and takes nothing away. */
  predicate BudgetExtends(b: Budget, kept: Budget, reason: PauseReason) {
    b.consumed == kept.consumed && b.toolConsumed == kept.toolConsumed && b.deadline == kept.deadline &&
    b.limit >= kept.limit && b.toolLimit >= kept.toolLimit &&
    (b.limit > 0 ==> b.consumed <= b.limit) && (b.toolLimit > 0 ==> b.toolConsumed <= b.toolLimit) &&
    (b != kept ==> reason == BudgetExhausted && b.revision != "" && b.revision != kept.revision)
  }

  /** The claim was admitted for exactly the checkpoint that carries it. */
  predicate ClaimFits(c: Claim, p: Checkpoint) {
    !c.duplicate && c.request.checkpoint == p.ref && c.request.generation == p.generation &&
    c.request.mode == p.mode && c.request.dependencyProfile == p.dependencyProfile &&
    c.request.dependencyRevision == p.dependencyRevision &&
    BudgetExtends(c.request.budget, p.budget, p.ref.pauseReason)
  }

  predicate GenerationFits(r: Record) {
    r.checkpoint.generation + 3 < Uint64Size &&
    (match r.state
     case InPersisted => r.generation == r.checkpoint.generation
     case InCanceled => r.generation == r.checkpoint.generation
     case InClaimed => r.generation == r.checkpoint.generation + 1
     case InRunning => r.generation == r.checkpoint.generation + 2
     case _ => r.checkpoint.generation + 2 <= r.generation <= r.checkpoint.generation + 3)
  }

  predicate RecordInv(env: Env, k: string, r: Record) {
    RecordAccepted(env, k, r) && GenerationFits(r) &&
    (r.claim.Some? ==> ClaimFits(r.claim.value, r.checkpoint))
  }

  predicate HasSuccessor(d: Records, k: string) {
    k in d && d[k].claim.Some? && d[k].claim.value.result.Some? &&
    d[k].claim.value.result.value.successor.Some?
  }

  function Successor(d: Records, k: string): Checkpoint
    requires HasSuccessor(d, k)
  {
    d[k].claim.value.result.value.successor.value
  }

  function SuccessorID(d: Records, k: string): string
    requires HasSuccessor(d, k)
  {
    Successor(d, k).ref.checkpointID
  }

  /** A committed successor is stored, and names the checkpoint and the attempt it came from. */
  predicate LinkOk(d: Records, k: string)
    requires HasSuccessor(d, k)
  {
    var p := Successor(d, k);
    p.ref.checkpointID in d && d[p.ref.checkpointID].checkpoint == p &&
    p.ref.predecessor == k && p.ref.resumeAttempt == d[k].claim.value.attemptID &&
    p.ref.lineage == d[k].checkpoint.ref.lineage
  }

  ghost predicate LinksOk(d: Records) {
    forall k :: HasSuccessor(d, k) ==> LinkOk(d, k)
  }

  ghost predicate DiskInv(env: Env, d: Records) {
    AllRecordsOk(env, d) && LinksOk(d) && |d| <= env.capacity
  }

  /** The memory of a healthy owner is the published snapshot, with some unfinished claims marked. */
  ghost predicate InStep(d: Records, o: Owner) {
    o.records == d && o.recovered <= UnfinishedKeys(d)
  }

  ghost predicate Inv(env: Env, w: World) {
    EnvOk(env) && DiskInv(env, Durable(w)) &&
    (w.disk.Some? ==> HeaderAccepted(env, w.disk.value)) &&
    (w.owner.Some? && !w.owner.value.poisoned ==> InStep(Durable(w), w.owner.value))
  }

  // ----- how records may change -----

  predicate SameClaim(r: Record, r': Record)
    requires r.claim.Some?
  {
    r'.claim.Some? && r'.claim.value.attemptID == r.claim.value.attemptID &&
    r'.claim.value.request == r.claim.value.request && r'.identity == r.identity
  }

  /** `r'` is `r` or a later stage of it: the checkpoint and an existing claim's identity stay. */
  predicate Follows(r: Record, r': Record) {
    r'.checkpoint == r.checkpoint &&
    (r == r' ||
     (Stage(r) < Stage(r') && r.generation <= r'.generation &&
      (r'.claim.Some? ==> r.generation < r'.generation) &&
      (r.claim.Some? ==> SameClaim(r, r'))))
  }

  ghost predicate Evolves(d: Records, d': Records) {
    forall k :: k in d ==> k in d' && Follows(d[k], d'[k])
  }

  /** A single step moves a record along one of these edges. */
  predicate Moves(r: Record, r': Record) {
    Follows(r, r') &&
    (r == r' ||
     (r.state == InPersisted && (r'.state == InClaimed || r'.state == InCanceled)) ||
     (r.state == InClaimed && (r'.state == InRunning || r'.state == InCompleted)) ||
     (r.state == InRunning && r'.state == InCompleted))
  }

  /** New links lead from stored checkpoints to new ones, and new ones have no link of their own. */
  ghost predicate LinksGrow(d: Records, d': Records) {
    forall k :: HasSuccessor(d', k) ==>
      k in d && (if HasSuccessor(d, k) then Successor(d', k) == Successor(d, k) else SuccessorID(d', k) !in d)
  }

  ghost predicate StepMoves(d: Records, d': Records) {
    (forall k :: k in d ==> k in d' && Moves(d[k], d'[k])) &&
    (forall k :: k in d' && k !in d ==> d'[k].state == InPersisted) &&
    LinksGrow(d, d')
  }

  // ----- every write keeps the invariant -----

  /** Publishing `m` over `d` from an owner that has marked `recovered`. */
  ghost predicate WriteOk(env: Env, d: Records, recovered: set<string>, m: Records) {
    DiskInv(env, m) && recovered <= UnfinishedKeys(m) && StepMoves(d, m)
  }

  ghost predicate AllRecordsOk(env: Env, d: Records) {
    forall k :: k in d ==> RecordInv(env, k, d[k])
  }

  lemma UpdateRecordsOk(env: Env, d: Records, k: string, r: Record)
    requires AllRecordsOk(env, d) && RecordInv(env, k, r)
    ensures AllRecordsOk(env, d[k := r])
  {
  }

  lemma UpdateLinksOk(d: Records, k: string, r: Record)
    requires LinksOk(d) && k in d && Moves(d[k], r) && Stage(d[k]) < 3
    requires r.claim.Some? && r.claim.value.result.Some? ==> r.claim.value.result.value.successor.None?
    ensures LinksOk(d[k := r])
  {
    var s := d[k := r];
    forall j | HasSuccessor(s, j) ensures LinkOk(s, j) {
      assert HasSuccessor(d, j) && LinkOk(d, j);
    }
  }

  lemma UpdateMoves(d: Records, k: string, r: Record)
    requires k in d && Moves(d[k], r)
    requires r.claim.Some? && r.claim.value.result.Some? ==> r.claim.value.result.value.successor.None?
    ensures StepMoves(d, d[k := r])
  {
  }

  lemma UpdateKeys(d: Records, k: string, r: Record)
    requires k in d
    ensures |d[k := r]| == |d|
  {
    assert d[k := r].Keys == d.Keys;
    assert |d[k := r].Keys| == |d.Keys|;
  }

  lemma UpdateUnfinished(d: Records, recovered: set<string>, k: string, r: Record)
    requires recovered <= UnfinishedKeys(d) && k !in recovered
    ensures recovered <= UnfinishedKeys(d[k := r])
  {
  }

  /** Rewriting one record, without committing a successor. */
  lemma UpdateOk(env: Env, d: Records, o: Owner, k: string, r: Record)
    requires DiskInv(env, d) && InStep(d, o) && k in d && k !in o.recovered
    requires RecordInv(env, k, r) && Moves(d[k], r) && Stage(d[k]) < 3
    requires r.claim.Some? && r.claim.value.result.Some? ==> r.claim.value.result.value.successor.None?
    ensures WriteOk(env, d, o.recovered, d[k := r])
  {
    UpdateRecordsOk(env, d, k, r);
    UpdateLinksOk(d, k, r);
    UpdateMoves(d, k, r);
    UpdateKeys(d, k, r);
    UpdateUnfinished(d, o.recovered, k, r);
  }

  lemma InsertLinksOk(d: Records, k: string, p: Checkpoint)
    requires LinksOk(d) && k !in d
    ensures LinksOk(d[k := Fresh(p)]) && StepMoves(d, d[k := Fresh(p)])
  {
    var s := d[k := Fresh(p)];
    forall j | HasSuccessor(s, j) ensures LinkOk(s, j) {
      assert HasSuccessor(d, j) && LinkOk(d, j);
    }
  }

  lemma FreshInv(env: Env, p: Checkpoint)
    requires env.checkpointOk(p) && p.ref.ownerNamespace == env.namespace && WithinLimits(env, p)
    requires p.generation + 3 < Uint64Size
    ensures RecordInv(env, p.ref.checkpointID, Fresh(p))
  {
  }

  lemma InsertOk(env: Env, d: Records, o: Owner, p: Checkpoint)
    requires DiskInv(env, d) && InStep(d, o) && p.ref.checkpointID !in d && |d| < env.capacity
    requires RecordInv(env, p.ref.checkpointID, Fresh(p))
    ensures WriteOk(env, d, o.recovered, d[p.ref.checkpointID := Fresh(p)])
  {
    UpdateRecordsOk(env, d, p.ref.checkpointID, Fresh(p));
    InsertLinksOk(d, p.ref.checkpointID, p);
    UpdateUnfinished(d, o.recovered, p.ref.checkpointID, Fresh(p));
  }

  lemma FinishedInv(env: Env, k: string, r: Record, result: ResumeResult, now: Time)
    requires RecordInv(env, k, r) && Unfinished(r) && ResultOk(env, result)
    requires result.successor.Some? ==> env.checkpointOk(result.successor.value)
    ensures RecordInv(env, k, Finished(r, result, now)) && Moves(r, Finished(r, result, now))
    ensures Stage(r) < 3
  {
  }

  lemma CommitLinksOk(d: Records, k: string, r: Record, next: Checkpoint)
    requires LinksOk(d) && k in d && Stage(d[k]) < 3 && Unfinished(d[k]) && Moves(d[k], r)
    requires r.claim.Some? && r.claim.value.result.Some? && r.claim.value.result.value.successor == Some(next)
    requires next.ref.checkpointID !in d && next.ref.predecessor == k
    requires next.ref.resumeAttempt == r.claim.value.attemptID && next.ref.lineage == d[k].checkpoint.ref.lineage
    ensures LinksOk(d[next.ref.checkpointID := Fresh(next)][k := r])
    ensures StepMoves(d, d[next.ref.checkpointID := Fresh(next)][k := r])
  {
    var s := d[next.ref.checkpointID := Fresh(next)][k := r];
    forall j | HasSuccessor(s, j) ensures LinkOk(s, j) {
      if j != k { assert HasSuccessor(d, j) && LinkOk(d, j); }
    }
  }

  /** Committing a successor rewrites one record and inserts another in a single publication. */
  lemma CommitSuccessorOk(env: Env, d: Records, o: Owner, k: string, r: Record, next: Checkpoint)
    requires DiskInv(env, d) && InStep(d, o) && k in d && k !in o.recovered && |d| < env.capacity
    requires Stage(d[k]) < 3 && Unfinished(d[k]) && Moves(d[k], r) && RecordInv(env, k, r)
    requires r.claim.Some? && r.claim.value.result.Some? && r.claim.value.result.value.successor == Some(next)
    requires next.ref.checkpointID !in d && next.ref.predecessor == k
    requires RecordInv(env, next.ref.checkpointID, Fresh(next))
    requires next.ref.resumeAttempt == r.claim.value.attemptID && next.ref.lineage == d[k].checkpoint.ref.lineage
    ensures WriteOk(env, d, o.recovered, d[next.ref.checkpointID := Fresh(next)][k := r])
  {
    var n := next.ref.checkpointID;
    UpdateRecordsOk(env, d, n, Fresh(next));
    UpdateRecordsOk(env, d[n := Fresh(next)], k, r);
    CommitLinksOk(d, k, r, next);
    UpdateUnfinished(d, o.recovered, n, Fresh(next));
    UpdateUnfinished(d[n := Fresh(next)], o.recovered, k, r);
    UpdateKeys(d[n := Fresh(next)], k, r);
  }

  /** The run is driven by its callers only within these bounds. */
  predicate Legal(op: Op) {
    (op.Save? ==> op.p.generation + 3 < Uint64Size) &&
    (op.ClaimResume? ==> op.attempt != "") &&
    (op.Commit? && op.result.successor.Some? ==> op.result.successor.value.generation + 3 < Uint64Size)
  }

  lemma ClaimedInv(env: Env, k: string, r: Record, r': Record, req: Request, attempt: string)
    requires RecordInv(env, k, r) && r.claim.None? && !r.canceled && attempt != ""
    requires env.identityOf(req) != "" && env.requestOk(req) && req.checkpoint == r.checkpoint.ref
    requires req.generation == r.checkpoint.generation && req.mode == r.checkpoint.mode
    requires req.dependencyProfile == r.checkpoint.dependencyProfile
    requires req.dependencyRevision == r.checkpoint.dependencyRevision
    requires !BudgetSpentDiffers(req.budget, r.checkpoint.budget)
    requires !BudgetShrinks(req.budget, r.checkpoint.budget, req.checkpoint.pauseReason)
    requires var g := NextGeneration(r.generation);
      r' == r.(claim := Some(Claim(req, attempt, g, Claimed, false, None, 0)), identity := env.identityOf(req),
               state := InClaimed, generation := g)
    ensures RecordInv(env, k, r') && Moves(r, r') && Stage(r) < 3
  {
  }

  /** What a decision writes, if anything, may be published. */
  ghost predicate VerdictOk(env: Env, d: Records, o: Owner, v: Verdict) {
    v.Write? ==> WriteOk(env, d, o.recovered, v.records)
  }

  lemma ClaimWriteOk(env: Env, d: Records, o: Owner, req: Request, attempt: string, t: Clock)
    requires EnvOk(env) && DiskInv(env, d) && InStep(d, o) && attempt != ""
    ensures VerdictOk(env, d, o, ClaimVerdict(env, o, req, attempt, t))
  {
    var v := ClaimVerdict(env, o, req, attempt, t);
    if v.Write? {
      var k := req.checkpoint.checkpointID;
      ClaimedInv(env, k, d[k], v.records[k], req, attempt);
      UpdateOk(env, d, o, k, v.records[k]);
    }
  }

  lemma RunningInv(env: Env, k: string, r: Record, r': Record)
    requires RecordInv(env, k, r) && r.claim.Some? && r.claim.value.state == Claimed
    requires var g := NextGeneration(r.generation);
      r' == r.(claim := Some(r.claim.value.(state := Running, generation := g)), state := InRunning, generation := g)
    ensures RecordInv(env, k, r') && Moves(r, r') && Stage(r) < 3 && Unfinished(r')
  {
  }

  lemma MarkWriteOk(env: Env, d: Records, o: Owner, token: Claim)
    requires EnvOk(env) && DiskInv(env, d) && InStep(d, o)
    ensures VerdictOk(env, d, o, MarkVerdict(env, o, token))
  {
    var v := MarkVerdict(env, o, token);
    if v.Write? && v.records != d {
      var k := token.request.checkpoint.checkpointID;
      RunningInv(env, k, d[k], v.records[k]);
      UpdateOk(env, d, o, k, v.records[k]);
    }
  }

  lemma CanceledInv(env: Env, k: string, r: Record, r': Record)
    requires RecordInv(env, k, r) && r.claim.None? && !r.canceled
    requires r' == r.(canceled := true, state := InCanceled)
    ensures RecordInv(env, k, r') && Moves(r, r') && Stage(r) < 3
  {
  }

  lemma ControlWriteOk(env: Env, d: Records, o: Owner, ref: Ref, g: nat, action: ControlAction, t: Clock)
    requires EnvOk(env) && DiskInv(env, d) && InStep(d, o)
    ensures VerdictOk(env, d, o, ControlVerdict(env, o, ref, g, action, t))
  {
    var v := ControlVerdict(env, o, ref, g, action, t);
    if v.Write? {
      var k := ref.checkpointID;
      if d[k].canceled {
        assert RecordInv(env, k, d[k]);
        assert v.records == d;
      } else {
        CanceledInv(env, k, d[k], v.records[k]);
        UpdateOk(env, d, o, k, v.records[k]);
      }
    }
  }

  lemma CommitWriteOk(env: Env, d: Records, o: Owner, token: Claim, result: ResumeResult, now: Time)
    requires EnvOk(env) && DiskInv(env, d) && InStep(d, o)
    requires result.successor.Some? ==> result.successor.value.generation + 3 < Uint64Size
    ensures VerdictOk(env, d, o, CommitVerdict(env, o, token, result, now))
  {
    var v := CommitVerdict(env, o, token, result, now);
    var k := token.request.checkpoint.checkpointID;
    if v.Write? && d[k].claim.value.result.None? {
      var r := Finished(d[k], result, now);
      FinishedInv(env, k, d[k], result, now);
      if result.successor.None? {
        UpdateOk(env, d, o, k, r);
      } else {
        FreshInv(env, result.successor.value);
        CommitSuccessorOk(env, d, o, k, r, result.successor.value);
      }
    }
  }

  lemma SaveWriteOk(env: Env, d: Records, o: Owner, p: Checkpoint)
    requires EnvOk(env) && DiskInv(env, d) && InStep(d, o) && p.generation + 3 < Uint64Size
    ensures VerdictOk(env, d, o, SaveVerdict(env, o, p))
  {
    if SaveVerdict(env, o, p).Write? {
      FreshInv(env, p);
      InsertOk(env, d, o, p);
    }
  }

  lemma PoisonedReplies(env: Env, o: Owner, op: Op)
    requires o.poisoned && !op.Stop? && !op.Open?
    ensures Decide(env, o, op).Reply?
  {
  }

  lemma DecideIs(env: Env, o: Owner, op: Op)
    requires !op.Stop? && !op.Open?
    ensures op.Save? ==> Decide(env, o, op) == SaveVerdict(env, o, op.p)
    ensures op.ClaimResume? ==> Decide(env, o, op) == ClaimVerdict(env, o, op.req, op.attempt, op.t)
    ensures op.MarkRunning? ==> Decide(env, o, op) == MarkVerdict(env, o, op.token)
    ensures op.Commit? ==> Decide(env, o, op) == CommitVerdict(env, o, op.token, op.result, op.now)
    ensures op.Control? ==> Decide(env, o, op) == ControlVerdict(env, o, op.ref, op.generation, op.action, op.t)
    ensures op.Load? || op.ReadClaim? ==> Decide(env, o, op).Reply?
  {
  }

  lemma DecideWriteOk(env: Env, d: Records, o: Owner, op: Op)
    requires EnvOk(env) && DiskInv(env, d) && !op.Stop? && !op.Open? && Legal(op)
    requires !o.poisoned ==> InStep(d, o)
    ensures o.poisoned ==> Decide(env, o, op).Reply?
    ensures VerdictOk(env, d, o, Decide(env, o, op))
  {
    DecideIs(env, o, op);
    if o.poisoned {
      PoisonedReplies(env, o, op);
    } else {
      match op
      case Save(p, _) => SaveWriteOk(env, d, o, p);
      case ClaimResume(req, attempt, t, _) => ClaimWriteOk(env, d, o, req, attempt, t);
      case MarkRunning(token, _) => MarkWriteOk(env, d, o, token);
      case Commit(token, result, now, _) => CommitWriteOk(env, d, o, token, result, now);
      case Control(ref, g, action, t, _) => ControlWriteOk(env, d, o, ref, g, action, t);
      case _ =>
    }
  }

  lemma SealAccepted(env: Env, m: Records)
    requires |m| <= env.capacity && env.snapshotSize(Seal(env, m)) <= MaxSnapshotBytes(env)
    ensures HeaderAccepted(env, Seal(env, m))
  {
    var s := Seal(env, m);
    assert s.(checksum := "") == Snapshot(ContinuationVersion, env.namespace, m, "");
  }

  lemma PublishOk(env: Env, w: World, v: Verdict, io: PublishIO)
    requires Inv(env, w) && w.owner.Some? && !w.owner.value.poisoned && v.Write?
    requires WriteOk(env, Durable(w), w.owner.value.recovered, v.records)
    ensures var w' := Settle(env, w.disk, w.owner.value, v, io).0;
      Inv(env, w') && StepMoves(Durable(w), Durable(w'))
  {
    Unmoved(Durable(w));
    if Publish(env, w.disk, v.records, io).0 != w.disk {
      SealAccepted(env, v.records);
    }
  }

  lemma Unmoved(d: Records)
    ensures StepMoves(d, d)
  {
  }

  lemma OpenOk(env: Env, w: World)
    requires Inv(env, w) && w.owner.None?
    ensures Inv(env, Step(env, w, Open).0)
    ensures Step(env, w, Open).1 == Done
  {
    if w.disk.Some? {
      var d := w.disk.value.records;
      forall k | k in d ensures RecordAccepted(env, k, d[k]) { assert RecordInv(env, k, d[k]); }
    }
  }

  /** A decision of the owner, once settled, keeps the invariant. */
  lemma SettleOk(env: Env, w: World, v: Verdict, io: PublishIO)
    requires Inv(env, w) && w.owner.Some? && (w.owner.value.poisoned ==> v.Reply?)
    requires VerdictOk(env, Durable(w), w.owner.value, v)
    ensures var w' := Settle(env, w.disk, w.owner.value, v, io).0; Inv(env, w') && StepMoves(Durable(w), Durable(w'))
  {
    Unmoved(Durable(w));
    if v.Write? { PublishOk(env, w, v, io); }
  }

  lemma OwnerStepKeepsInv(env: Env, w: World, op: Op)
    requires Inv(env, w) && Legal(op) && !op.Open? && !op.Stop? && w.owner.Some?
    ensures var w' := Step(env, w, op).0; Inv(env, w') && StepMoves(Durable(w), Durable(w'))
  {
    DecideWriteOk(env, Durable(w), w.owner.value, op);
    SettleOk(env, w, Decide(env, w.owner.value, op), IOOf(op));
  }

  /** Every legal step keeps the invariant and moves each stored record along an allowed edge. */
  lemma StepKeepsInv(env: Env, w: World, op: Op)
    requires Inv(env, w) && Legal(op)
    ensures var w' := Step(env, w, op).0; Inv(env, w') && StepMoves(Durable(w), Durable(w'))
  {
    Unmoved(Durable(w));
    if op.Open? {
      if w.owner.None? { OpenOk(env, w); }
    } else if !op.Stop? && w.owner.Some? {
      OwnerStepKeepsInv(env, w, op);
    }
  }
}

/**
 * Safety of the checkpoint store over whole runs: any sequence of operations by
 * any callers, with publications that succeed, fail before the replace or fail
 * after it, and with crashes and reopens in between.
 */
module CheckpointRuns {

  import opened Common
  import opened CheckpointModel
  import opened CheckpointSafety

  ghost predicate StepAt(env: Env, ws: seq<World>, ops: seq<Op>, i: nat)
    requires i < |ops| && |ws| == |ops| + 1
  {
    Legal(ops[i]) && ws[i + 1] == Step(env, ws[i], ops[i]).0
  }

  /** `ws[i]` is the world before `ops[i]`; the run starts on an empty directory. */
  ghost predicate IsRun(env: Env, ws: seq<World>, ops: seq<Op>) {
    EnvOk(env) && |ws| == |ops| + 1 && ws[0] == World(None, None) &&
    forall i :: 0 <= i < |ops| ==> StepAt(env, ws, ops, i)
  }

  lemma NodeKeepsInv(env: Env, ws: seq<World>, ops: seq<Op>, i: nat)
    requires IsRun(env, ws, ops) && i < |ops| && Inv(env, ws[i])
    ensures Inv(env, ws[i + 1]) && Evolves(Durable(ws[i]), Durable(ws[i + 1]))
  {
    assert StepAt(env, ws, ops, i);
    StepKeepsInv(env, ws[i], ops[i]);
  }

  lemma {:induction false} RunInv(env: Env, ws: seq<World>, ops: seq<Op>, i: nat)
    requires IsRun(env, ws, ops) && i < |ws|
    ensures Inv(env, ws[i])
  {
    if i > 0 {
      RunInv(env, ws, ops, i - 1);
      NodeKeepsInv(env, ws, ops, i - 1);
    }
  }

  lemma EvolvesTrans(a: Records, b: Records, c: Records)
    requires Evolves(a, b) && Evolves(b, c)
    ensures Evolves(a, c)
  {
    forall k | k in a ensures k in c && Follows(a[k], c[k]) {
      assert Follows(a[k], b[k]) && Follows(b[k], c[k]);
    }
  }

  /** Nothing stored is ever lost or taken back to an earlier stage. */
  lemma NodeEvolves(env: Env, ws: seq<World>, ops: seq<Op>, i: nat)
    requires IsRun(env, ws, ops) && i < |ops|
    ensures Evolves(Durable(ws[i]), Durable(ws[i + 1]))
  {
    RunInv(env, ws, ops, i);
    NodeKeepsInv(env, ws, ops, i);
  }

  lemma {:induction false} RunEvolves(env: Env, ws: seq<World>, ops: seq<Op>, i: nat, j: nat)
    requires IsRun(env, ws, ops) && i <= j < |ws|
    ensures Evolves(Durable(ws[i]), Durable(ws[j]))
    decreases j
  {
    if i < j {
      RunEvolves(env, ws, ops, i, j - 1);
      NodeEvolves(env, ws, ops, j - 1);
      EvolvesTrans(Durable(ws[i]), Durable(ws[j - 1]), Durable(ws[j]));
    }
  }

  /** Each stored claim moves claimed -> running -> completed or claimed -> completed, one edge per step. */
  lemma RunMoves(env: Env, ws: seq<World>, ops: seq<Op>, i: nat, k: string)
    requires IsRun(env, ws, ops) && i < |ops| && k in Durable(ws[i])
    ensures k in Durable(ws[i + 1]) && Moves(Durable(ws[i])[k], Durable(ws[i + 1])[k])
  {
    RunInv(env, ws, ops, i);
    assert StepAt(env, ws, ops, i);
    StepKeepsInv(env, ws[i], ops[i]);
  }

  // ----- at most one admission -----

  /** The operation returns a claim that the caller may execute. */
  predicate FreshGrant(env: Env, w: World, op: Op) {
    op.ClaimResume? &&
    var out := Step(env, w, op).1;
    out.error.None? && out.claim.Some? && !out.claim.value.duplicate
  }

  lemma FreshGrantStored(env: Env, w: World, op: Op)
    requires Inv(env, w) && FreshGrant(env, w, op)
    ensures var k := op.req.checkpoint.checkpointID; var d := Durable(w); var w' := Step(env, w, op).0;
      k in d && d[k].claim.None? && !d[k].canceled && k in Durable(w') && Durable(w')[k].claim.Some?
  {
    SuccessIsStored(env, w, op);
    FreshDecision(env, w.owner.value, op.req, op.attempt, op.t);
  }

  lemma FreshDecision(env: Env, o: Owner, req: Request, attempt: string, t: Clock)
    ensures var v := ClaimVerdict(env, o, req, attempt, t); var k := req.checkpoint.checkpointID;
      v.outcome.error.None? && v.outcome.claim.Some? && !v.outcome.claim.value.duplicate ==>
      v.Write? && k in o.records && o.records[k].claim.None? && !o.records[k].canceled &&
      k in v.records && v.records[k].claim == v.outcome.claim
  {
  }

  lemma GrantTakesHold(env: Env, ws: seq<World>, ops: seq<Op>, i: nat)
    requires IsRun(env, ws, ops) && i < |ops| && FreshGrant(env, ws[i], ops[i])
    ensures var k := ops[i].req.checkpoint.checkpointID;
      k in Durable(ws[i]) && Durable(ws[i])[k].claim.None? && !Durable(ws[i])[k].canceled &&
      k in Durable(ws[i + 1]) && Durable(ws[i + 1])[k].claim.Some?
  {
    RunInv(env, ws, ops, i);
    assert StepAt(env, ws, ops, i);
    FreshGrantStored(env, ws[i], ops[i]);
  }

  lemma ClaimStays(env: Env, ws: seq<World>, ops: seq<Op>, i: nat, j: nat, k: string)
    requires IsRun(env, ws, ops) && i <= j < |ws| && k in Durable(ws[i]) && Durable(ws[i])[k].claim.Some?
    ensures k in Durable(ws[j]) && Durable(ws[j])[k].claim.Some?
  {
    RunEvolves(env, ws, ops, i, j);
  }

  /** Over any run, a checkpoint is granted to at most one non-duplicate claim. */
  lemma ClaimedAtMostOnce(env: Env, ws: seq<World>, ops: seq<Op>, i: nat, j: nat)
    requires IsRun(env, ws, ops) && i < j < |ops|
    requires FreshGrant(env, ws[i], ops[i]) && FreshGrant(env, ws[j], ops[j])
    ensures ops[i].req.checkpoint.checkpointID != ops[j].req.checkpoint.checkpointID
  {
    GrantTakesHold(env, ws, ops, i);
    GrantTakesHold(env, ws, ops, j);
    ClaimStays(env, ws, ops, i + 1, j, ops[i].req.checkpoint.checkpointID);
  }

  /** Once a claim is stored, its attempt, request and identity never change. */
  lemma ClaimIdentityNeverChanges(env: Env, ws: seq<World>, ops: seq<Op>, i: nat, j: nat, k: string)
    requires IsRun(env, ws, ops) && i <= j < |ws|
    requires k in Durable(ws[i]) && Durable(ws[i])[k].claim.Some?
    ensures k in Durable(ws[j]) && SameClaim(Durable(ws[i])[k], Durable(ws[j])[k])
    ensures Durable(ws[i])[k].generation <= Durable(ws[j])[k].generation
    ensures ClaimFits(Durable(ws[j])[k].claim.value, Durable(ws[i])[k].checkpoint)
  {
    RunInv(env, ws, ops, j);
    RunEvolves(env, ws, ops, i, j);
    assert RecordInv(env, k, Durable(ws[j])[k]);
  }

  lemma FinalStays(r: Record, r': Record)
    requires Follows(r, r') && Stage(r) == 3
    ensures r' == r
  {
  }

  /** A checkpoint that is claimed at one point of a run is canceled at none, and conversely. */
  lemma NeverClaimedAndCanceled(env: Env, ws: seq<World>, ops: seq<Op>, i: nat, j: nat, k: string)
    requires IsRun(env, ws, ops) && i < |ws| && j < |ws| && k in Durable(ws[i]) && k in Durable(ws[j])
    requires Durable(ws[i])[k].claim.Some?
    ensures !Durable(ws[j])[k].canceled
  {
    RunInv(env, ws, ops, i);
    RunInv(env, ws, ops, j);
    var a, b := Durable(ws[i])[k], Durable(ws[j])[k];
    assert RecordInv(env, k, a) && RecordInv(env, k, b);
    if i <= j {
      RunEvolves(env, ws, ops, i, j);
    } else {
      RunEvolves(env, ws, ops, j, i);
      if b.canceled { FinalStays(b, a); }
    }
  }

  lemma CanceledStays(env: Env, ws: seq<World>, ops: seq<Op>, i: nat, j: nat, k: string)
    requires IsRun(env, ws, ops) && i <= j < |ws| && k in Durable(ws[i]) && Durable(ws[i])[k].canceled
    ensures k in Durable(ws[j]) && Durable(ws[j])[k].canceled
  {
    RunInv(env, ws, ops, i);
    RunEvolves(env, ws, ops, i, j);
    assert RecordInv(env, k, Durable(ws[i])[k]);
    FinalStays(Durable(ws[i])[k], Durable(ws[j])[k]);
  }

  lemma CancelTakesHold(env: Env, ws: seq<World>, ops: seq<Op>, i: nat)
    requires IsRun(env, ws, ops) && i < |ops| && ops[i].Control? && Succeeds(env, ws[i], ops[i])
    ensures ops[i].ref.checkpointID in Durable(ws[i + 1]) && Durable(ws[i + 1])[ops[i].ref.checkpointID].canceled
  {
    RunInv(env, ws, ops, i);
    assert StepAt(env, ws, ops, i);
    CancelStored(env, ws[i], ops[i]);
  }

  /** A cancellation that reports success fences the checkpoint: no later claim on it is ever granted. */
  lemma CancelFencesForever(env: Env, ws: seq<World>, ops: seq<Op>, i: nat, j: nat)
    requires IsRun(env, ws, ops) && i < j < |ops| && ops[i].Control? && Succeeds(env, ws[i], ops[i])
    requires ops[j].ClaimResume? && ops[j].req.checkpoint.checkpointID == ops[i].ref.checkpointID
    ensures !FreshGrant(env, ws[j], ops[j])
  {
    CancelTakesHold(env, ws, ops, i);
    CanceledStays(env, ws, ops, i + 1, j, ops[i].ref.checkpointID);
    if FreshGrant(env, ws[j], ops[j]) { GrantTakesHold(env, ws, ops, j); }
  }

  lemma CancelStored(env: Env, w: World, op: Op)
    requires Inv(env, w) && op.Control? && Succeeds(env, w, op)
    ensures var d := Durable(Step(env, w, op).0); op.ref.checkpointID in d && d[op.ref.checkpointID].canceled
  {
    SuccessIsStored(env, w, op);
    CancelDecision(env, w.owner.value, op.ref, op.generation, op.action, op.t);
  }

  lemma CancelDecision(env: Env, o: Owner, ref: Ref, g: nat, action: ControlAction, t: Clock)
    ensures var v := ControlVerdict(env, o, ref, g, action, t);
      v.outcome.error.None? ==> v.Write? && ref.checkpointID in v.records && v.records[ref.checkpointID].canceled
  {
  }

  // ----- snapshots and failed publications -----

  /**
   * At every point of every run the directory is readable under the same
   * options, and reading it gives the stored records with exactly the
   * unfinished claims marked as recovered.
   */
  lemma PublishedSnapshotReopens(env: Env, ws: seq<World>, ops: seq<Op>, i: nat)
    requires IsRun(env, ws, ops) && i < |ws|
    ensures ReadSnapshot(env, ws[i].disk) == Some(Owner(Durable(ws[i]), UnfinishedKeys(Durable(ws[i])), false))
    ensures ws[i].owner.Some? && !ws[i].owner.value.poisoned ==> ws[i].owner.value.records == Durable(ws[i])
  {
    RunInv(env, ws, ops, i);
    if ws[i].disk.Some? {
      var d := ws[i].disk.value.records;
      forall k | k in d ensures RecordAccepted(env, k, d[k]) { assert RecordInv(env, k, d[k]); }
    } else {
      assert UnfinishedKeys(map[]) == {};
    }
  }

  predicate Poisoned(w: World) { w.owner.Some? && w.owner.value.poisoned }

  /** The owner decides to write, and the publication does not report success. */
  predicate FailsToPublish(env: Env, w: World, op: Op) {
    !op.Stop? && !op.Open? && w.owner.Some? && Decide(env, w.owner.value, op).Write? &&
    !Publish(env, w.disk, Decide(env, w.owner.value, op).records, IOOf(op)).1
  }

  lemma PoisonStep(env: Env, w: World, op: Op)
    ensures Poisoned(Step(env, w, op).0) <==> FailsToPublish(env, w, op) || (Poisoned(w) && !op.Stop?)
  {
    if Poisoned(w) && !op.Stop? { PoisonedOwnerRefuses(env, w, op); }
  }

  lemma PoisonNode(env: Env, ws: seq<World>, ops: seq<Op>, i: nat)
    requires IsRun(env, ws, ops) && i < |ops|
    ensures Poisoned(ws[i + 1]) <==> FailsToPublish(env, ws[i], ops[i]) || (Poisoned(ws[i]) && !ops[i].Stop?)
  {
    assert StepAt(env, ws, ops, i);
    PoisonStep(env, ws[i], ops[i]);
  }

  /** Operation `i` failed to publish and its owner has not been stopped before point `n`. */
  ghost predicate FailedSince(env: Env, ws: seq<World>, ops: seq<Op>, i: nat, n: nat)
    requires i < n <= |ops| <= |ws|
  {
    FailsToPublish(env, ws[i], ops[i]) && forall l :: i < l < n ==> !ops[l].Stop?
  }

  /** The owner at point `n` has failed to publish. */
  ghost predicate HasFailed(env: Env, ws: seq<World>, ops: seq<Op>, n: nat)
    requires n <= |ops| <= |ws|
  {
    exists i :: 0 <= i < n && FailedSince(env, ws, ops, i, n)
  }

  lemma HasFailedNow(env: Env, ws: seq<World>, ops: seq<Op>, i: nat, n: nat)
    requires i < n <= |ops| <= |ws| && FailedSince(env, ws, ops, i, n)
    ensures HasFailed(env, ws, ops, n)
  {
  }

  /** Failed since, one operation later. */
  lemma SinceLonger(env: Env, ws: seq<World>, ops: seq<Op>, i: nat, n: nat)
    requires i + 1 < n <= |ops| <= |ws|
    ensures FailedSince(env, ws, ops, i, n) <==> FailedSince(env, ws, ops, i, n - 1) && !ops[n - 1].Stop?
  {
    if FailedSince(env, ws, ops, i, n) { assert i < n - 1 < n; }
  }

  /**
   * At every point of every run, the owner is poisoned if and only if one of its
   * own publications did not report success.
   */
  lemma {:induction false} PoisonedIffPublishFailed(env: Env, ws: seq<World>, ops: seq<Op>, n: nat)
    requires IsRun(env, ws, ops) && n < |ws|
    ensures Poisoned(ws[n]) <==> HasFailed(env, ws, ops, n)
  {
    if n > 0 {
      PoisonedIffPublishFailed(env, ws, ops, n - 1);
      PoisonNode(env, ws, ops, n - 1);
      if Poisoned(ws[n]) {
        PoisonHasCause(env, ws, ops, n);
      } else {
        HealthyHasNone(env, ws, ops, n);
      }
    }
  }

  lemma PoisonHasCause(env: Env, ws: seq<World>, ops: seq<Op>, n: nat)
    requires 0 < n <= |ops| < |ws|
    requires FailsToPublish(env, ws[n - 1], ops[n - 1]) ||
      (!ops[n - 1].Stop? && HasFailed(env, ws, ops, n - 1))
    ensures HasFailed(env, ws, ops, n)
  {
    if FailsToPublish(env, ws[n - 1], ops[n - 1]) {
      HasFailedNow(env, ws, ops, n - 1, n);
    } else {
      var i :| 0 <= i < n - 1 && FailedSince(env, ws, ops, i, n - 1);
      SinceLonger(env, ws, ops, i, n);
    }
  }

  lemma HealthyHasNone(env: Env, ws: seq<World>, ops: seq<Op>, n: nat)
    requires 0 < n <= |ops| < |ws| && !FailsToPublish(env, ws[n - 1], ops[n - 1])
    requires ops[n - 1].Stop? || !HasFailed(env, ws, ops, n - 1)
    ensures !HasFailed(env, ws, ops, n)
  {
    forall i | 0 <= i < n ensures !FailedSince(env, ws, ops, i, n) {
      if i < n - 1 {
        SinceLonger(env, ws, ops, i, n);
        if FailedSince(env, ws, ops, i, n - 1) { HasFailedNow(env, ws, ops, i, n - 1); }
      }
    }
  }

  lemma PoisonedOwnerRefuses(env: Env, w: World, op: Op)
    requires Poisoned(w) && !op.Stop?
    ensures Step(env, w, op).0 == w && Step(env, w, op).1.error.Some?
  {
  }

  lemma PoisonedNode(env: Env, ws: seq<World>, ops: seq<Op>, i: nat)
    requires IsRun(env, ws, ops) && i < |ops| && Poisoned(ws[i]) && !ops[i].Stop?
    ensures ws[i + 1] == ws[i] && Step(env, ws[i], ops[i]).1.error.Some?
  {
    assert StepAt(env, ws, ops, i);
    PoisonedOwnerRefuses(env, ws[i], ops[i]);
  }

  /** After a failed publication nothing succeeds, and nothing changes, until that owner is gone. */
  lemma {:induction false} PoisonedUntilStopped(env: Env, ws: seq<World>, ops: seq<Op>, i: nat, j: nat)
    requires IsRun(env, ws, ops) && i <= j < |ops| && Poisoned(ws[i])
    requires forall l :: i <= l <= j ==> !ops[l].Stop?
    ensures ws[j] == ws[i] && ws[j + 1] == ws[i]
    ensures Step(env, ws[j], ops[j]).1.error.Some?
    decreases j
  {
    if i < j { PoisonedUntilStopped(env, ws, ops, i, j - 1); }
    PoisonedNode(env, ws, ops, j);
  }

  // ----- fences -----

  /** The operation presents `token`. */
  predicate Presents(op: Op, token: Claim) {
    (op.MarkRunning? || op.Commit?) && op.token == token
  }

  lemma StaleTokenRefused(env: Env, w: World, op: Op, token: Claim)
    requires Inv(env, w) && Presents(op, token)
    requires var k := token.request.checkpoint.checkpointID;
      k in Durable(w) && Durable(w)[k].generation != token.generation
    ensures Step(env, w, op).0 == w && Step(env, w, op).1.error.Some?
  {
    if w.owner.Some? {
      var o := w.owner.value;
      if !o.poisoned { assert o.records == Durable(w); }
    }
  }

  predicate Succeeds(env: Env, w: World, op: Op) {
    Step(env, w, op).1.error.None?
  }

  lemma SettleStores(env: Env, disk: Option<Snapshot>, o: Owner, v: Verdict, io: PublishIO)
    ensures var (w', out) := Settle(env, disk, o, v, io);
      out.error.None? ==> out == v.outcome && w'.disk == (if v.Write? then Some(Seal(env, v.records)) else disk)
  {
  }

  /** A write that reports success is on disk, and a reply changes nothing. */
  lemma SuccessIsStored(env: Env, w: World, op: Op)
    requires Inv(env, w) && w.owner.Some? && !op.Stop? && !op.Open? && Succeeds(env, w, op)
    ensures var v := Decide(env, w.owner.value, op); var (w', out) := Step(env, w, op);
      out == v.outcome && Durable(w') == (if v.Write? then v.records else Durable(w))
    ensures !w.owner.value.poisoned && w.owner.value.records == Durable(w)
  {
    if w.owner.value.poisoned { PoisonedOwnerRefuses(env, w, op); }
    SettleStores(env, w.disk, w.owner.value, Decide(env, w.owner.value, op), IOOf(op));
  }

  /** `c` is the claim stored under its own key, up to the duplicate mark. */
  predicate Current(d: Records, c: Claim) {
    var k := c.request.checkpoint.checkpointID;
    k in d && d[k].claim == Some(c.(duplicate := false)) && d[k].generation == c.generation
  }

  lemma ClaimTokenCurrent(env: Env, o: Owner, req: Request, attempt: string, t: Clock)
    requires AllRecordsOk(env, o.records)
    ensures var v := ClaimVerdict(env, o, req, attempt, t);
      v.outcome.error.None? && v.outcome.claim.Some? ==>
      Current(if v.Write? then v.records else o.records, v.outcome.claim.value)
  {
    var v := ClaimVerdict(env, o, req, attempt, t);
    var k := req.checkpoint.checkpointID;
    if v.Reply? && v.outcome.error.None? && v.outcome.claim.Some? {
      assert RecordInv(env, k, o.records[k]);
    }
  }

  lemma MarkTokenCurrent(env: Env, o: Owner, token: Claim)
    requires AllRecordsOk(env, o.records)
    ensures var v := MarkVerdict(env, o, token);
      v.outcome.error.None? && v.outcome.claim.Some? ==> v.Write? && Current(v.records, v.outcome.claim.value)
  {
    var k := token.request.checkpoint.checkpointID;
    if k in o.records { assert RecordInv(env, k, o.records[k]); }
  }

  lemma CommitTokenCurrent(env: Env, o: Owner, token: Claim, result: ResumeResult, now: Time)
    requires AllRecordsOk(env, o.records)
    ensures var v := CommitVerdict(env, o, token, result, now);
      v.outcome.error.None? && v.outcome.claim.Some? ==> v.Write? && Current(v.records, v.outcome.claim.value)
  {
    var k := token.request.checkpoint.checkpointID;
    if k in o.records { assert RecordInv(env, k, o.records[k]); }
  }

  /** A claim that an operation hands out is the one its record has just been stored with. */
  lemma GrantedTokenIsCurrent(env: Env, w: World, op: Op)
    requires Inv(env, w) && (op.ClaimResume? || op.MarkRunning? || op.Commit?)
    requires Succeeds(env, w, op) && Step(env, w, op).1.claim.Some?
    ensures Current(Durable(Step(env, w, op).0), Step(env, w, op).1.claim.value)
  {
    SuccessIsStored(env, w, op);
    var o := w.owner.value;
    match op
    case ClaimResume(req, attempt, t, _) => ClaimTokenCurrent(env, o, req, attempt, t);
    case MarkRunning(token, _) => MarkTokenCurrent(env, o, token);
    case Commit(token, result, now, _) => CommitTokenCurrent(env, o, token, result, now);
  }

  /** Marking or committing succeeds only with the stored claim's attempt, generation and identity. */
  lemma UsedClaimIsTheStoredOne(env: Env, w: World, op: Op)
    requires Inv(env, w) && (op.MarkRunning? || op.Commit?) && Succeeds(env, w, op)
    ensures var d := Durable(w); var k := op.token.request.checkpoint.checkpointID;
      k in d && d[k].claim.Some? && d[k].claim.value.attemptID == op.token.attemptID &&
      d[k].generation == op.token.generation &&
      env.identityOf(d[k].claim.value.request) == env.identityOf(op.token.request)
  {
    SuccessIsStored(env, w, op);
    var k := op.token.request.checkpoint.checkpointID;
    TokenNeeded(env, w.owner.value, op);
    assert RecordInv(env, k, Durable(w)[k]);
  }

  lemma TokenNeeded(env: Env, o: Owner, op: Op)
    requires op.MarkRunning? || op.Commit?
    ensures Decide(env, o, op).outcome.error.None? ==>
      op.token.request.checkpoint.checkpointID in o.records &&
      TokenMatches(env, o.records[op.token.request.checkpoint.checkpointID], op.token)
  {
  }

  /** A token handed out earlier is dead as soon as its record has moved: it changes nothing, ever again. */
  lemma SupersededTokenIsDead(env: Env, ws: seq<World>, ops: seq<Op>, i: nat, j: nat, l: nat, op: Op)
    requires IsRun(env, ws, ops) && i < j <= l < |ws|
    requires ops[i].ClaimResume? || ops[i].MarkRunning? || ops[i].Commit?
    requires Succeeds(env, ws[i], ops[i]) && Step(env, ws[i], ops[i]).1.claim.Some?
    requires Presents(op, Step(env, ws[i], ops[i]).1.claim.value)
    requires var k := op.token.request.checkpoint.checkpointID;
      k in Durable(ws[i + 1]) && k in Durable(ws[j]) && Durable(ws[j])[k] != Durable(ws[i + 1])[k]
    ensures Step(env, ws[l], op).0 == ws[l] && Step(env, ws[l], op).1.error.Some?
  {
    TokenTakesHold(env, ws, ops, i, op.token);
    RunEvolves(env, ws, ops, i + 1, j);
    RunEvolves(env, ws, ops, j, l);
    MovedOn(Durable(ws[i + 1]), Durable(ws[j]), Durable(ws[l]), op.token.request.checkpoint.checkpointID);
    RunInv(env, ws, ops, l);
    StaleTokenRefused(env, ws[l], op, op.token);
  }

  lemma TokenTakesHold(env: Env, ws: seq<World>, ops: seq<Op>, i: nat, token: Claim)
    requires IsRun(env, ws, ops) && i < |ops|
    requires ops[i].ClaimResume? || ops[i].MarkRunning? || ops[i].Commit?
    requires Succeeds(env, ws[i], ops[i]) && Step(env, ws[i], ops[i]).1.claim == Some(token)
    ensures Current(Durable(ws[i + 1]), token)
  {
    RunInv(env, ws, ops, i);
    assert StepAt(env, ws, ops, i);
    GrantedTokenIsCurrent(env, ws[i], ops[i]);
  }

  lemma MovedOn(a: Records, b: Records, c: Records, k: string)
    requires Evolves(a, b) && Evolves(b, c) && k in a && a[k].claim.Some? && b[k] != a[k]
    ensures k in c && a[k].generation < c[k].generation
  {
    assert Follows(a[k], b[k]) && Follows(b[k], c[k]);
  }

  /** No owner that could finish `k` is left. */
  predicate Fenced(w: World, k: string) {
    k in Durable(w) && Unfinished(Durable(w)[k]) &&
    (w.owner.Some? && !w.owner.value.poisoned ==> k in w.owner.value.recovered)
  }

  predicate Uses(op: Op, k: string) {
    (op.MarkRunning? || op.Commit?) && op.token.request.checkpoint.checkpointID == k
  }

  lemma FencedDecision(env: Env, o: Owner, op: Op, k: string)
    requires !op.Stop? && !op.Open? && k in o.recovered && k in o.records && Unfinished(o.records[k])
    ensures var v := Decide(env, o, op);
      (v.Write? ==> k in v.records && v.records[k] == o.records[k]) &&
      (Uses(op, k) ==> v.Reply? && v.outcome.error.Some?)
  {
  }

  lemma FencedStep(env: Env, w: World, op: Op, k: string)
    requires Inv(env, w) && Fenced(w, k)
    ensures Fenced(Step(env, w, op).0, k) && Durable(Step(env, w, op).0)[k] == Durable(w)[k]
    ensures Uses(op, k) ==> !Succeeds(env, w, op)
  {
    if !op.Stop? && !op.Open? && w.owner.Some? {
      var o := w.owner.value;
      if o.poisoned {
        PoisonedOwnerRefuses(env, w, op);
      } else {
        FencedDecision(env, o, op, k);
        FencedSettle(env, w, Decide(env, o, op), IOOf(op), k);
      }
    }
  }

  lemma FencedSettle(env: Env, w: World, v: Verdict, io: PublishIO, k: string)
    requires Fenced(w, k) && w.owner.Some? && !w.owner.value.poisoned && w.owner.value.records == Durable(w)
    requires v.Write? ==> k in v.records && v.records[k] == Durable(w)[k]
    ensures var w' := Settle(env, w.disk, w.owner.value, v, io).0; Fenced(w', k) && Durable(w')[k] == Durable(w)[k]
  {
  }

  /**
   * A claim left unfinished by a crash stays exactly as it was for the rest of
   * the run: no reopened owner runs it or commits it.
   */
  lemma UnfinishedAtCrashStaysUnfinished(env: Env, ws: seq<World>, ops: seq<Op>, i: nat, j: nat, k: string)
    requires IsRun(env, ws, ops) && i < j < |ws| && ops[i].Stop?
    requires k in Durable(ws[i]) && Unfinished(Durable(ws[i])[k])
    ensures k in Durable(ws[j]) && Durable(ws[j])[k] == Durable(ws[i])[k]
    ensures forall op :: Uses(op, k) ==> !Succeeds(env, ws[j], op)
  {
    assert StepAt(env, ws, ops, i);
    StaysFenced(env, ws, ops, i + 1, j, k);
    RunInv(env, ws, ops, j);
    forall op | Uses(op, k) ensures !Succeeds(env, ws[j], op) { FencedStep(env, ws[j], op, k); }
  }

  lemma FencedNode(env: Env, ws: seq<World>, ops: seq<Op>, i: nat, k: string)
    requires IsRun(env, ws, ops) && i < |ops| && Fenced(ws[i], k)
    ensures Fenced(ws[i + 1], k) && Durable(ws[i + 1])[k] == Durable(ws[i])[k]
  {
    RunInv(env, ws, ops, i);
    assert StepAt(env, ws, ops, i);
    FencedStep(env, ws[i], ops[i], k);
  }

  lemma {:induction false} StaysFenced(env: Env, ws: seq<World>, ops: seq<Op>, i: nat, j: nat, k: string)
    requires IsRun(env, ws, ops) && i <= j < |ws| && Fenced(ws[i], k)
    ensures Fenced(ws[j], k) && Durable(ws[j])[k] == Durable(ws[i])[k]
    decreases j
  {
    if i < j {
      StaysFenced(env, ws, ops, i, j - 1, k);
      FencedNode(env, ws, ops, j - 1, k);
    }
  }

  // ----- duplicates -----

  /**
   * A claim on an already claimed checkpoint changes nothing. It succeeds only
   * for the stored identity and only with the stored result; the same identity
   * without a result is told to recover exactly when the claim was left by a crash.
   */
  lemma DuplicateClaimIsInert(env: Env, w: World, op: Op)
    requires Inv(env, w) && op.ClaimResume? && w.owner.Some? && !w.owner.value.poisoned
    requires var k := op.req.checkpoint.checkpointID; k in Durable(w) && Durable(w)[k].claim.Some?
    ensures var k := op.req.checkpoint.checkpointID; var c := Durable(w)[k].claim.value;
      var (w', out) := Step(env, w, op);
      w' == w &&
      (out.error.None? ==>
         out == Granted(c.(duplicate := true)) && c.result.Some? &&
         env.identityOf(op.req) == env.identityOf(c.request)) &&
      (out.error == Some(RecoveryRequired) ==> c.state == Claimed && k in w.owner.value.recovered) &&
      (out.error == Some(InProgress) ==> c.result.None? && (c.state == Claimed ==> k !in w.owner.value.recovered)) &&
      (out.error == Some(RecoveryRequired) || out.error == Some(InProgress) ==>
         out.claim == Some(c.(duplicate := true)) && env.identityOf(op.req) == env.identityOf(c.request))
  {
    var k := op.req.checkpoint.checkpointID;
    assert RecordInv(env, k, Durable(w)[k]);
    DuplicateDecision(env, w.owner.value, op.req, op.attempt, op.t);
  }

  lemma DuplicateDecision(env: Env, o: Owner, req: Request, attempt: string, t: Clock)
    requires var k := req.checkpoint.checkpointID;
      k in o.records && RecordInv(env, k, o.records[k]) && o.records[k].claim.Some?
    ensures var k := req.checkpoint.checkpointID; var c := o.records[k].claim.value;
      var v := ClaimVerdict(env, o, req, attempt, t);
      v.Reply? && !o.records[k].canceled &&
      (v.outcome.error.None? ==>
         v.outcome == Granted(c.(duplicate := true)) && c.result.Some? &&
         env.identityOf(req) == env.identityOf(c.request)) &&
      (v.outcome.error == Some(RecoveryRequired) ==> c.state == Claimed && k in o.recovered) &&
      (v.outcome.error == Some(InProgress) ==> c.result.None? && (c.state == Claimed ==> k !in o.recovered)) &&
      (v.outcome.error == Some(RecoveryRequired) || v.outcome.error == Some(InProgress) ==>
         v.outcome.claim == Some(c.(duplicate := true)) && env.identityOf(req) == env.identityOf(c.request))
  {
  }

  // ----- replay -----

  /** The caller repeats the request that completed `k`, and the store is able to look at it. */
  predicate RepeatsRequest(env: Env, w: World, k: string, req: Request) {
    w.owner.Some? && !w.owner.value.poisoned && k in Durable(w) &&
    env.requestOk(req) && env.deploymentOk(req.deployment) &&
    req.checkpoint == Durable(w)[k].checkpoint.ref && env.identityOf(req) == Durable(w)[k].identity
  }

  /**
   * A completed claim answers the same identity with the identical result,
   * without changing anything, exactly until both expiry and retention have passed.
   */
  lemma CompletedClaimReplays(env: Env, ws: seq<World>, ops: seq<Op>, i: nat, j: nat, k: string,
                              req: Request, attempt: string, t: Clock, io: PublishIO)
    requires IsRun(env, ws, ops) && i <= j < |ws|
    requires k in Durable(ws[i]) && Durable(ws[i])[k].claim.Some? && Durable(ws[i])[k].claim.value.result.Some?
    requires RepeatsRequest(env, ws[j], k, req)
    ensures var c := Durable(ws[i])[k].claim.value; var ref := Durable(ws[i])[k].checkpoint.ref;
      var (w', out) := Step(env, ws[j], ClaimResume(req, attempt, t, io));
      w' == ws[j] &&
      out == (if t.first < ref.expiresAt || t.second < c.retainedUntil
              then Granted(c.(duplicate := true)) else Fail(Expired))
  {
    CompletedStays(env, ws, ops, i, j, k);
    var r := Durable(ws[i])[k];
    RunInv(env, ws, ops, j);
    ReplayDecision(env, ws[j].owner.value, k, r, req, attempt, t);
  }

  lemma CompletedStays(env: Env, ws: seq<World>, ops: seq<Op>, i: nat, j: nat, k: string)
    requires IsRun(env, ws, ops) && i <= j < |ws|
    requires k in Durable(ws[i]) && Durable(ws[i])[k].claim.Some? && Durable(ws[i])[k].claim.value.result.Some?
    ensures k in Durable(ws[j]) && Durable(ws[j])[k] == Durable(ws[i])[k] && RecordInv(env, k, Durable(ws[i])[k])
  {
    RunInv(env, ws, ops, i);
    RunEvolves(env, ws, ops, i, j);
    assert RecordInv(env, k, Durable(ws[i])[k]);
    FinalStays(Durable(ws[i])[k], Durable(ws[j])[k]);
  }

  lemma ReplayDecision(env: Env, o: Owner, k: string, r: Record, req: Request, attempt: string, t: Clock)
    requires !o.poisoned && k in o.records && o.records[k] == r && RecordInv(env, k, r)
    requires r.claim.Some? && r.claim.value.result.Some?
    requires env.requestOk(req) && env.deploymentOk(req.deployment)
    requires req.checkpoint == r.checkpoint.ref && env.identityOf(req) == r.identity
    ensures ClaimVerdict(env, o, req, attempt, t) ==
      Reply(if t.first < r.checkpoint.ref.expiresAt || t.second < r.claim.value.retainedUntil
            then Granted(r.claim.value.(duplicate := true)) else Fail(Expired))
  {
  }

  // ----- loading -----

  /** The record's result is still retained although the checkpoint has expired. */
  predicate StillReadable(r: Record, t: Clock) {
    t.first < r.checkpoint.ref.expiresAt ||
    (r.claim.Some? && r.claim.value.result.Some? && t.second < r.claim.value.retainedUntil)
  }

  /**
   * A checkpoint saved once loads back unchanged, through any later operations,
   * crashes and reopens, from every healthy owner, exactly while it is readable.
   */
  lemma SavedCheckpointLoads(env: Env, ws: seq<World>, ops: seq<Op>, i: nat, j: nat, t: Clock)
    requires IsRun(env, ws, ops) && i < |ops| && i < j < |ws| && ops[i].Save? && Succeeds(env, ws[i], ops[i])
    requires ops[i].p.ref.checkpointID !in Durable(ws[i])
    requires ws[j].owner.Some? && !ws[j].owner.value.poisoned && env.refOk(ops[i].p.ref)
    ensures var p := ops[i].p; var d := Durable(ws[j]);
      p.ref.checkpointID in d &&
      Step(env, ws[j], Load(p.ref, t)) ==
        (ws[j], if StillReadable(d[p.ref.checkpointID], t) then Outcome(None, None, Some(p)) else Fail(Expired))
  {
    RunInv(env, ws, ops, i);
    RunInv(env, ws, ops, j);
    assert StepAt(env, ws, ops, i);
    SaveStored(env, ws[i], ops[i]);
    RunEvolves(env, ws, ops, i + 1, j);
    var k := ops[i].p.ref.checkpointID;
    assert RecordInv(env, k, Durable(ws[j])[k]);
    LoadDecision(env, ws[j].owner.value, k, Durable(ws[j])[k], t);
  }

  lemma SaveStored(env: Env, w: World, op: Op)
    requires Inv(env, w) && op.Save? && Succeeds(env, w, op) && op.p.ref.checkpointID !in Durable(w)
    ensures var d := Durable(Step(env, w, op).0); op.p.ref.checkpointID in d && d[op.p.ref.checkpointID] == Fresh(op.p)
  {
    SuccessIsStored(env, w, op);
  }

  lemma LoadDecision(env: Env, o: Owner, k: string, r: Record, t: Clock)
    requires !o.poisoned && k in o.records && o.records[k] == r && RecordInv(env, k, r) && env.refOk(r.checkpoint.ref)
    ensures LoadReply(env, o, r.checkpoint.ref, t) ==
      (if StillReadable(r, t) then Outcome(None, None, Some(r.checkpoint)) else Fail(Expired))
  {
  }
}

/**
 * The durable checkpoint store: its entities, the decision each operation takes
 * on the owner's memory, the publication of a snapshot, and the reader that a
 * reopened owner runs. Everything here is a value; `CheckpointStore` holds the
 * imperative owner and `CheckpointSafety` the statements about whole runs.
 */
module CheckpointModel {

  import opened Common

  /** A point on the monotone clock; 0 is the zero time. */
  type Time = nat

  /** An operation may read the clock twice. */
  datatype Clock = Clock(first: Time, second: Time)

  const Day: nat := 86_400_000_000_000
  const Uint64Size: nat := 0x1_0000_0000_0000_0000
  const MaxEnvelopeBytes: nat := 65536
  const MaxReferenceBytes: nat := 256
  const ContinuationVersion: string := "native_continuation.v1"

  datatype Error =
    | Malformed | Invalid | Foreign | Expired | NotFound | Unavailable
    | Conflict | InProgress | RecoveryRequired | Terminal | Corrupt

  /** The ten fields that a successor must inherit from its predecessor. */
  datatype Lineage = Lineage(
    sourceComponent: string, runID: string, sessionID: string,
    parentRunID: string, hostCorrelation: string, authorityDigest: string,
    planDigest: string, writeScopeDigest: string, occurrenceID: string,
    effectNamespace: string)

  datatype PauseReason = InputRequired | ApprovalRequired | BudgetExhausted

  datatype Ref = Ref(
    checkpointID: string, digest: string, ownerNamespace: string, lineage: Lineage,
    pauseReason: PauseReason, sourcePosition: string, predecessor: string,
    resumeAttempt: string, createdAt: Time, expiresAt: Time)

  datatype Budget = Budget(
    revision: string, limit: int, consumed: int, toolLimit: int, toolConsumed: int,
    deadline: Time)

  datatype Checkpoint = Checkpoint(
    ref: Ref, generation: nat, material: string, dependencyProfile: string,
    dependencyRevision: string, mode: string, toolResultRefs: seq<string>,
    completedEntries: int, pendingEntries: int, budget: Budget)

  datatype Request = Request(
    checkpoint: Ref, decision: string, mode: string, dependencyProfile: string,
    dependencyRevision: string, generation: nat, idempotencyKey: string,
    budget: Budget, proposedBudget: Option<Budget>, deployment: string)

  datatype RunState = RunCompleted | RunCanceled | RunFailed | RunInputRequired | RunWorking

  datatype ResumeResult = ResumeResult(
    state: RunState, projection: string, successor: Option<Checkpoint>, errorCode: string)

  datatype ClaimState = Claimed | Running | Completed | Canceled

  datatype Claim = Claim(
    request: Request, attemptID: string, generation: nat, state: ClaimState,
    duplicate: bool, result: Option<ResumeResult>, retainedUntil: Time)

  datatype RecordState = InPersisted | InClaimed | InRunning | InCompleted | InCanceled | InUnknown

  datatype Record = Record(
    checkpoint: Checkpoint, state: RecordState, claim: Option<Claim>, identity: string,
    canceled: bool, generation: nat)

  type Records = map<string, Record>

  datatype Snapshot = Snapshot(version: string, namespace: string, records: Records, checksum: string)

  /**
   * The store's options, with the validators, encoders and digests of the
   * surrounding packages as arbitrary pure functions.
   */
  datatype Env = Env(
    namespace: string, capacity: nat,
    materialBytes: nat, references: nat, entries: nat, envelopeBytes: nat,
    refOk: Ref -> bool, checkpointOk: Checkpoint -> bool, requestOk: Request -> bool,
    deploymentOk: string -> bool, jsonOk: string -> bool,
    envelopeSize: Checkpoint -> nat, snapshotSize: Snapshot -> nat,
    identityOf: Request -> string, digest: Snapshot -> string)

  /** A hexadecimal digest is never the empty string. */
  ghost predicate EnvOk(env: Env) {
    forall req :: env.identityOf(req) != ""
  }

  datatype ControlAction = Cancel | Terminate | Unsupported

  datatype Outcome = Outcome(error: Option<Error>, claim: Option<Claim>, loaded: Option<Checkpoint>)

  function Fail(e: Error): Outcome { Outcome(Some(e), None, None) }

  function Granted(c: Claim): Outcome { Outcome(None, Some(c), None) }

  const Done: Outcome := Outcome(None, None, None)

  /**
   * What an operation decides from the owner's memory: answer at once, or write
   * `records`, publish them and answer `outcome`. When publishing fails the
   * memory becomes `onFailure` and the owner is poisoned.
   */
  datatype Verdict =
    | Reply(outcome: Outcome)
    | Write(records: Records, onFailure: Records, outcome: Outcome)

  /**
   * An owner's memory. `recovered` holds the keys whose record carries the
   * in-memory recovered mark, which is not part of the encoded record.
   */
  datatype Owner = Owner(records: Records, recovered: set<string>, poisoned: bool)

  /** `nextGeneration`, with its 64-bit wrap-around. */
  function NextGeneration(g: nat): nat { (g + 1) % Uint64Size }

  predicate WithinLimits(env: Env, p: Checkpoint) {
    |p.material| <= env.materialBytes && |p.toolResultRefs| <= env.references &&
    p.completedEntries + p.pendingEntries <= env.entries && env.envelopeSize(p) <= env.envelopeBytes
  }

  predicate ResultOk(env: Env, r: ResumeResult) {
    |r.projection| <= MaxEnvelopeBytes && (|r.projection| > 0 ==> env.jsonOk(r.projection)) &&
    |r.errorCode| <= MaxReferenceBytes &&
    (r.successor.None? ==> r.state in {RunCompleted, RunCanceled, RunFailed}) &&
    (r.successor.Some? ==> r.state == RunInputRequired)
  }

  function ValidateRecord(env: Env, r: Record, ref: Ref, allowRetained: bool, t: Clock): Option<Error> {
    if !env.checkpointOk(r.checkpoint) then Some(Invalid)
    else if ref != r.checkpoint.ref then Some(Foreign)
    else if t.first >= r.checkpoint.ref.expiresAt &&
            (!allowRetained || r.claim.None? || r.claim.value.result.None? ||
             t.second >= r.claim.value.retainedUntil) then Some(Expired)
    else None
  }

  // ----- decisions of the individual operations -----

  function Fresh(p: Checkpoint): Record {
    Record(p, InPersisted, None, "", false, p.generation)
  }

  function SaveVerdict(env: Env, o: Owner, p: Checkpoint): Verdict {
    var key := p.ref.checkpointID;
    if !env.checkpointOk(p) then Reply(Fail(Invalid))
    else if p.ref.ownerNamespace != env.namespace then Reply(Fail(Foreign))
    else if !WithinLimits(env, p) then Reply(Fail(Malformed))
    else if o.poisoned then Reply(Fail(Unavailable))
    else if key in o.records then
      Reply(if o.records[key].checkpoint.ref.digest == p.ref.digest then Done else Fail(Conflict))
    else if |o.records| >= env.capacity then Reply(Fail(Unavailable))
    else Write(o.records[key := Fresh(p)], o.records, Done)
  }

  function LoadReply(env: Env, o: Owner, ref: Ref, t: Clock): Outcome {
    if !env.refOk(ref) then Fail(Invalid)
    else if ref.ownerNamespace != env.namespace then Fail(Foreign)
    else if o.poisoned then Fail(Unavailable)
    else if ref.checkpointID !in o.records then Fail(NotFound)
    else
      var r := o.records[ref.checkpointID];
      var e := ValidateRecord(env, r, ref, true, t);
      if e.Some? then Fail(e.value)
      else if env.envelopeSize(r.checkpoint) > env.envelopeBytes then Fail(Corrupt)
      else Outcome(None, None, Some(r.checkpoint))
  }

  function ReadClaimReply(env: Env, o: Owner, ref: Ref, t: Clock): Outcome {
    if !env.refOk(ref) then Fail(Invalid)
    else if ref.ownerNamespace != env.namespace then Fail(Foreign)
    else if o.poisoned then Fail(Unavailable)
    else if ref.checkpointID !in o.records then Fail(NotFound)
    else
      var r := o.records[ref.checkpointID];
      var e := ValidateRecord(env, r, ref, true, t);
      if e.Some? then Fail(e.value)
      else if r.canceled then Fail(Terminal)
      else if r.claim.None? then Fail(NotFound)
      else Granted(r.claim.value.(duplicate := true))
  }

  /** The answer to a claim on a record that already carries one. */
  function DuplicateReply(env: Env, r: Record, recovered: bool, req: Request, t: Clock): Outcome
    requires r.claim.Some?
  {
    var same := r.identity == env.identityOf(req);
    var e := ValidateRecord(env, r, req.checkpoint, r.claim.value.result.Some? && same, t);
    var dup := r.claim.value.(duplicate := true);
    if e.Some? then Fail(e.value)
    else if !same then Fail(Conflict)
    else if dup.result.Some? then Granted(dup)
    else if dup.state == Claimed && recovered then Outcome(Some(RecoveryRequired), Some(dup), None)
    else Outcome(Some(InProgress), Some(dup), None)
  }

  predicate BudgetSpentDiffers(req: Budget, kept: Budget) {
    req.consumed != kept.consumed || req.toolConsumed != kept.toolConsumed ||
    (req.limit > 0 && req.limit < req.consumed) ||
    (req.toolLimit > 0 && req.toolLimit < req.toolConsumed)
  }

  predicate BudgetShrinks(req: Budget, kept: Budget, reason: PauseReason) {
    req.deadline != kept.deadline || req.limit < kept.limit || req.toolLimit < kept.toolLimit ||
    (req != kept && (reason != BudgetExhausted || req.revision == "" || req.revision == kept.revision))
  }

  function ClaimVerdict(env: Env, o: Owner, req: Request, attempt: string, t: Clock): Verdict {
    var key := req.checkpoint.checkpointID;
    if !env.requestOk(req) then Reply(Fail(Invalid))
    else if !env.deploymentOk(req.deployment) then Reply(Fail(Invalid))
    else if req.checkpoint.ownerNamespace != env.namespace then Reply(Fail(Foreign))
    else if o.poisoned then Reply(Fail(Unavailable))
    else if key !in o.records then Reply(Fail(NotFound))
    else
      var r := o.records[key];
      if r.canceled then Reply(Fail(Terminal))
      else if r.claim.Some? then Reply(DuplicateReply(env, r, key in o.recovered, req, t))
      else
        var e := ValidateRecord(env, r, req.checkpoint, false, t);
        if e.Some? then Reply(Fail(e.value))
        else if req.generation != r.checkpoint.generation then Reply(Fail(Conflict))
        else if req.mode != r.checkpoint.mode || req.dependencyProfile != r.checkpoint.dependencyProfile ||
                req.dependencyRevision != r.checkpoint.dependencyRevision then Reply(Fail(Foreign))
        else if BudgetSpentDiffers(req.budget, r.checkpoint.budget) then Reply(Fail(Conflict))
        else if BudgetShrinks(req.budget, r.checkpoint.budget, req.checkpoint.pauseReason) then Reply(Fail(Conflict))
        else
          var g := NextGeneration(r.generation);
          var claim := Claim(req, attempt, g, Claimed, false, None, 0);
          var m := o.records[key := r.(claim := Some(claim), identity := env.identityOf(req),
                                       state := InClaimed, generation := g)];
          Write(m, m, Granted(claim))
  }

  /** The fence in front of every use of a claim: attempt, generation and identity must all match. */
  predicate TokenMatches(env: Env, r: Record, token: Claim) {
    r.claim.Some? && r.claim.value.attemptID == token.attemptID &&
    r.claim.value.generation == token.generation && r.generation == token.generation &&
    r.identity == env.identityOf(token.request)
  }

  function MarkVerdict(env: Env, o: Owner, token: Claim): Verdict {
    var key := token.request.checkpoint.checkpointID;
    if o.poisoned then Reply(Fail(Unavailable))
    else if key !in o.records then Reply(Fail(NotFound))
    else
      var r := o.records[key];
      if !TokenMatches(env, r, token) then Reply(Fail(Conflict))
      else if key in o.recovered then Reply(Fail(RecoveryRequired))
      else
        var c := r.claim.value;
        if c.state == Running then Write(o.records, o.records, Granted(c))
        else if c.state != Claimed then Reply(Fail(Terminal))
        else
          var g := NextGeneration(r.generation);
          var c' := c.(state := Running, generation := g);
          var m := o.records[key := r.(claim := Some(c'), state := InRunning, generation := g)];
          Write(m, m, Granted(c'))
  }

  /** Why a successor checkpoint may not be committed behind `r`, if so. */
  function SuccessorRefusal(env: Env, o: Owner, r: Record, next: Checkpoint, token: Claim): Option<Error> {
    if !env.checkpointOk(next) then Some(Invalid)
    else if !WithinLimits(env, next) then Some(Malformed)
    else if next.ref.ownerNamespace != env.namespace ||
            next.ref.predecessor != r.checkpoint.ref.checkpointID ||
            next.ref.resumeAttempt != token.attemptID then Some(Foreign)
    else if next.ref.lineage != r.checkpoint.ref.lineage then Some(Foreign)
    else if next.ref.checkpointID in o.records then Some(Conflict)
    else if |o.records| >= env.capacity then Some(Unavailable)
    else None
  }

  function Finished(r: Record, result: ResumeResult, now: Time): Record
    requires r.claim.Some?
  {
    var g := NextGeneration(r.generation);
    r.(claim := Some(r.claim.value.(result := Some(result), state := Completed,
                                    retainedUntil := now + Day, generation := g)),
       state := InCompleted, generation := g)
  }

  function WithSuccessor(m: Records, result: ResumeResult): Records {
    match result.successor
    case None => m
    case Some(next) => m[next.ref.checkpointID := Fresh(next)]
  }

  function CommitVerdict(env: Env, o: Owner, token: Claim, result: ResumeResult, now: Time): Verdict {
    var key := token.request.checkpoint.checkpointID;
    if o.poisoned then Reply(Fail(Unavailable))
    else if key !in o.records then Reply(Fail(NotFound))
    else
      var r := o.records[key];
      if !TokenMatches(env, r, token) then Reply(Fail(Conflict))
      else
        var c := r.claim.value;
        if c.result.Some? then
          if c.result.value == result then Write(o.records, o.records, Granted(c))
          else Reply(Fail(Conflict))
        else if key in o.recovered then Reply(Fail(RecoveryRequired))
        else if c.state != Running && c.state != Claimed then Reply(Fail(Terminal))
        else if !ResultOk(env, result) then Reply(Fail(Malformed))
        else
          var no := if result.successor.Some? then SuccessorRefusal(env, o, r, result.successor.value, token) else None;
          if no.Some? then Reply(Fail(no.value))
          else
            var r' := Finished(r, result, now);
            var m := WithSuccessor(o.records, result)[key := r'];
            Write(m, m, Granted(r'.claim.value))
  }

  function ControlVerdict(env: Env, o: Owner, ref: Ref, generation: nat, action: ControlAction, t: Clock): Verdict {
    var key := ref.checkpointID;
    if action.Unsupported? then Reply(Fail(Malformed))
    else if o.poisoned then Reply(Fail(Unavailable))
    else if key !in o.records then Reply(Fail(NotFound))
    else
      var r := o.records[key];
      var e := ValidateRecord(env, r, ref, false, t);
      if e.Some? then Reply(Fail(e.value))
      else if generation != r.checkpoint.generation then Reply(Fail(Conflict))
      else if r.claim.Some? then Reply(Fail(InProgress))
      else
        var m := o.records[key := r.(canceled := true, state := InCanceled)];
        Write(m, m, Done)
  }

  // ----- publishing and reading snapshots -----

  /** How the file system treats one publication. */
  datatype PublishIO = Published | FailedBeforeReplace | FailedAfterReplace

  function Seal(env: Env, m: Records): Snapshot {
    var bare := Snapshot(ContinuationVersion, env.namespace, m, "");
    bare.(checksum := env.digest(bare))
  }

  function MaxSnapshotBytes(env: Env): nat {
    env.capacity * (env.envelopeBytes + 2 * env.materialBytes + 8192)
  }

  /** The directory after publishing `m`, and whether the caller sees success. */
  function Publish(env: Env, disk: Option<Snapshot>, m: Records, io: PublishIO): (Option<Snapshot>, bool) {
    var snap := Seal(env, m);
    if env.snapshotSize(snap) > MaxSnapshotBytes(env) then (disk, false)
    else match io
      case Published => (Some(snap), true)
      case FailedBeforeReplace => (disk, false)
      case FailedAfterReplace => (Some(snap), false)
  }

  predicate RecordStateOk(env: Env, r: Record) {
    if r.state == InPersisted then r.claim.None? && r.identity == "" && !r.canceled
    else if r.canceled then r.state == InCanceled && r.claim.None?
    else
      r.claim.Some? && r.identity != "" && r.claim.value.attemptID != "" && r.generation != 0 &&
      r.claim.value.generation == r.generation && r.claim.value.request.checkpoint == r.checkpoint.ref &&
      env.requestOk(r.claim.value.request) && r.identity == env.identityOf(r.claim.value.request) &&
      (match r.state
       case InClaimed => r.claim.value.state == Claimed && r.claim.value.result.None?
       case InRunning => r.claim.value.state == Running && r.claim.value.result.None?
       case InCompleted => r.claim.value.state == Completed && r.claim.value.result.Some?
       case _ => false) &&
      (r.claim.value.result.Some? ==>
         r.claim.value.retainedUntil != 0 && ResultOk(env, r.claim.value.result.value) &&
         (r.claim.value.result.value.successor.Some? ==>
            env.checkpointOk(r.claim.value.result.value.successor.value)))
  }

  predicate RecordAccepted(env: Env, id: string, r: Record) {
    id == r.checkpoint.ref.checkpointID && r.checkpoint.ref.ownerNamespace == env.namespace &&
    env.checkpointOk(r.checkpoint) && RecordStateOk(env, r) && WithinLimits(env, r.checkpoint)
  }

  predicate Unfinished(r: Record) { r.claim.Some? && r.claim.value.result.None? }

  predicate HeaderAccepted(env: Env, s: Snapshot) {
    env.snapshotSize(s) <= MaxSnapshotBytes(env) && s.version == ContinuationVersion &&
    s.namespace == env.namespace && s.checksum == env.digest(s.(checksum := "")) &&
    |s.records| <= env.capacity
  }

  function UnfinishedKeys(m: Records): set<string> { set k | k in m && Unfinished(m[k]) }

  /** `readSnapshot`: the owner after opening, or None when the file is refused as corrupt. */
  function ReadSnapshot(env: Env, disk: Option<Snapshot>): Option<Owner> {
    match disk
    case None => Some(Owner(map[], {}, false))
    case Some(s) =>
      if HeaderAccepted(env, s) && (forall k :: k in s.records ==> RecordAccepted(env, k, s.records[k]))
      then Some(Owner(s.records, UnfinishedKeys(s.records), false)) else None
  }

  // ----- one step of the world: an owner over a directory -----

  /** The published snapshot and the owner that currently holds the writer lock, if any. */
  datatype World = World(disk: Option<Snapshot>, owner: Option<Owner>)

  datatype Op =
    | Save(p: Checkpoint, io: PublishIO)
    | Load(ref: Ref, t: Clock)
    | ReadClaim(ref: Ref, t: Clock)
    | ClaimResume(req: Request, attempt: string, t: Clock, io: PublishIO)
    | MarkRunning(token: Claim, io: PublishIO)
    | Commit(token: Claim, result: ResumeResult, now: Time, io: PublishIO)
    | Control(ref: Ref, generation: nat, action: ControlAction, t: Clock, io: PublishIO)
    | Stop    // a crash or Close: the owner is gone, the directory stays
    | Open

  function Decide(env: Env, o: Owner, op: Op): Verdict
    requires !op.Stop? && !op.Open?
  {
    match op
    case Save(p, _) => SaveVerdict(env, o, p)
    case Load(ref, t) => Reply(LoadReply(env, o, ref, t))
    case ReadClaim(ref, t) => Reply(ReadClaimReply(env, o, ref, t))
    case ClaimResume(req, attempt, t, _) => ClaimVerdict(env, o, req, attempt, t)
    case MarkRunning(token, _) => MarkVerdict(env, o, token)
    case Commit(token, result, now, _) => CommitVerdict(env, o, token, result, now)
    case Control(ref, g, action, t, _) => ControlVerdict(env, o, ref, g, action, t)
  }

  function IOOf(op: Op): PublishIO {
    if op.Save? || op.ClaimResume? || op.MarkRunning? || op.Commit? || op.Control? then op.io else Published
  }

  /** Carries a verdict out: a write is published, and a failed publication poisons the owner. */
  function Settle(env: Env, disk: Option<Snapshot>, o: Owner, v: Verdict, io: PublishIO): (World, Outcome) {
    match v
    case Reply(out) => (World(disk, Some(o)), out)
    case Write(m, undone, out) =>
      var (disk', ok) := Publish(env, disk, m, io);
      if ok then (World(disk', Some(o.(records := m))), out)
      else (World(disk', Some(o.(records := undone, poisoned := true))), Fail(Unavailable))
  }

  function Step(env: Env, w: World, op: Op): (World, Outcome) {
    match op
    case Stop => (w.(owner := None), Done)
    case Open =>
      if w.owner.Some? then (w, Fail(Unavailable))    // the writer lock is held
      else
        var o := ReadSnapshot(env, w.disk);
        if o.None? then (w, Fail(Corrupt)) else (w.(owner := o), Done)
    case _ =>
      if w.owner.None? then (w, Fail(Unavailable))
      else Settle(env, w.disk, w.owner.value, Decide(env, w.owner.value, op), IOOf(op))
  }

  /** The records that survive a crash at this point. */
  function Durable(w: World): Records {
    if w.disk.Some? then w.disk.value.records else map[]
  }
}

/**
 * The resume path of the runner over the checkpoint store: any number of
 * callers, each with the binding of its own engine, load a checkpoint, claim
 * it, mark it running, execute the continuation and commit its result,
 * interleaved with each other, with other users of the store, with failed
 * publications and with crashes and reopens.
 */
module NativeContinuation {

  import opened Common
  import opened CheckpointModel
  import opened CheckpointSafety
  import opened CheckpointRuns

  // ----- what the engine itself decides -----

  /** The engine's binding; the lineage holds the binding fields, component, run and session excepted. */
  datatype Options = Options(
    ownerNamespace: string, dependencyProfile: string, dependencyRevision: string, binding: Lineage)

  predicate BindingsEqual(a: Lineage, b: Lineage) {
    a.parentRunID == b.parentRunID && a.hostCorrelation == b.hostCorrelation &&
    a.authorityDigest == b.authorityDigest && a.planDigest == b.planDigest &&
    a.writeScopeDigest == b.writeScopeDigest && a.occurrenceID == b.occurrenceID &&
    a.effectNamespace == b.effectNamespace
  }

  /** A loaded checkpoint is resumable by this engine. */
  predicate Resumable(o: Options, p: Checkpoint, mode: string) {
    p.ref.lineage.sourceComponent == "runner" && p.ref.ownerNamespace == o.ownerNamespace &&
    p.dependencyProfile == o.dependencyProfile && p.dependencyRevision == o.dependencyRevision &&
    p.mode == mode && BindingsEqual(p.ref.lineage, o.binding)
  }

  function RequestFor(o: Options, p: Checkpoint, decision: string, key: string, budget: Budget,
                      proposed: Option<Budget>): Request {
    Request(p.ref, decision, p.mode, o.dependencyProfile, o.dependencyRevision, p.generation, key, budget, proposed, "")
  }

  /** The reference that `persistNativePause` gives to a pause of a resumed run. */
  function PauseRef(o: Options, id: string, digest: string, runID: string, sessionID: string, reason: PauseReason,
                    position: string, now: Time, expiry: Time, predecessor: Claim): Ref {
    Ref(id, digest, o.ownerNamespace,
        o.binding.(sourceComponent := "runner", runID := runID, sessionID := sessionID),
        reason, position, predecessor.request.checkpoint.checkpointID, predecessor.attemptID, now, expiry)
  }

  /**
   * A pause of a continuation is never refused as foreign when it is committed
   * behind the checkpoint it resumed; for a runner checkpoint of the same owner
   * and run this holds exactly because the bindings were compared on load.
   */
  lemma PauseInheritsLineage(env: Env, mem: Owner, o: Options, r: Record, token: Claim, next: Checkpoint,
                             digest: string, reason: PauseReason, position: string, now: Time, expiry: Time)
    requires o.ownerNamespace == env.namespace && r.checkpoint.ref.ownerNamespace == env.namespace
    requires r.checkpoint.ref.lineage.sourceComponent == "runner"
    requires token.request.checkpoint == r.checkpoint.ref
    requires next.ref == PauseRef(o, next.ref.checkpointID, digest, r.checkpoint.ref.lineage.runID,
                                  r.checkpoint.ref.lineage.sessionID, reason, position, now, expiry, token)
    requires env.checkpointOk(next) && WithinLimits(env, next)
    ensures SuccessorRefusal(env, mem, r, next, token) == Some(Foreign) <==>
      !BindingsEqual(r.checkpoint.ref.lineage, o.binding)
  {
  }

  // ----- interleaved resumers -----

  datatype Client =
    | Idle
    | Loaded(p: Checkpoint)
    | Holding(token: Claim)      // claimed, not yet marked running
    | Marked(token: Claim)       // marked running, continuation not started
    | Executing(token: Claim)
    | Over

  /** `launched` logs the checkpoint of every continuation that was started. */
  datatype System = System(world: World, clients: map<nat, Client>, launched: seq<string>)

  datatype Act =
    | Other(op: Op)                                              // any other caller, a crash or a reopen
    | Begin(c: nat, o: Options, ref: Ref, mode: string, t: Clock)   // `o`: the binding of the engine that resumes
    | Admit(c: nat, o: Options, decision: string, key: string, budget: Budget, proposed: Option<Budget>,
            attempt: string, t: Clock, io: PublishIO)
    | Mark(c: nat, io: PublishIO)
    | Launch(c: nat, canceled: bool)                             // `canceled`: the run's control was canceled or closed
    | Deliver(c: nat, result: ResumeResult, now: Time, io: PublishIO)

  function ClientOf(s: System, c: nat): Client { if c in s.clients then s.clients[c] else Idle }

  function KeyOf(token: Claim): string { token.request.checkpoint.checkpointID }

  /** The store operation an act performs, if any. */
  function OpOf(s: System, a: Act): Option<Op> {
    match a
    case Other(op) => Some(op)
    case Begin(c, _, ref, _, t) => if ClientOf(s, c).Idle? then Some(Load(ref, t)) else None
    case Admit(c, o, decision, key, budget, proposed, attempt, t, io) =>
      if ClientOf(s, c).Loaded? then
        Some(ClaimResume(RequestFor(o, ClientOf(s, c).p, decision, key, budget, proposed), attempt, t, io))
      else None
    case Mark(c, io) => if ClientOf(s, c).Holding? then Some(MarkRunning(ClientOf(s, c).token, io)) else None
    case Launch(_, _) => None
    case Deliver(c, result, now, io) =>
      if ClientOf(s, c).Executing? then Some(Commit(ClientOf(s, c).token, result, now, io)) else None
  }

  /** The client after its store operation answered `out`. */
  function After(a: Act, out: Outcome): Client
    requires a.Begin? || a.Admit? || a.Mark? || a.Deliver?
  {
    match a
    case Begin(_, o, _, mode, _) =>
      if out.loaded.Some? && Resumable(o, out.loaded.value, mode) then Loaded(out.loaded.value) else Over
    case Admit(_, _, _, _, _, _, _, _, _) =>
      if out.error.None? && out.claim.Some? && !out.claim.value.duplicate then Holding(out.claim.value) else Over
    case Mark(_, _) => if out.error.None? && out.claim.Some? then Marked(out.claim.value) else Over
    case Deliver(_, _, _, _) => Over
  }

  function SystemStep(env: Env, s: System, a: Act): System {
    match OpOf(s, a)
    case Some(op) =>
      var (w', out) := Step(env, s.world, op);
      if a.Other? then s.(world := w')
      else s.(world := w', clients := s.clients[a.c := After(a, out)])
    case None =>
      if a.Launch? && ClientOf(s, a.c).Marked? then
        if a.canceled then s.(clients := s.clients[a.c := Over])
        else
          var token := ClientOf(s, a.c).token;
          System(s.world, s.clients[a.c := Executing(token)], s.launched + [KeyOf(token)])
      else s
  }

  predicate LegalAct(s: System, a: Act) { OpOf(s, a).Some? ==> Legal(OpOf(s, a).value) }

  ghost predicate StepAt(env: Env, ss: seq<System>, acts: seq<Act>, i: nat)
    requires i < |acts| && |ss| == |acts| + 1
  {
    LegalAct(ss[i], acts[i]) && ss[i + 1] == SystemStep(env, ss[i], acts[i])
  }

  ghost predicate IsSystemRun(env: Env, ss: seq<System>, acts: seq<Act>) {
    EnvOk(env) && |ss| == |acts| + 1 && ss[0] == System(World(None, None), map[], []) &&
    forall i :: 0 <= i < |acts| ==> StepAt(env, ss, acts, i)
  }

  // ----- at most one start -----

  /** The client may still start the continuation of `k`. */
  predicate Entitled(cl: Client, k: string) { (cl.Holding? || cl.Marked?) && KeyOf(cl.token) == k }

  predicate ClaimStored(d: Records, k: string) { k in d && d[k].claim.Some? }

  ghost predicate ClientsOk(d: Records, clients: map<nat, Client>, launched: seq<string>) {
    (forall c, k :: c in clients && Entitled(clients[c], k) ==> ClaimStored(d, k) && k !in launched) &&
    (forall c, c', k :: c in clients && c' in clients && Entitled(clients[c], k) && Entitled(clients[c'], k) ==>
       c == c')
  }

  ghost predicate LogOk(d: Records, launched: seq<string>) {
    (forall i :: 0 <= i < |launched| ==> ClaimStored(d, launched[i])) &&
    (forall i, j :: 0 <= i < j < |launched| ==> launched[i] != launched[j])
  }

  ghost predicate SystemInv(env: Env, s: System) {
    Inv(env, s.world) && ClientsOk(Durable(s.world), s.clients, s.launched) && LogOk(Durable(s.world), s.launched)
  }

  lemma StoreStepKeeps(d: Records, d': Records, clients: map<nat, Client>, launched: seq<string>)
    requires Evolves(d, d') && ClientsOk(d, clients, launched) && LogOk(d, launched)
    ensures ClientsOk(d', clients, launched) && LogOk(d', launched)
  {
    forall k | ClaimStored(d, k) ensures ClaimStored(d', k) { assert Follows(d[k], d'[k]); }
  }

  /** A client that gains no entitlement, or keeps the one it had, changes nothing for the others. */
  lemma SetClient(d: Records, clients: map<nat, Client>, launched: seq<string>, c: nat, cl: Client)
    requires ClientsOk(d, clients, launched)
    requires forall k :: Entitled(cl, k) ==> c in clients && Entitled(clients[c], k)
    ensures ClientsOk(d, clients[c := cl], launched)
  {
  }

  lemma GrantClient(d: Records, d': Records, clients: map<nat, Client>, launched: seq<string>, c: nat, cl: Client,
                    key: string)
    requires ClientsOk(d, clients, launched) && LogOk(d, launched) && Evolves(d, d')
    requires cl.Holding? && KeyOf(cl.token) == key && !ClaimStored(d, key) && ClaimStored(d', key)
    ensures ClientsOk(d', clients[c := cl], launched) && LogOk(d', launched)
  {
    StoreStepKeeps(d, d', clients, launched);
    assert forall c' :: c' in clients ==> !Entitled(clients[c'], key);
  }

  lemma LaunchClient(d: Records, clients: map<nat, Client>, launched: seq<string>, c: nat, cl: Client)
    requires ClientsOk(d, clients, launched) && LogOk(d, launched)
    requires c in clients && clients[c].Marked? && !cl.Holding? && !cl.Marked?
    ensures ClientsOk(d, clients[c := cl], launched + [KeyOf(clients[c].token)])
    ensures LogOk(d, launched + [KeyOf(clients[c].token)])
  {
    var key := KeyOf(clients[c].token);
    assert Entitled(clients[c], key);
    var clients' := clients[c := cl];
    forall c', k | c' in clients' && Entitled(clients'[c'], k) ensures ClaimStored(d, k) && k !in launched + [key] {
      assert Entitled(clients[c'], k);
    }
    forall c', c'', k | c' in clients' && c'' in clients' && Entitled(clients'[c'], k) && Entitled(clients'[c''], k)
      ensures c' == c''
    {
      assert Entitled(clients[c'], k) && Entitled(clients[c''], k);
    }
  }

  lemma MarkedTokenKeepsKey(env: Env, w: World, token: Claim, io: PublishIO)
    requires Inv(env, w) && Succeeds(env, w, MarkRunning(token, io))
    requires Step(env, w, MarkRunning(token, io)).1.claim.Some?
    ensures KeyOf(Step(env, w, MarkRunning(token, io)).1.claim.value) == KeyOf(token)
  {
    SuccessIsStored(env, w, MarkRunning(token, io));
    MarkKeepsRequest(env, w.owner.value, token);
    assert RecordInv(env, KeyOf(token), Durable(w)[KeyOf(token)]);
  }

  lemma MarkKeepsRequest(env: Env, o: Owner, token: Claim)
    ensures var v := MarkVerdict(env, o, token); var k := KeyOf(token);
      v.outcome.error.None? && v.outcome.claim.Some? ==>
      k in o.records && o.records[k].claim.Some? &&
      v.outcome.claim.value.request == o.records[k].claim.value.request
  {
  }

  lemma StoreEvolves(env: Env, w: World, op: Op)
    requires Inv(env, w) && Legal(op)
    ensures Inv(env, Step(env, w, op).0) && Evolves(Durable(w), Durable(Step(env, w, op).0))
  {
    StepKeepsInv(env, w, op);
  }

  lemma AdmitKeepsInv(env: Env, s: System, a: Act)
    requires SystemInv(env, s) && LegalAct(s, a) && a.Admit? && OpOf(s, a).Some?
    ensures SystemInv(env, SystemStep(env, s, a))
  {
    var op := OpOf(s, a).value;
    StoreEvolves(env, s.world, op);
    var (w', out) := Step(env, s.world, op);
    var cl := After(a, out);
    if cl.Holding? {
      assert FreshGrant(env, s.world, op);
      FreshGrantStored(env, s.world, op);
      GrantedKey(env, s.world, op);
      GrantClient(Durable(s.world), Durable(w'), s.clients, s.launched, a.c, cl, op.req.checkpoint.checkpointID);
    } else {
      StoreStepKeeps(Durable(s.world), Durable(w'), s.clients, s.launched);
      SetClient(Durable(w'), s.clients, s.launched, a.c, cl);
    }
  }

  lemma GrantedKey(env: Env, w: World, op: Op)
    requires Inv(env, w) && FreshGrant(env, w, op)
    ensures KeyOf(Step(env, w, op).1.claim.value) == op.req.checkpoint.checkpointID
  {
    SuccessIsStored(env, w, op);
    FreshDecision(env, w.owner.value, op.req, op.attempt, op.t);
  }

  lemma MarkKeepsInv(env: Env, s: System, a: Act)
    requires SystemInv(env, s) && LegalAct(s, a) && a.Mark? && OpOf(s, a).Some?
    ensures SystemInv(env, SystemStep(env, s, a))
  {
    var op := OpOf(s, a).value;
    StoreEvolves(env, s.world, op);
    var (w', out) := Step(env, s.world, op);
    if out.error.None? && out.claim.Some? { MarkedTokenKeepsKey(env, s.world, op.token, op.io); }
    StoreStepKeeps(Durable(s.world), Durable(w'), s.clients, s.launched);
    SetClient(Durable(w'), s.clients, s.launched, a.c, After(a, out));
  }

  lemma SystemKeepsInv(env: Env, s: System, a: Act)
    requires SystemInv(env, s) && LegalAct(s, a)
    ensures SystemInv(env, SystemStep(env, s, a))
  {
    if OpOf(s, a).None? {
      if a.Launch? && ClientOf(s, a.c).Marked? {
        if a.canceled {
          SetClient(Durable(s.world), s.clients, s.launched, a.c, Over);
        } else {
          LaunchClient(Durable(s.world), s.clients, s.launched, a.c, Executing(ClientOf(s, a.c).token));
        }
      }
    } else if a.Admit? {
      AdmitKeepsInv(env, s, a);
    } else if a.Mark? {
      MarkKeepsInv(env, s, a);
    } else {
      var op := OpOf(s, a).value;
      StoreEvolves(env, s.world, op);
      var (w', out) := Step(env, s.world, op);
      StoreStepKeeps(Durable(s.world), Durable(w'), s.clients, s.launched);
      if !a.Other? { SetClient(Durable(w'), s.clients, s.launched, a.c, After(a, out)); }
    }
  }

  lemma {:induction false} SystemRunInv(env: Env, ss: seq<System>, acts: seq<Act>, i: nat)
    requires IsSystemRun(env, ss, acts) && i < |ss|
    ensures SystemInv(env, ss[i])
  {
    if i > 0 {
      SystemRunInv(env, ss, acts, i - 1);
      assert StepAt(env, ss, acts, i - 1);
      SystemKeepsInv(env, ss[i - 1], acts[i - 1]);
    }
  }

  /** Whatever the interleaving, failures and crashes, no checkpoint's continuation is started twice. */
  lemma ContinuationStartsAtMostOnce(env: Env, ss: seq<System>, acts: seq<Act>, n: nat, i: nat, j: nat)
    requires IsSystemRun(env, ss, acts) && n < |ss| && i < j < |ss[n].launched|
    ensures ss[n].launched[i] != ss[n].launched[j]
  {
    SystemRunInv(env, ss, acts, n);
  }

  /** A continuation only ever starts under a claim that is already stored. */
  lemma StartedContinuationsAreClaimed(env: Env, ss: seq<System>, acts: seq<Act>, n: nat, i: nat)
    requires IsSystemRun(env, ss, acts) && n < |ss| && i < |ss[n].launched|
    ensures ClaimStored(Durable(ss[n].world), ss[n].launched[i])
  {
    SystemRunInv(env, ss, acts, n);
  }
}

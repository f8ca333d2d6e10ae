/**
 * Commands, responses and waiters of one connection, interleaved. A
 * human-in-the-loop (HITL) command claims a pending request, queues its
 * publication on the barrier of its own response and returns only after the
 * barrier was drained or aborted. Other commands have producers that queue
 * events on the barrier they find under the command's message id.
 */
module HostCommands {

  import opened Common
  import opened HostPending
  import HostBarrier

  datatype Phase =
    | Arriving         // admitted under its message id; readiness and authorization are being checked
    | Working          // its barrier is registered, the command is being carried out
    | Holding          // HITL: the request is claimed, its publication is owed
    | Found(b: nat)    // HITL: the barrier registered under the message id was looked up
    | Answering        // the response or an error is there: the rest is up to the barrier
    | TurnedAway       // not ready or not authorized: answered without a barrier

  /** `reached` are the barriers that the command's producers have looked up, named by the command they belong to. */
  datatype Call = Call(msg: string, hitl: bool, phase: Phase, barrier: HostBarrier.Barrier, reached: set<nat>)

  datatype Waiter = NotWaiting | Waiting(id: string, e: nat) | Blocked(e: nat) | Resolved(e: nat, o: Outcome)

  /** `barriers` says whose barrier is registered under a message id. */
  datatype System = System(
    conn: Connection, holds: map<nat, Hold>, calls: map<nat, Call>, seen: set<string>, barriers: map<string, nat>,
    waiters: map<nat, Waiter>)

  /** The bounds on requests, on message ids and on the items of one barrier, and how ids are trimmed. */
  datatype Settings = Settings(pending: nat, correlation: nat, delivery: nat, trim: string -> string)

  datatype Step =
    | RegisterStep(w: nat, id: string, sessionID: string, runID: string)
    | GiveUpStep(w: nat, why: string)        // timeout, cancellation or failed delivery of the waiter
    | ReceiveStep(w: nat)
    | CloseStep(why: string)
    | RespondStep(k: nat, r: Response)       // a plain response claims its request
    | PublishStep(k: nat)                    // and publishes it
    | AdmitStep(k: nat, msg: string, hitl: bool)
    | TurnAwayStep(k: nat)
    | BeginStep(k: nat)
    | ClaimStep(k: nat, r: Response)
    | RefuseStep(k: nat, why: string)        // HITL: the response to the claimed request cannot be formed
    | LookUpStep(k: nat)                     // HITL: finds the barrier under its message id
    | QueueStep(k: nat)                      // HITL: queues the publication
    | AnswerStep(k: nat)                     // any other command has been carried out
    | ReachStep(k: nat)                      // a producer of such a command looks a barrier up
    | ProduceStep(k: nat, b: nat, bs: HostBarrier.Step)
    | HandlerStep(k: nat, bs: HostBarrier.Step)

  function WaiterOf(s: System, w: nat): Waiter { if w in s.waiters then s.waiters[w] else NotWaiting }

  predicate In(s: System, k: nat, phase: Phase) { k in s.calls && s.calls[k].phase == phase }

  function SetPhase(s: System, k: nat, phase: Phase): System
    requires k in s.calls
  {
    s.(calls := s.calls[k := s.calls[k].(phase := phase)])
  }

  function SetBarrier(s: System, k: nat, b: HostBarrier.Barrier): System
    requires k in s.calls
  {
    s.(calls := s.calls[k := s.calls[k].(barrier := b)])
  }

  /** The function that a claim returns: it publishes when it is called first, and never again. */
  function Publish(s: System, k: nat, o: Outcome): System {
    var h := HoldOf(s.holds, k);
    if h.Owns? then s.(conn := PublishTo(s.conn, h.e, o), holds := s.holds[k := Spent(h.e, o)]) else s
  }

  // ----- waiters -----

  function RegisterIn(s: System, w: nat, id: string, sessionID: string, runID: string): System {
    if WaiterOf(s, w).NotWaiting? then
      var (c, refusal) := Register(s.conn, id, sessionID, runID);
      if refusal.Some? then s
      else s.(conn := c, waiters := s.waiters[w := Waiting(s.conn.trim(id), |s.conn.entries|)])
    else s
  }

  function GiveUpIn(s: System, w: nat, why: string): System {
    if WaiterOf(s, w).Waiting? then
      var x := WaiterOf(s, w);
      var (c, done) := Settle(s.conn, x.id, x.e, Failed(why));
      s.(conn := c, waiters := s.waiters[w := if done then Resolved(x.e, Failed(why)) else Blocked(x.e)])
    else s
  }

  function ReceiveIn(s: System, w: nat): System {
    var x := WaiterOf(s, w);
    if (x.Waiting? || x.Blocked?) && x.e < |s.conn.entries| && s.conn.entries[x.e].published != [] then
      s.(waiters := s.waiters[w := Resolved(x.e, s.conn.entries[x.e].published[0])])
    else s
  }

  // ----- plain responses -----

  function RespondIn(s: System, k: nat, r: Response): System {
    if k in s.holds || k in s.calls then s
    else
      var (c, claim) := Prepare(s.conn, r);
      if claim.Claimed? then s.(conn := c, holds := s.holds[k := Owns(claim.e, r)]) else s
  }

  function PublishIn(s: System, k: nat): System {
    if k !in s.calls && HoldOf(s.holds, k).Owns? then Publish(s, k, Answered(HoldOf(s.holds, k).r)) else s
  }

  // ----- commands -----

  function AdmitIn(s: System, cfg: Settings, k: nat, msg: string, hitl: bool): System {
    if k in s.holds || k in s.calls || msg in s.seen || |s.seen| >= cfg.correlation then s
    else
      var c := Call(msg, hitl, Arriving, HostBarrier.Initial(cfg.delivery), {});
      s.(seen := s.seen + {msg}, calls := s.calls[k := c])
  }

  function TurnAwayIn(s: System, k: nat): System { if In(s, k, Arriving) then SetPhase(s, k, TurnedAway) else s }

  function BeginIn(s: System, k: nat): System {
    if In(s, k, Arriving) then SetPhase(s, k, Working).(barriers := s.barriers[s.calls[k].msg := k]) else s
  }

  function ClaimIn(s: System, k: nat, r: Response): System {
    if In(s, k, Working) && s.calls[k].hitl then
      var (c, claim) := Prepare(s.conn, r);
      if claim.Claimed? then SetPhase(s, k, Holding).(conn := c, holds := s.holds[k := Owns(claim.e, r)])
      else SetPhase(s, k, Answering)
    else s
  }

  /** The handler of `k` returns an error: it goes on to abort its barrier. */
  function GiveUpCommand(s: System, k: nat): System
    requires k in s.calls
  {
    SetBarrier(SetPhase(s, k, Answering), k, HostBarrier.Next(s.calls[k].barrier, HostBarrier.ResponseFails))
  }

  function RefuseIn(s: System, k: nat, why: string): System {
    if In(s, k, Holding) then GiveUpCommand(Publish(s, k, Failed(why)), k) else s
  }

  const ClosedCause: string := "host: connection closed"

  const FullCause: string := "host: delivery queue full"

  function LookUpIn(s: System, k: nat): System {
    if !In(s, k, Holding) then s
    else if s.calls[k].msg in s.barriers then SetPhase(s, k, Found(s.barriers[s.calls[k].msg]))
    else GiveUpCommand(Publish(s, k, Failed(ClosedCause)), k)
  }

  /**
   * Queueing on the barrier that was found; an open barrier gets an empty answer
   * published, a full one closes the connection.
   */
  function QueueIn(s: System, k: nat): System {
    if k in s.calls && s.calls[k].phase.Found? && s.calls[k].phase.b in s.calls then
      var j := s.calls[k].phase.b;
      var b := s.calls[j].barrier;
      if b.open then SetPhase(Publish(s, k, Answered(Empty)), k, Answering)
      else if b.limit > 0 && |b.queue| >= b.limit then
        var t := GiveUpCommand(Publish(s, k, Failed(FullCause)), k);
        t.(conn := Close(t.conn, FullCause))
      else SetPhase(SetBarrier(s, j, HostBarrier.Next(b, HostBarrier.Defer)), k, Answering)
    else s
  }

  function AnswerIn(s: System, k: nat): System {
    if In(s, k, Working) && !s.calls[k].hitl then SetPhase(s, k, Answering) else s
  }

  function ReachIn(s: System, k: nat): System {
    if k in s.calls && !s.calls[k].hitl && s.calls[k].msg in s.barriers then
      s.(calls := s.calls[k := s.calls[k].(reached := s.calls[k].reached + {s.barriers[s.calls[k].msg]})])
    else s
  }

  function ProduceIn(s: System, k: nat, b: nat, bs: HostBarrier.Step): System {
    if k in s.calls && b in s.calls[k].reached && b in s.calls &&
       (bs.Defer? || bs.ProducerAborts? || bs.AbortTaken?) then
      SetBarrier(s, b, HostBarrier.Next(s.calls[b].barrier, bs))
    else s
  }

  /** The item that ends with a step of the handler. */
  function Ends(b: HostBarrier.Barrier, bs: HostBarrier.Step): Option<nat> {
    match bs
    case CommitSucceeds => if b.handler.InHand? then Some(b.handler.item) else None
    case AbortInHand => if b.handler.Failed? then Some(b.handler.item) else None
    case AbortMine(i) => if i in b.mine then Some(i) else None
    case _ => None
  }

  /** A HITL item is the call of the claim's function: with the response on commit, with an error on abort. */
  function ItemEffect(s: System, k: nat, bs: HostBarrier.Step): System
    requires k in s.calls
  {
    var h := HoldOf(s.holds, k);
    if s.calls[k].hitl && Ends(s.calls[k].barrier, bs).Some? && h.Owns? then
      Publish(s, k, if bs.CommitSucceeds? then Answered(h.r) else Failed(ClosedCause))
    else s
  }

  /** The handler has returned: its barrier is no longer registered. */
  function Unregister(s: System, k: nat): System
    requires k in s.calls
  {
    var msg := s.calls[k].msg;
    if s.calls[k].barrier.handler.Over? && msg in s.barriers && s.barriers[msg] == k then
      s.(barriers := s.barriers - {msg})
    else s
  }

  /** Committing a publication cannot fail. */
  predicate HandlerMay(c: Call, bs: HostBarrier.Step) {
    c.phase.Answering? && !bs.Defer? && !bs.ProducerAborts? && !bs.AbortTaken? && !(c.hitl && bs.CommitFails?)
  }

  function HandlerIn(s: System, k: nat, bs: HostBarrier.Step): System {
    if k in s.calls && HandlerMay(s.calls[k], bs) then
      Unregister(SetBarrier(ItemEffect(s, k, bs), k, HostBarrier.Next(s.calls[k].barrier, bs)), k)
    else s
  }

  function Next(s: System, cfg: Settings, step: Step): System {
    match step
    case RegisterStep(w, id, sessionID, runID) => RegisterIn(s, w, id, sessionID, runID)
    case GiveUpStep(w, why) => GiveUpIn(s, w, why)
    case ReceiveStep(w) => ReceiveIn(s, w)
    case CloseStep(why) => s.(conn := Close(s.conn, why))
    case RespondStep(k, r) => RespondIn(s, k, r)
    case PublishStep(k) => PublishIn(s, k)
    case AdmitStep(k, msg, hitl) => AdmitIn(s, cfg, k, msg, hitl)
    case TurnAwayStep(k) => TurnAwayIn(s, k)
    case BeginStep(k) => BeginIn(s, k)
    case ClaimStep(k, r) => ClaimIn(s, k, r)
    case RefuseStep(k, why) => RefuseIn(s, k, why)
    case LookUpStep(k) => LookUpIn(s, k)
    case QueueStep(k) => QueueIn(s, k)
    case AnswerStep(k) => AnswerIn(s, k)
    case ReachStep(k) => ReachIn(s, k)
    case ProduceStep(k, b, bs) => ProduceIn(s, k, b, bs)
    case HandlerStep(k, bs) => HandlerIn(s, k, bs)
  }

  function Start(cfg: Settings): System {
    System(Connection(map[], [], false, cfg.pending, cfg.trim), map[], map[], {}, map[], map[])
  }

  ghost predicate StepAt(ss: seq<System>, cfg: Settings, steps: seq<Step>, i: nat)
    requires i < |steps| && |ss| == |steps| + 1
  {
    ss[i + 1] == Next(ss[i], cfg, steps[i])
  }

  ghost predicate IsRun(ss: seq<System>, cfg: Settings, steps: seq<Step>) {
    |ss| == |steps| + 1 && ss[0] == Start(cfg) && forall i :: 0 <= i < |steps| ==> StepAt(ss, cfg, steps, i)
  }

  // ----- the invariant -----

  ghost predicate WaitersOk(c: Connection, ws: map<nat, Waiter>) {
    forall w :: w in ws ==>
      match ws[w]
      case NotWaiting => true
      case Waiting(id, e) => e < |c.entries| && c.entries[e].requestID == id
      case Blocked(e) => e < |c.entries|
      case Resolved(e, o) => e < |c.entries| && c.entries[e].published == [o]
  }

  /** Message ids name calls, and a call that is at work finds its own barrier under its own id and nobody else's. */
  ghost predicate NamesOk(calls: map<nat, Call>, seen: set<string>, barriers: map<string, nat>) {
    (forall k :: k in calls ==> calls[k].msg in seen) &&
    (forall k, l :: k in calls && l in calls && calls[k].msg == calls[l].msg ==> k == l) &&
    (forall m :: m in barriers ==> barriers[m] in calls && calls[barriers[m]].msg == m) &&
    (forall k :: k in calls && AtWork(calls[k]) ==> calls[k].msg in barriers) &&
    (forall k :: k in calls ==> calls[k].reached <= {k} && (calls[k].hitl ==> calls[k].reached == {}))
  }

  predicate AtWork(c: Call) {
    c.phase.Working? || c.phase.Holding? || c.phase.Found? || (c.phase.Answering? && !c.barrier.handler.Over?)
  }

  /** A HITL command and the publication it owes: nothing but its own publication is ever on its barrier. */
  ghost predicate HitlOk(k: nat, c: Call, h: Hold, limit: nat) {
    match c.phase
    case Arriving => h.Free? && c.barrier == HostBarrier.Initial(limit)
    case Working => h.Free? && c.barrier == HostBarrier.Initial(limit)
    case TurnedAway => h.Free?
    case Holding => h.Owns? && c.barrier == HostBarrier.Initial(limit)
    case Found(b) => b == k && h.Owns? && c.barrier == HostBarrier.Initial(limit)
    case Answering => QueuedOk(c.barrier, h)
  }

  ghost predicate QueuedOk(b: HostBarrier.Barrier, h: Hold) {
    b.taken == {} && b.accepted <= 1 && (h.Free? ==> b.accepted == 0) &&
    (h.Owns? ==> b.accepted == 1 && 0 !in HostBarrier.Ended(b)) &&
    (h.Spent? && b.accepted == 1 ==> 0 in HostBarrier.Ended(b)) &&
    (h.Spent? && h.o.Answered? ==> b.committed != [])
  }

  ghost predicate CallOk(k: nat, c: Call, h: Hold, limit: nat) {
    if c.hitl then HitlOk(k, c, h, limit) else h.Free? && !c.phase.Holding? && !c.phase.Found?
  }

  ghost predicate CallsOk(calls: map<nat, Call>, hs: map<nat, Hold>, limit: nat) {
    forall k :: k in calls ==> CallOk(k, calls[k], HoldOf(hs, k), limit)
  }

  ghost predicate BarriersOk(calls: map<nat, Call>) {
    forall k :: k in calls ==> HostBarrier.Inv(calls[k].barrier)
  }

  ghost predicate Inv(s: System, cfg: Settings) {
    OwnersOk(s.conn, s.holds) && WaitersOk(s.conn, s.waiters) && NamesOk(s.calls, s.seen, s.barriers) &&
    CallsOk(s.calls, s.holds, cfg.delivery) && s.conn.trim == cfg.trim
  }

  // ----- every step keeps it -----

  lemma RegisterStepKeeps(s: System, cfg: Settings, w: nat, id: string, sessionID: string, runID: string)
    requires Inv(s, cfg)
    ensures Inv(RegisterIn(s, w, id, sessionID, runID), cfg)
  {
    RegisterKeeps(s.conn, s.holds, id, sessionID, runID);
  }

  lemma GiveUpStepKeeps(s: System, cfg: Settings, w: nat, why: string)
    requires Inv(s, cfg)
    ensures Inv(GiveUpIn(s, w, why), cfg)
  {
    if WaiterOf(s, w).Waiting? { SettleKeeps(s.conn, s.holds, WaiterOf(s, w).id, WaiterOf(s, w).e, why); }
  }

  lemma CloseStepKeeps(s: System, cfg: Settings, why: string)
    requires Inv(s, cfg)
    ensures Inv(s.(conn := Close(s.conn, why)), cfg)
  {
    CloseKeeps(s.conn, s.holds, why);
  }

  /** Publishing what `k` owes leaves the waiters, and the holds of all other calls, as they are. */
  lemma PublishOwners(s: System, k: nat, o: Outcome)
    requires OwnersOk(s.conn, s.holds) && WaitersOk(s.conn, s.waiters)
    requires HoldOf(s.holds, k).Owns? && (o.Failed? || o.response == HoldOf(s.holds, k).r)
    ensures var t := Publish(s, k, o); OwnersOk(t.conn, t.holds) && WaitersOk(t.conn, t.waiters)
  {
    PublishKeeps(s.conn, s.holds, k, o);
  }

  lemma ClaimOwners(s: System, k: nat, r: Response)
    requires OwnersOk(s.conn, s.holds) && WaitersOk(s.conn, s.waiters) && HoldOf(s.holds, k).Free?
    requires Prepare(s.conn, r).1.Claimed?
    ensures OwnersOk(Prepare(s.conn, r).0, s.holds[k := Owns(Prepare(s.conn, r).1.e, r)])
    ensures WaitersOk(Prepare(s.conn, r).0, s.waiters)
  {
    ClaimKeeps(s.conn, s.holds, k, r);
  }

  /** Changing one call and what it holds. */
  lemma CallsUpdate(s: System, k: nat, c: Call, h: Hold, limit: nat)
    requires CallsOk(s.calls, s.holds, limit) && CallOk(k, c, h, limit)
    ensures CallsOk(s.calls[k := c], s.holds[k := h], limit)
  {
    var calls, hs := s.calls[k := c], s.holds[k := h];
    HoldUpdate(s.holds, k, h);
    forall l | l in calls ensures CallOk(l, calls[l], HoldOf(hs, l), limit) {
      if l != k { assert CallOk(l, s.calls[l], HoldOf(s.holds, l), limit); }
    }
  }

  /** Changing one call that keeps what it holds. */
  lemma CallUpdate(s: System, k: nat, c: Call, limit: nat)
    requires CallsOk(s.calls, s.holds, limit) && CallOk(k, c, HoldOf(s.holds, k), limit)
    ensures CallsOk(s.calls[k := c], s.holds, limit)
  {
    var calls := s.calls[k := c];
    forall l | l in calls ensures CallOk(l, calls[l], HoldOf(s.holds, l), limit) {
      if l != k { assert CallOk(l, s.calls[l], HoldOf(s.holds, l), limit); }
    }
  }

  /** What a plain response holds is no concern of the commands. */
  lemma CallsElsewhere(s: System, k: nat, h: Hold, limit: nat)
    requires CallsOk(s.calls, s.holds, limit) && k !in s.calls
    ensures CallsOk(s.calls, s.holds[k := h], limit)
  {
    HoldUpdate(s.holds, k, h);
    forall l | l in s.calls ensures CallOk(l, s.calls[l], HoldOf(s.holds[k := h], l), limit) {
      assert CallOk(l, s.calls[l], HoldOf(s.holds, l), limit);
    }
  }

  lemma NamesUpdate(s: System, k: nat, c: Call)
    requires NamesOk(s.calls, s.seen, s.barriers) && k in s.calls && c.msg == s.calls[k].msg
    requires c.hitl == s.calls[k].hitl
    requires c.reached <= {k} && (c.hitl ==> c.reached == {}) && (AtWork(c) ==> c.msg in s.barriers)
    ensures NamesOk(s.calls[k := c], s.seen, s.barriers)
  {
  }

  lemma RespondKeeps(s: System, cfg: Settings, k: nat, r: Response)
    requires Inv(s, cfg)
    ensures Inv(RespondIn(s, k, r), cfg)
  {
    var claim := Prepare(s.conn, r).1;
    if k !in s.holds && k !in s.calls && claim.Claimed? {
      ClaimOwners(s, k, r);
      CallsElsewhere(s, k, Owns(claim.e, r), cfg.delivery);
    }
  }

  lemma PublishStepKeeps(s: System, cfg: Settings, k: nat)
    requires Inv(s, cfg)
    ensures Inv(PublishIn(s, k), cfg)
  {
    var h := HoldOf(s.holds, k);
    if k !in s.calls && h.Owns? {
      PublishOwners(s, k, Answered(h.r));
      CallsElsewhere(s, k, Spent(h.e, Answered(h.r)), cfg.delivery);
    }
  }

  lemma AdmitNames(s: System, k: nat, c: Call)
    requires NamesOk(s.calls, s.seen, s.barriers) && k !in s.calls && c.msg !in s.seen && c.phase.Arriving?
    requires c.reached == {}
    ensures NamesOk(s.calls[k := c], s.seen + {c.msg}, s.barriers)
  {
  }

  lemma AdmitKeeps(s: System, cfg: Settings, k: nat, msg: string, hitl: bool)
    requires Inv(s, cfg)
    ensures Inv(AdmitIn(s, cfg, k, msg, hitl), cfg)
  {
    if AdmitIn(s, cfg, k, msg, hitl) != s {
      var c := Call(msg, hitl, Arriving, HostBarrier.Initial(cfg.delivery), {});
      AdmitNames(s, k, c);
      CallUpdate(s, k, c, cfg.delivery);
    }
  }

  predicate SameName(c: Call, d: Call) { d.msg == c.msg && d.hitl == c.hitl && d.reached == c.reached }

  /** One command moves on and keeps what it holds. */
  lemma MoveKeeps(s: System, cfg: Settings, k: nat, d: Call)
    requires Inv(s, cfg) && k in s.calls && SameName(s.calls[k], d) && (AtWork(d) ==> d.msg in s.barriers)
    requires CallOk(k, d, HoldOf(s.holds, k), cfg.delivery)
    ensures Inv(s.(calls := s.calls[k := d]), cfg)
  {
    CallUpdate(s, k, d, cfg.delivery);
    NamesUpdate(s, k, d);
  }

  /** One command moves on and publishes what it owes. */
  lemma SpendKeeps(s: System, cfg: Settings, k: nat, d: Call, o: Outcome)
    requires Inv(s, cfg) && k in s.calls && SameName(s.calls[k], d) && (AtWork(d) ==> d.msg in s.barriers)
    requires HoldOf(s.holds, k).Owns? && (o.Failed? || o.response == HoldOf(s.holds, k).r)
    requires CallOk(k, d, Spent(HoldOf(s.holds, k).e, o), cfg.delivery)
    ensures Inv(Publish(s, k, o).(calls := s.calls[k := d]), cfg)
  {
    PublishOwners(s, k, o);
    CallsUpdate(s, k, d, Spent(HoldOf(s.holds, k).e, o), cfg.delivery);
    NamesUpdate(s, k, d);
  }

  lemma TurnAwayKeeps(s: System, cfg: Settings, k: nat)
    requires Inv(s, cfg) && In(s, k, Arriving)
    ensures Inv(SetPhase(s, k, TurnedAway), cfg)
  {
    assert CallOk(k, s.calls[k], HoldOf(s.holds, k), cfg.delivery);
    MoveKeeps(s, cfg, k, s.calls[k].(phase := TurnedAway));
  }

  lemma BeginNames(s: System, k: nat)
    requires NamesOk(s.calls, s.seen, s.barriers) && k in s.calls
    ensures NamesOk(s.calls, s.seen, s.barriers[s.calls[k].msg := k])
  {
  }

  lemma BeginKeeps(s: System, cfg: Settings, k: nat)
    requires Inv(s, cfg) && In(s, k, Arriving)
    ensures Inv(BeginIn(s, k), cfg)
  {
    assert CallOk(k, s.calls[k], HoldOf(s.holds, k), cfg.delivery);
    BeginNames(s, k);
    MoveKeeps(s.(barriers := s.barriers[s.calls[k].msg := k]), cfg, k, s.calls[k].(phase := Working));
  }

  lemma ClaimedCall(k: nat, c: Call, h: Hold, g: Hold, limit: nat)
    requires CallOk(k, c, h, limit) && c.hitl && c.phase.Working? && g.Owns?
    ensures CallOk(k, c.(phase := Holding), g, limit) && CallOk(k, c.(phase := Answering), h, limit)
  {
  }

  lemma ClaimStepKeeps(s: System, cfg: Settings, k: nat, r: Response)
    requires Inv(s, cfg) && In(s, k, Working) && s.calls[k].hitl
    ensures Inv(ClaimIn(s, k, r), cfg)
  {
    var c, claim := s.calls[k], Prepare(s.conn, r).1;
    assert CallOk(k, c, HoldOf(s.holds, k), cfg.delivery);
    var g := Owns(if claim.Claimed? then claim.e else 0, r);
    ClaimedCall(k, c, HoldOf(s.holds, k), g, cfg.delivery);
    if claim.Claimed? {
      ClaimOwners(s, k, r);
      CallsUpdate(s, k, c.(phase := Holding), g, cfg.delivery);
      NamesUpdate(s, k, c.(phase := Holding));
    } else {
      MoveKeeps(s, cfg, k, c.(phase := Answering));
    }
  }

  function GivenUp(c: Call): Call {
    c.(phase := Answering, barrier := HostBarrier.Next(c.barrier, HostBarrier.ResponseFails))
  }

  lemma RefuseIs(s: System, k: nat, why: string)
    requires In(s, k, Holding)
    ensures RefuseIn(s, k, why) == Publish(s, k, Failed(why)).(calls := s.calls[k := GivenUp(s.calls[k])])
  {
  }

  lemma RefusedCall(k: nat, c: Call, h: Hold, g: Hold, limit: nat)
    requires CallOk(k, c, h, limit) && c.hitl && c.phase.Holding? && g.Spent? && g.o.Failed?
    ensures CallOk(k, GivenUp(c), g, limit)
  {
  }

  lemma RefuseKeeps(s: System, cfg: Settings, k: nat, why: string)
    requires Inv(s, cfg) && In(s, k, Holding)
    ensures Inv(RefuseIn(s, k, why), cfg)
  {
    var c, h := s.calls[k], HoldOf(s.holds, k);
    assert CallOk(k, c, h, cfg.delivery);
    FindsItsOwnBarrier(s, cfg, k);
    RefusedCall(k, c, h, Spent(h.e, Failed(why)), cfg.delivery);
    RefuseIs(s, k, why);
    SpendKeeps(s, cfg, k, GivenUp(c), Failed(why));
  }

  /**
   * The barrier that a HITL command finds under its message id is its own,
   * closed and empty: its publication is always queued.
   */
  lemma FindsItsOwnBarrier(s: System, cfg: Settings, k: nat)
    requires Inv(s, cfg) && k in s.calls && (s.calls[k].phase.Holding? || s.calls[k].phase.Found?)
    ensures s.calls[k].msg in s.barriers && s.barriers[s.calls[k].msg] == k
    ensures s.calls[k].phase.Found? ==> s.calls[k].phase.b == k
    ensures s.calls[k].hitl && s.calls[k].barrier == HostBarrier.Initial(cfg.delivery) && HoldOf(s.holds, k).Owns?
  {
    assert CallOk(k, s.calls[k], HoldOf(s.holds, k), cfg.delivery);
    assert AtWork(s.calls[k]);
  }

  lemma LookUpKeeps(s: System, cfg: Settings, k: nat)
    requires Inv(s, cfg) && In(s, k, Holding)
    ensures Inv(LookUpIn(s, k), cfg)
  {
    FindsItsOwnBarrier(s, cfg, k);
    assert CallOk(k, s.calls[k], HoldOf(s.holds, k), cfg.delivery);
    MoveKeeps(s, cfg, k, s.calls[k].(phase := Found(k)));
  }

  function WithItem(c: Call): Call { c.(phase := Answering, barrier := HostBarrier.Next(c.barrier, HostBarrier.Defer)) }

  lemma QueueIs(s: System, k: nat, limit: nat)
    requires In(s, k, Found(k)) && s.calls[k].barrier == HostBarrier.Initial(limit)
    ensures QueueIn(s, k) == s.(calls := s.calls[k := WithItem(s.calls[k])])
  {
  }

  lemma QueuedCall(k: nat, c: Call, h: Hold, limit: nat)
    requires CallOk(k, c, h, limit) && c.hitl && c.phase.Found?
    ensures CallOk(k, WithItem(c), h, limit)
  {
  }

  lemma QueueKeeps(s: System, cfg: Settings, k: nat)
    requires Inv(s, cfg) && k in s.calls && s.calls[k].phase.Found?
    ensures Inv(QueueIn(s, k), cfg)
  {
    var c, h := s.calls[k], HoldOf(s.holds, k);
    FindsItsOwnBarrier(s, cfg, k);
    assert CallOk(k, c, h, cfg.delivery);
    QueuedCall(k, c, h, cfg.delivery);
    QueueIs(s, k, cfg.delivery);
    MoveKeeps(s, cfg, k, WithItem(c));
  }

  lemma AnswerKeeps(s: System, cfg: Settings, k: nat)
    requires Inv(s, cfg) && In(s, k, Working) && !s.calls[k].hitl
    ensures Inv(SetPhase(s, k, Answering), cfg)
  {
    assert CallOk(k, s.calls[k], HoldOf(s.holds, k), cfg.delivery);
    MoveKeeps(s, cfg, k, s.calls[k].(phase := Answering));
  }

  lemma ReachKeeps(s: System, cfg: Settings, k: nat)
    requires Inv(s, cfg)
    ensures Inv(ReachIn(s, k), cfg)
  {
    if ReachIn(s, k) != s {
      assert CallOk(k, s.calls[k], HoldOf(s.holds, k), cfg.delivery);
      assert s.barriers[s.calls[k].msg] == k;
      var c := s.calls[k].(reached := s.calls[k].reached + {k});
      CallUpdate(s, k, c, cfg.delivery);
      NamesUpdate(s, k, c);
    }
  }

  lemma NotWokenUp(b: HostBarrier.Barrier, bs: HostBarrier.Step)
    requires b.handler.Over?
    ensures HostBarrier.Next(b, bs).handler.Over?
  {
  }

  lemma ProduceKeeps(s: System, cfg: Settings, k: nat, b: nat, bs: HostBarrier.Step)
    requires Inv(s, cfg)
    ensures Inv(ProduceIn(s, k, b, bs), cfg)
  {
    if ProduceIn(s, k, b, bs) != s {
      assert b == k && !s.calls[k].hitl;
      var c := s.calls[k];
      assert CallOk(k, c, HoldOf(s.holds, k), cfg.delivery);
      if c.barrier.handler.Over? { NotWokenUp(c.barrier, bs); }
      MoveKeeps(s, cfg, k, c.(barrier := HostBarrier.Next(c.barrier, bs)));
    }
  }

  /** The end of an item shows on the barrier, and only then. */
  lemma EndsShow(b: HostBarrier.Barrier, bs: HostBarrier.Step)
    requires HostBarrier.Inv(b) && !bs.AbortTaken?
    ensures HostBarrier.Ended(HostBarrier.Next(b, bs)) ==
      HostBarrier.Ended(b) + (if Ends(b, bs).Some? then {Ends(b, bs).value} else {})
    ensures Ends(b, bs).Some? ==> Ends(b, bs).value < b.accepted && Ends(b, bs).value !in HostBarrier.Ended(b)
  {
    if Ends(b, bs).Some? {
      var i := Ends(b, bs).value;
      assert i in HostBarrier.Held(b);
      assert i in HostBarrier.Numbers(b.accepted);
      HostBarrier.ElementsSnoc(b.committed, i);
      HostBarrier.ElementsSnoc(b.aborted, i);
    }
  }

  /** What a HITL command holds after a step of its handler. */
  function HoldAfter(h: Hold, b: HostBarrier.Barrier, bs: HostBarrier.Step): Hold {
    if Ends(b, bs).Some? && h.Owns? then Spent(h.e, if bs.CommitSucceeds? then Answered(h.r) else Failed(ClosedCause))
    else h
  }

  lemma HandlerQueued(b: HostBarrier.Barrier, h: Hold, bs: HostBarrier.Step)
    requires HostBarrier.Inv(b) && QueuedOk(b, h) && !bs.Defer? && !bs.ProducerAborts? && !bs.AbortTaken?
    ensures QueuedOk(HostBarrier.Next(b, bs), HoldAfter(h, b, bs))
  {
    EndsShow(b, bs);
  }

  lemma HandledCall(k: nat, c: Call, h: Hold, bs: HostBarrier.Step, limit: nat)
    requires CallOk(k, c, h, limit) && HandlerMay(c, bs) && HostBarrier.Inv(c.barrier)
    ensures CallOk(k, c.(barrier := HostBarrier.Next(c.barrier, bs)),
                   if c.hitl then HoldAfter(h, c.barrier, bs) else h, limit)
  {
    if c.hitl { HandlerQueued(c.barrier, h, bs); }
  }

  /** Once a handler is over its barrier leaves the register. */
  lemma UnregisterKeeps(s: System, cfg: Settings, k: nat)
    requires Inv(s, cfg) && k in s.calls && s.calls[k].phase.Answering?
    ensures Inv(Unregister(s, k), cfg)
  {
    if Unregister(s, k) != s { UnregisterNames(s, k); }
  }

  lemma UnregisterNames(s: System, k: nat)
    requires NamesOk(s.calls, s.seen, s.barriers) && k in s.calls && !AtWork(s.calls[k])
    ensures NamesOk(s.calls, s.seen, s.barriers - {s.calls[k].msg})
  {
  }

  /** The handler's step on its barrier, with the publication it may carry out. */
  function HandledOne(s: System, k: nat, d: Call, g: Hold): System
    requires k in s.calls
  {
    (if g.Spent? && g != HoldOf(s.holds, k) then Publish(s, k, g.o) else s).(calls := s.calls[k := d])
  }

  lemma HandlerIs(s: System, k: nat, bs: HostBarrier.Step)
    requires k in s.calls && HandlerMay(s.calls[k], bs)
    ensures var c, h := s.calls[k], HoldOf(s.holds, k);
      var g := if c.hitl then HoldAfter(h, c.barrier, bs) else h;
      HandlerIn(s, k, bs) == Unregister(HandledOne(s, k, c.(barrier := HostBarrier.Next(c.barrier, bs)), g), k)
  {
  }

  lemma HandledOneKeeps(s: System, cfg: Settings, k: nat, d: Call, g: Hold)
    requires Inv(s, cfg) && k in s.calls && SameName(s.calls[k], d) && (AtWork(d) ==> d.msg in s.barriers)
    requires CallOk(k, d, g, cfg.delivery)
    requires var h := HoldOf(s.holds, k);
      g == h || (h.Owns? && g.Spent? && g.e == h.e && (g.o.Failed? || g.o.response == h.r))
    ensures Inv(HandledOne(s, k, d, g), cfg)
  {
    if g != HoldOf(s.holds, k) { SpendKeeps(s, cfg, k, d, g.o); } else { MoveKeeps(s, cfg, k, d); }
  }

  lemma HandlerKeeps(s: System, cfg: Settings, k: nat, bs: HostBarrier.Step)
    requires Inv(s, cfg) && k in s.calls && HandlerMay(s.calls[k], bs) && HostBarrier.Inv(s.calls[k].barrier)
    ensures Inv(HandlerIn(s, k, bs), cfg)
  {
    var c, h := s.calls[k], HoldOf(s.holds, k);
    assert CallOk(k, c, h, cfg.delivery);
    HandledCall(k, c, h, bs, cfg.delivery);
    if c.barrier.handler.Over? { NotWokenUp(c.barrier, bs); }
    var d, g := c.(barrier := HostBarrier.Next(c.barrier, bs)), if c.hitl then HoldAfter(h, c.barrier, bs) else h;
    HandledOneKeeps(s, cfg, k, d, g);
    UnregisterKeeps(HandledOne(s, k, d, g), cfg, k);
    HandlerIs(s, k, bs);
  }

  // ----- every barrier keeps its own invariant -----

  ghost predicate Evolves(b: HostBarrier.Barrier, after: HostBarrier.Barrier) {
    after == b || exists bs :: after == HostBarrier.Next(b, bs)
  }

  /** Every barrier is new, untouched, or one step further. */
  ghost predicate BarriersEvolve(calls: map<nat, Call>, after: map<nat, Call>, limit: nat) {
    forall k :: k in after ==>
      if k in calls then Evolves(calls[k].barrier, after[k].barrier) else after[k].barrier == HostBarrier.Initial(limit)
  }

  /** One call changes, and its barrier by at most the step `bs`. */
  lemma OneEvolves(calls: map<nat, Call>, k: nat, d: Call, bs: HostBarrier.Step, limit: nat)
    requires k in calls && (d.barrier == calls[k].barrier || d.barrier == HostBarrier.Next(calls[k].barrier, bs))
    ensures BarriersEvolve(calls, calls[k := d], limit)
  {
    var after := calls[k := d];
    forall l | l in after ensures l in calls && Evolves(calls[l].barrier, after[l].barrier) { }
  }

  lemma PhaseEvolves(calls: map<nat, Call>, mid: map<nat, Call>, k: nat, phase: Phase, limit: nat)
    requires BarriersEvolve(calls, mid, limit) && k in mid
    ensures BarriersEvolve(calls, mid[k := mid[k].(phase := phase)], limit)
  {
  }

  lemma AcceptEvolves(calls: map<nat, Call>, j: nat, k: nat, limit: nat)
    requires j in calls && k in calls
    ensures var mid := calls[j := calls[j].(barrier := HostBarrier.Next(calls[j].barrier, HostBarrier.Defer))];
      BarriersEvolve(calls, mid[k := mid[k].(phase := Answering)], limit)
  {
    var d := calls[j].(barrier := HostBarrier.Next(calls[j].barrier, HostBarrier.Defer));
    OneEvolves(calls, j, d, HostBarrier.Defer, limit);
    PhaseEvolves(calls, calls[j := d], k, Answering, limit);
  }

  lemma QueueEvolves(s: System, k: nat, limit: nat)
    ensures BarriersEvolve(s.calls, QueueIn(s, k).calls, limit)
  {
    if k in s.calls && s.calls[k].phase.Found? && s.calls[k].phase.b in s.calls {
      var c, j := s.calls[k], s.calls[k].phase.b;
      var b := s.calls[j].barrier;
      if b.open {
        OneEvolves(s.calls, k, c.(phase := Answering), HostBarrier.Defer, limit);
      } else if b.limit > 0 && |b.queue| >= b.limit {
        OneEvolves(s.calls, k, GivenUp(c), HostBarrier.ResponseFails, limit);
      } else {
        AcceptEvolves(s.calls, j, k, limit);
      }
    }
  }

  lemma HandlerEvolves(s: System, k: nat, bs: HostBarrier.Step, limit: nat)
    ensures BarriersEvolve(s.calls, HandlerIn(s, k, bs).calls, limit)
  {
    if k in s.calls && HandlerMay(s.calls[k], bs) {
      OneEvolves(s.calls, k, s.calls[k].(barrier := HostBarrier.Next(s.calls[k].barrier, bs)), bs, limit);
      HandlerIs(s, k, bs);
    }
  }

  lemma RefuseEvolves(s: System, k: nat, why: string, limit: nat)
    ensures BarriersEvolve(s.calls, RefuseIn(s, k, why).calls, limit)
    ensures BarriersEvolve(s.calls, LookUpIn(s, k).calls, limit)
  {
    if In(s, k, Holding) {
      OneEvolves(s.calls, k, GivenUp(s.calls[k]), HostBarrier.ResponseFails, limit);
      if s.calls[k].msg in s.barriers {
        OneEvolves(s.calls, k, s.calls[k].(phase := Found(s.barriers[s.calls[k].msg])), HostBarrier.Defer, limit);
      }
    }
  }

  lemma ProduceEvolves(s: System, k: nat, b: nat, bs: HostBarrier.Step, limit: nat)
    ensures BarriersEvolve(s.calls, ProduceIn(s, k, b, bs).calls, limit)
  {
    if b in s.calls {
      OneEvolves(s.calls, b, s.calls[b].(barrier := HostBarrier.Next(s.calls[b].barrier, bs)), bs, limit);
    }
  }

  /** A change of phase or reach alone. */
  lemma SameEvolves(calls: map<nat, Call>, after: map<nat, Call>, k: nat, limit: nat)
    requires after == calls ||
      (k in calls && k in after && after == calls[k := after[k]] && after[k].barrier == calls[k].barrier)
    ensures BarriersEvolve(calls, after, limit)
  {
  }

  lemma AdmitEvolves(s: System, cfg: Settings, k: nat, msg: string, hitl: bool)
    ensures BarriersEvolve(s.calls, AdmitIn(s, cfg, k, msg, hitl).calls, cfg.delivery)
  {
  }

  predicate IsMove(step: Step) {
    step.TurnAwayStep? || step.BeginStep? || step.ClaimStep? || step.AnswerStep? || step.ReachStep?
  }

  lemma MoveEvolves(s: System, cfg: Settings, step: Step)
    requires IsMove(step)
    ensures BarriersEvolve(s.calls, Next(s, cfg, step).calls, cfg.delivery)
  {
    var after := Next(s, cfg, step).calls;
    assert after != s.calls ==> step.k in s.calls && after == s.calls[step.k := after[step.k]];
    SameEvolves(s.calls, after, step.k, cfg.delivery);
  }

  predicate IsOutside(step: Step) {
    step.RegisterStep? || step.GiveUpStep? || step.ReceiveStep? || step.CloseStep? || step.RespondStep? ||
    step.PublishStep?
  }

  lemma OutsideEvolves(s: System, cfg: Settings, step: Step)
    requires IsOutside(step)
    ensures BarriersEvolve(s.calls, Next(s, cfg, step).calls, cfg.delivery)
  {
    SameEvolves(s.calls, Next(s, cfg, step).calls, 0, cfg.delivery);
  }

  lemma BarrierStepEvolves(s: System, cfg: Settings, step: Step)
    requires !IsOutside(step) && !IsMove(step)
    ensures BarriersEvolve(s.calls, Next(s, cfg, step).calls, cfg.delivery)
  {
    match step
    case AdmitStep(k, msg, hitl) => AdmitEvolves(s, cfg, k, msg, hitl);
    case RefuseStep(k, why) => RefuseEvolves(s, k, why, cfg.delivery);
    case LookUpStep(k) => RefuseEvolves(s, k, "", cfg.delivery);
    case QueueStep(k) => QueueEvolves(s, k, cfg.delivery);
    case ProduceStep(k, b, bs) => ProduceEvolves(s, k, b, bs, cfg.delivery);
    case HandlerStep(k, bs) => HandlerEvolves(s, k, bs, cfg.delivery);
    case _ =>
  }

  lemma StepEvolves(s: System, cfg: Settings, step: Step)
    ensures BarriersEvolve(s.calls, Next(s, cfg, step).calls, cfg.delivery)
  {
    if IsOutside(step) {
      OutsideEvolves(s, cfg, step);
    } else if IsMove(step) {
      MoveEvolves(s, cfg, step);
    } else {
      BarrierStepEvolves(s, cfg, step);
    }
  }

  lemma EvolvedOk(b: HostBarrier.Barrier, after: HostBarrier.Barrier)
    requires HostBarrier.Inv(b) && Evolves(b, after)
    ensures HostBarrier.Inv(after)
  {
    if after != b {
      var bs :| after == HostBarrier.Next(b, bs);
      HostBarrier.StepKeepsInv(b, bs);
    }
  }

  lemma StepKeepsBarriers(s: System, cfg: Settings, step: Step)
    requires BarriersOk(s.calls)
    ensures BarriersOk(Next(s, cfg, step).calls)
  {
    var after := Next(s, cfg, step).calls;
    StepEvolves(s, cfg, step);
    HostBarrier.InitialOk(cfg.delivery);
    forall k | k in after ensures HostBarrier.Inv(after[k].barrier) {
      if k in s.calls { EvolvedOk(s.calls[k].barrier, after[k].barrier); }
    }
  }

  /** Steps of waiters, plain responses and the connection itself. */
  lemma OutsideStepKeepsInv(s: System, cfg: Settings, step: Step)
    requires Inv(s, cfg) && IsOutside(step)
    ensures Inv(Next(s, cfg, step), cfg)
  {
    match step
    case RegisterStep(w, id, sessionID, runID) => RegisterStepKeeps(s, cfg, w, id, sessionID, runID);
    case GiveUpStep(w, why) => GiveUpStepKeeps(s, cfg, w, why);
    case ReceiveStep(w) => ReceiveKeeps(s, cfg, w);
    case CloseStep(why) => CloseStepKeeps(s, cfg, why);
    case RespondStep(k, r) => RespondKeeps(s, cfg, k, r);
    case PublishStep(k) => PublishStepKeeps(s, cfg, k);
  }

  lemma HandlerStepKeeps(s: System, cfg: Settings, k: nat, bs: HostBarrier.Step)
    requires Inv(s, cfg) && BarriersOk(s.calls)
    ensures Inv(HandlerIn(s, k, bs), cfg)
  {
    if k in s.calls && HandlerMay(s.calls[k], bs) {
      assert HostBarrier.Inv(s.calls[k].barrier);
      HandlerKeeps(s, cfg, k, bs);
    }
  }

  lemma TurnAwayKeepsStep(s: System, cfg: Settings, k: nat)
    requires Inv(s, cfg)
    ensures Inv(TurnAwayIn(s, k), cfg)
  {
    if In(s, k, Arriving) { TurnAwayKeeps(s, cfg, k); }
  }

  lemma BeginKeepsStep(s: System, cfg: Settings, k: nat)
    requires Inv(s, cfg)
    ensures Inv(BeginIn(s, k), cfg)
  {
    if In(s, k, Arriving) { BeginKeeps(s, cfg, k); }
  }

  lemma ClaimKeepsStep(s: System, cfg: Settings, k: nat, r: Response)
    requires Inv(s, cfg)
    ensures Inv(ClaimIn(s, k, r), cfg)
  {
    if In(s, k, Working) && s.calls[k].hitl { ClaimStepKeeps(s, cfg, k, r); }
  }

  lemma AnswerKeepsStep(s: System, cfg: Settings, k: nat)
    requires Inv(s, cfg)
    ensures Inv(AnswerIn(s, k), cfg)
  {
    if In(s, k, Working) && !s.calls[k].hitl { AnswerKeeps(s, cfg, k); }
  }

  lemma RefuseKeepsStep(s: System, cfg: Settings, k: nat, why: string)
    requires Inv(s, cfg)
    ensures Inv(RefuseIn(s, k, why), cfg)
  {
    if In(s, k, Holding) { RefuseKeeps(s, cfg, k, why); }
  }

  lemma LookUpKeepsStep(s: System, cfg: Settings, k: nat)
    requires Inv(s, cfg)
    ensures Inv(LookUpIn(s, k), cfg)
  {
    if In(s, k, Holding) { LookUpKeeps(s, cfg, k); }
  }

  lemma QueueKeepsStep(s: System, cfg: Settings, k: nat)
    requires Inv(s, cfg)
    ensures Inv(QueueIn(s, k), cfg)
  {
    if k in s.calls && s.calls[k].phase.Found? { QueueKeeps(s, cfg, k); }
  }

  /** Admission, and the steps of a command before its answer. */
  lemma CommandStepKeepsInv(s: System, cfg: Settings, step: Step)
    requires Inv(s, cfg) && (step.AdmitStep? || IsMove(step))
    ensures Inv(Next(s, cfg, step), cfg)
  {
    match step
    case AdmitStep(k, msg, hitl) => AdmitKeeps(s, cfg, k, msg, hitl);
    case TurnAwayStep(k) => TurnAwayKeepsStep(s, cfg, k);
    case BeginStep(k) => BeginKeepsStep(s, cfg, k);
    case ClaimStep(k, r) => ClaimKeepsStep(s, cfg, k, r);
    case AnswerStep(k) => AnswerKeepsStep(s, cfg, k);
    case ReachStep(k) => ReachKeeps(s, cfg, k);
  }

  predicate IsQueueing(step: Step) { step.RefuseStep? || step.LookUpStep? || step.QueueStep? }

  /** The steps of a HITL command between its claim and its answer. */
  lemma QueueingStepKeepsInv(s: System, cfg: Settings, step: Step)
    requires Inv(s, cfg) && IsQueueing(step)
    ensures Inv(Next(s, cfg, step), cfg)
  {
    match step
    case RefuseStep(k, why) => RefuseKeepsStep(s, cfg, k, why);
    case LookUpStep(k) => LookUpKeepsStep(s, cfg, k);
    case QueueStep(k) => QueueKeepsStep(s, cfg, k);
  }

  lemma StepKeepsInv(s: System, cfg: Settings, step: Step)
    requires Inv(s, cfg) && BarriersOk(s.calls)
    ensures Inv(Next(s, cfg, step), cfg)
  {
    if IsOutside(step) {
      OutsideStepKeepsInv(s, cfg, step);
    } else if step.AdmitStep? || IsMove(step) {
      CommandStepKeepsInv(s, cfg, step);
    } else if IsQueueing(step) {
      QueueingStepKeepsInv(s, cfg, step);
    } else if step.ProduceStep? {
      ProduceKeeps(s, cfg, step.k, step.b, step.bs);
    } else {
      HandlerStepKeeps(s, cfg, step.k, step.bs);
    }
  }

  lemma ReceiveKeeps(s: System, cfg: Settings, w: nat)
    requires Inv(s, cfg)
    ensures Inv(ReceiveIn(s, w), cfg)
  {
  }

  lemma {:induction false} RunInv(ss: seq<System>, cfg: Settings, steps: seq<Step>, n: nat)
    requires IsRun(ss, cfg, steps) && n < |ss|
    ensures Inv(ss[n], cfg) && BarriersOk(ss[n].calls)
  {
    if n > 0 {
      RunInv(ss, cfg, steps, n - 1);
      assert StepAt(ss, cfg, steps, n - 1);
      StepKeepsInv(ss[n - 1], cfg, steps[n - 1]);
      StepKeepsBarriers(ss[n - 1], cfg, steps[n - 1]);
    }
  }

  // ----- theorems -----

  /** However the settlements race, every request is published at most once, and every waiter gets that outcome. */
  lemma PublishedAtMostOnce(ss: seq<System>, cfg: Settings, steps: seq<Step>, n: nat, e: nat)
    requires IsRun(ss, cfg, steps) && n < |ss| && e < |ss[n].conn.entries|
    ensures |ss[n].conn.entries[e].published| <= 1
    ensures forall w :: w in ss[n].waiters && ss[n].waiters[w].Resolved? && ss[n].waiters[w].e == e ==>
      ss[n].conn.entries[e].published == [ss[n].waiters[w].o]
  {
    RunInv(ss, cfg, steps, n);
  }

  /** A waiter is only ever answered with a response to its own request, session and run. */
  lemma AnswersFitTheirRequest(ss: seq<System>, cfg: Settings, steps: seq<Step>, n: nat, w: nat)
    requires IsRun(ss, cfg, steps) && n < |ss| && w in ss[n].waiters
    requires ss[n].waiters[w].Resolved? && ss[n].waiters[w].o.Answered?
    ensures ss[n].waiters[w].e < |ss[n].conn.entries|
    ensures Serves(cfg.trim, ss[n].conn.entries[ss[n].waiters[w].e], ss[n].waiters[w].o.response)
  {
    RunInv(ss, cfg, steps, n);
    assert AnswersFit(ss[n].conn.trim, ss[n].conn.entries[ss[n].waiters[w].e]);
  }

  /** A closed connection has nothing registered, and stays closed. */
  lemma CloseLeavesNoneRegistered(ss: seq<System>, cfg: Settings, steps: seq<Step>, n: nat)
    requires IsRun(ss, cfg, steps) && n < |ss| && ss[n].conn.closed
    ensures ss[n].conn.pending == map[]
    ensures n + 1 < |ss| ==> ss[n + 1].conn.closed
  {
    RunInv(ss, cfg, steps, n);
    if n + 1 < |ss| {
      assert StepAt(ss, cfg, steps, n);
      StaysClosed(ss[n], cfg, steps[n]);
    }
  }

  lemma StaysClosed(s: System, cfg: Settings, step: Step)
    requires s.conn.closed
    ensures Next(s, cfg, step).conn.closed
  {
    if step.HandlerStep? && step.k in s.calls && HandlerMay(s.calls[step.k], step.bs) { HandlerIs(s, step.k, step.bs); }
  }

  /** In every run, a HITL command about to queue finds its own barrier, neither open nor full. */
  lemma HitlAlwaysQueues(ss: seq<System>, cfg: Settings, steps: seq<Step>, n: nat, k: nat)
    requires IsRun(ss, cfg, steps) && n < |ss| && k in ss[n].calls
    requires ss[n].calls[k].phase.Holding? || ss[n].calls[k].phase.Found?
    ensures ss[n].calls[k].msg in ss[n].barriers && ss[n].barriers[ss[n].calls[k].msg] == k
    ensures !ss[n].calls[k].barrier.open && ss[n].calls[k].barrier.queue == []
  {
    RunInv(ss, cfg, steps, n);
    FindsItsOwnBarrier(ss[n], cfg, k);
  }

  predicate Returned(c: Call) { c.phase.Answering? && c.barrier.handler.Over? }

  /** An accepted item of a returned handler has ended, when no producer aborts anything. */
  lemma OverEndsAll(b: HostBarrier.Barrier, i: nat)
    requires HostBarrier.Inv(b) && b.handler.Over? && b.taken == {} && i < b.accepted
    ensures i in HostBarrier.Ended(b)
  {
    assert i in HostBarrier.Numbers(b.accepted);
  }

  lemma NothingOwed(c: Call, h: Hold, k: nat, limit: nat)
    requires CallOk(k, c, h, limit) && HostBarrier.Inv(c.barrier) && Returned(c)
    ensures !h.Owns?
  {
    if c.hitl && h.Owns? { OverEndsAll(c.barrier, 0); }
  }

  /** A claim is kept until it is spent on the same request, and then for good. */
  predicate Keeps(h: Hold, after: Hold) {
    (h.Owns? ==> after == h || (after.Spent? && after.e == h.e)) && (h.Spent? ==> after == h)
  }

  lemma ClaimKeepsHold(s: System, cfg: Settings, k: nat, r: Response, l: nat)
    requires Inv(s, cfg)
    ensures Keeps(HoldOf(s.holds, l), HoldOf(ClaimIn(s, k, r).holds, l))
  {
    if In(s, k, Working) && s.calls[k].hitl { assert CallOk(k, s.calls[k], HoldOf(s.holds, k), cfg.delivery); }
  }

  lemma HandlerKeepsHold(s: System, k: nat, bs: HostBarrier.Step, l: nat)
    ensures Keeps(HoldOf(s.holds, l), HoldOf(HandlerIn(s, k, bs).holds, l))
  {
    if k in s.calls && HandlerMay(s.calls[k], bs) { HandlerIs(s, k, bs); }
  }

  lemma OutsideKeepsHold(s: System, cfg: Settings, step: Step, l: nat)
    requires IsOutside(step)
    ensures Keeps(HoldOf(s.holds, l), HoldOf(Next(s, cfg, step).holds, l))
  {
  }

  lemma PublishKeepsHold(s: System, k: nat, o: Outcome, l: nat)
    ensures Keeps(HoldOf(s.holds, l), HoldOf(Publish(s, k, o).holds, l))
  {
  }

  lemma QueueingKeepsHold(s: System, cfg: Settings, step: Step, l: nat)
    requires IsQueueing(step)
    ensures Keeps(HoldOf(s.holds, l), HoldOf(Next(s, cfg, step).holds, l))
  {
    match step
    case RefuseStep(k, why) => PublishKeepsHold(s, k, Failed(why), l);
    case LookUpStep(k) => PublishKeepsHold(s, k, Failed(ClosedCause), l);
    case QueueStep(k) =>
      PublishKeepsHold(s, k, Answered(Empty), l);
      PublishKeepsHold(s, k, Failed(FullCause), l);
  }

  lemma OtherKeepsHold(s: System, cfg: Settings, step: Step, l: nat)
    requires !step.ClaimStep? && !step.HandlerStep? && !IsOutside(step) && !IsQueueing(step)
    ensures Keeps(HoldOf(s.holds, l), HoldOf(Next(s, cfg, step).holds, l))
  {
  }

  lemma StepKeepsHold(s: System, cfg: Settings, step: Step, l: nat)
    requires Inv(s, cfg)
    ensures Keeps(HoldOf(s.holds, l), HoldOf(Next(s, cfg, step).holds, l))
  {
    match step
    case ClaimStep(k, r) => ClaimKeepsHold(s, cfg, k, r, l);
    case HandlerStep(k, bs) => HandlerKeepsHold(s, k, bs, l);
    case _ =>
      if IsOutside(step) {
        OutsideKeepsHold(s, cfg, step, l);
      } else if IsQueueing(step) {
        QueueingKeepsHold(s, cfg, step, l);
      } else {
        OtherKeepsHold(s, cfg, step, l);
      }
  }

  lemma NodeKeepsHold(ss: seq<System>, cfg: Settings, steps: seq<Step>, n: nat, k: nat)
    requires IsRun(ss, cfg, steps) && n < |steps|
    ensures Keeps(HoldOf(ss[n].holds, k), HoldOf(ss[n + 1].holds, k))
  {
    RunInv(ss, cfg, steps, n);
    assert StepAt(ss, cfg, steps, n);
    StepKeepsHold(ss[n], cfg, steps[n], k);
  }

  lemma {:induction false} ClaimPersists(ss: seq<System>, cfg: Settings, steps: seq<Step>, i: nat, n: nat, k: nat)
    requires IsRun(ss, cfg, steps) && i <= n < |ss|
    ensures Keeps(HoldOf(ss[i].holds, k), HoldOf(ss[n].holds, k))
    decreases n
  {
    if i < n {
      ClaimPersists(ss, cfg, steps, i, n - 1, k);
      NodeKeepsHold(ss, cfg, steps, n - 1, k);
    }
  }

  /**
   * When the handler of a HITL command has returned, a request that it claimed
   * at any time before has exactly one outcome, published by this command.
   */
  lemma ClaimedIsPublishedByReturn(ss: seq<System>, cfg: Settings, steps: seq<Step>, i: nat, n: nat, k: nat)
    requires IsRun(ss, cfg, steps) && i <= n < |ss| && HoldOf(ss[i].holds, k).Owns?
    requires k in ss[n].calls && Returned(ss[n].calls[k])
    ensures var s, e, h := ss[n], HoldOf(ss[i].holds, k).e, HoldOf(ss[n].holds, k);
      h.Spent? && h.e == e && e < |s.conn.entries| && s.conn.entries[e].published == [h.o]
  {
    RunInv(ss, cfg, steps, n);
    ClaimPersists(ss, cfg, steps, i, n, k);
    var s := ss[n];
    assert CallOk(k, s.calls[k], HoldOf(s.holds, k), cfg.delivery) && HoldOk(s.conn, HoldOf(s.holds, k));
    NothingOwed(s.calls[k], HoldOf(s.holds, k), k, cfg.delivery);
  }

  lemma CommitAfterDelivery(c: Call, h: Hold, k: nat, limit: nat)
    requires CallOk(k, c, h, limit) && HostBarrier.Inv(c.barrier) && h.Spent? && h.o.Answered?
    ensures c.barrier.delivered
  {
  }

  /** A HITL answer reaches its waiter only after the command's own response was delivered. */
  lemma AnswerFollowsResponse(ss: seq<System>, cfg: Settings, steps: seq<Step>, n: nat, k: nat)
    requires IsRun(ss, cfg, steps) && n < |ss| && k in ss[n].calls
    requires HoldOf(ss[n].holds, k).Spent? && HoldOf(ss[n].holds, k).o.Answered?
    ensures ss[n].calls[k].barrier.delivered
  {
    RunInv(ss, cfg, steps, n);
    CommitAfterDelivery(ss[n].calls[k], HoldOf(ss[n].holds, k), k, cfg.delivery);
  }

  /** No request is lost: an unpublished one is still registered, or owed by exactly one response or command. */
  lemma UnpublishedIsOwned(ss: seq<System>, cfg: Settings, steps: seq<Step>, n: nat, e: nat)
    requires IsRun(ss, cfg, steps) && n < |ss| && e < |ss[n].conn.entries| && ss[n].conn.entries[e].published == []
    ensures IsRegistered(ss[n].conn, e) != (exists k :: Owner(ss[n].holds, k, e))
    ensures forall k, l :: Owner(ss[n].holds, k, e) && Owner(ss[n].holds, l, e) ==> k == l
  {
    RunInv(ss, cfg, steps, n);
    if k :| Owner(ss[n].holds, k, e) { assert HoldOk(ss[n].conn, HoldOf(ss[n].holds, k)); }
  }
}

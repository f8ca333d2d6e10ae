/**
 * Requests that the runtime sends to its host and waits for. A pending request
 * can be settled by a response, by a human-in-the-loop (HITL) command, by its
 * waiter giving up (timeout, cancellation, failed delivery) or by the connection
 * closing; all of these race. Publishing an outcome twice would close a channel
 * twice.
 */
module HostPending {

  import opened Common

  datatype Response = Response(requestID: string, sessionID: string, runID: string, body: string)

  const Empty: Response := Response("", "", "", "")

  datatype Outcome = Answered(response: Response) | Failed(why: string)

  /** `published` logs the outcomes sent to the waiter. */
  datatype Entry = Entry(requestID: string, sessionID: string, runID: string, published: seq<Outcome>)

  /**
   * A connection: registered requests by id, and every request ever registered.
   * Ids are compared after `trim` has cut off white space.
   */
  datatype Connection = Connection(
    pending: map<string, nat>, entries: seq<Entry>, closed: bool, limit: nat, trim: string -> string)

  datatype Refusal = EmptyID | ConnectionClosed | DuplicateRequest | LimitReached | NotFound | Mismatch

  // ----- the sections under the connection's lock -----

  function Register(c: Connection, rawID: string, sessionID: string, runID: string): (Connection, Option<Refusal>) {
    var id := c.trim(rawID);
    if id == "" then (c, Some(EmptyID))
    else if c.closed then (c, Some(ConnectionClosed))
    else if id in c.pending then (c, Some(DuplicateRequest))
    else if |c.pending| >= c.limit then (c, Some(LimitReached))
    else
      var e := Entry(id, c.trim(sessionID), c.trim(runID), []);
      (c.(pending := c.pending[id := |c.entries|], entries := c.entries + [e]), None)
  }

  datatype Claim = Denied(why: Refusal) | Claimed(e: nat)

  /** The response comes from the session and the run that the request was registered for, where it names any. */
  predicate Correlates(trim: string -> string, e: Entry, r: Response) {
    (e.sessionID != "" ==> e.sessionID == trim(r.sessionID)) && (e.runID != "" ==> e.runID == trim(r.runID))
  }

  /** `preparePendingResponse`: takes the request out of the registry without publishing. */
  function Prepare(c: Connection, r: Response): (Connection, Claim) {
    if r.requestID !in c.pending then (c, Denied(NotFound))
    else
      var e := c.pending[r.requestID];
      if e < |c.entries| && !Correlates(c.trim, c.entries[e], r) then (c, Denied(Mismatch))
      else (c.(pending := c.pending - {r.requestID}), Claimed(e))
  }

  function PublishTo(c: Connection, e: nat, o: Outcome): Connection {
    if e < |c.entries| then c.(entries := c.entries[e := c.entries[e].(published := c.entries[e].published + [o])])
    else c
  }

  /** `settlePending` by the waiter of `e`: only the registered request is settled here. */
  function Settle(c: Connection, id: string, e: nat, o: Outcome): (Connection, bool) {
    if id in c.pending && c.pending[id] == e then (PublishTo(c.(pending := c.pending - {id}), e, o), true)
    else (c, false)
  }

  predicate Registered(c: Connection, e: nat) { exists id :: id in c.pending && c.pending[id] == e }

  /** `closeWithCause`: every registered request is failed and removed. */
  function Close(c: Connection, why: string): Connection {
    if c.closed then c
    else
      var entries := seq(|c.entries|, i requires 0 <= i < |c.entries| =>
        if Registered(c, i) then Failing(c.entries[i], why) else c.entries[i]);
      c.(pending := map[], entries := entries, closed := true)
  }

  function Failing(e: Entry, why: string): Entry { e.(published := e.published + [Failed(why)]) }

  // ----- what the registry keeps -----

  /** `r` answers the request `e`: same request id, and the session and run it was registered for. */
  predicate Serves(trim: string -> string, e: Entry,
                   r: Response) { r.requestID == e.requestID && Correlates(trim, e, r) }

  predicate AnswersFit(trim: string -> string, e: Entry) {
    e.published != [] && e.published[0].Answered? ==> Serves(trim, e, e.published[0].response)
  }

  ghost predicate RegistryOk(c: Connection) {
    (forall id :: id in c.pending ==> c.pending[id] < |c.entries| && c.entries[c.pending[id]].requestID == id) &&
    (forall id :: id in c.pending ==> c.entries[c.pending[id]].published == []) &&
    (c.closed ==> c.pending == map[]) &&
    (forall e :: 0 <= e < |c.entries| ==> |c.entries[e].published| <= 1 && AnswersFit(c.trim, c.entries[e]))
  }

  /** `e` is registered under its own id. */
  predicate IsRegistered(c: Connection, e: nat)
    requires e < |c.entries|
  {
    c.entries[e].requestID in c.pending && c.pending[c.entries[e].requestID] == e
  }

  // ----- who has to publish a request -----

  /** A response in progress: it has claimed nothing, owes the publication of a request, or has published it. */
  datatype Hold = Free | Owns(e: nat, r: Response) | Spent(e: nat, o: Outcome)

  function HoldOf(hs: map<nat, Hold>, k: nat): Hold { if k in hs then hs[k] else Free }

  ghost predicate HoldOk(c: Connection, h: Hold) {
    match h
    case Free => true
    case Owns(e, r) =>
      e < |c.entries| && c.entries[e].published == [] && !IsRegistered(c, e) && Serves(c.trim, c.entries[e], r)
    case Spent(e, o) => e < |c.entries| && c.entries[e].published == [o]
  }

  ghost predicate HoldsOk(c: Connection, hs: map<nat, Hold>) {
    (forall k :: HoldOk(c, HoldOf(hs, k))) && (forall k, l, e :: Owner(hs, k, e) && Owner(hs, l, e) ==> k == l)
  }

  lemma HoldUpdate(hs: map<nat, Hold>, k: nat, h: Hold)
    ensures forall l :: HoldOf(hs[k := h], l) == (if l == k then h else HoldOf(hs, l))
  {
    forall l: nat ensures HoldOf(hs[k := h], l) == (if l == k then h else HoldOf(hs, l)) {
      assert l in hs[k := h] <==> l == k || l in hs;
    }
  }

  predicate Owner(hs: map<nat, Hold>, k: nat, e: nat) { HoldOf(hs, k).Owns? && HoldOf(hs, k).e == e }

  /** No request is lost: it is registered, owed by a response in progress, or published. */
  ghost predicate NoneLost(c: Connection, hs: map<nat, Hold>) {
    forall e :: 0 <= e < |c.entries| && c.entries[e].published == [] ==>
      IsRegistered(c, e) || exists k :: Owner(hs, k, e)
  }

  ghost predicate OwnersOk(c: Connection, hs: map<nat, Hold>) { RegistryOk(c) && HoldsOk(c, hs) && NoneLost(c, hs) }

  lemma RegisterKeeps(c: Connection, hs: map<nat, Hold>, id: string, sessionID: string, runID: string)
    requires OwnersOk(c, hs)
    ensures OwnersOk(Register(c, id, sessionID, runID).0, hs)
  {
    var (d, refusal) := Register(c, id, sessionID, runID);
    if refusal.None? {
      assert IsRegistered(d, |c.entries|);
      forall e: nat | e < |c.entries| && IsRegistered(c, e) ensures IsRegistered(d, e) { }
    }
  }

  lemma ClaimKeeps(c: Connection, hs: map<nat, Hold>, k: nat, r: Response)
    requires OwnersOk(c, hs) && HoldOf(hs, k).Free? && Prepare(c, r).1.Claimed?
    ensures OwnersOk(Prepare(c, r).0, hs[k := Owns(Prepare(c, r).1.e, r)])
  {
    var (d, claim) := Prepare(c, r);
    var gs := hs[k := Owns(claim.e, r)];
    HoldUpdate(hs, k, gs[k]);
    assert IsRegistered(c, claim.e) && !IsRegistered(d, claim.e);
    forall l: nat ensures HoldOk(d, HoldOf(gs, l)) && (l != k ==> !Owner(gs, l, claim.e)) {
      assert HoldOk(c, HoldOf(hs, l));
    }
    forall l: nat, e | l != k && Owner(gs, l, e) ensures Owner(hs, l, e) { }
    assert Owner(gs, k, claim.e);
    forall e: nat | e < |d.entries| && d.entries[e].published == []
      ensures IsRegistered(d, e) || exists l :: Owner(gs, l, e)
    {
      if !IsRegistered(c, e) {
        var l :| Owner(hs, l, e);
        assert Owner(gs, l, e);
      }
    }
  }

  /** Publishing the one request a response owes: a failure, or the response it claimed with. */
  lemma PublishKeeps(c: Connection, hs: map<nat, Hold>, k: nat, o: Outcome)
    requires OwnersOk(c, hs) && HoldOf(hs, k).Owns? && (o.Failed? || o.response == HoldOf(hs, k).r)
    ensures OwnersOk(PublishTo(c, HoldOf(hs, k).e, o), hs[k := Spent(HoldOf(hs, k).e, o)])
  {
    var e := HoldOf(hs, k).e;
    var d, gs := PublishTo(c, e, o), hs[k := Spent(e, o)];
    HoldUpdate(hs, k, gs[k]);
    forall l ensures HoldOk(d, HoldOf(gs, l)) {
      assert HoldOk(c, HoldOf(hs, k)) && HoldOk(c, HoldOf(hs, l));
      assert Owner(hs, k, e) && (l != k ==> !Owner(hs, l, e));
    }
    forall l: nat, x | Owner(gs, l, x) ensures Owner(hs, l, x) { }
    forall x: nat | x < |d.entries| && d.entries[x].published == []
      ensures IsRegistered(d, x) || exists l :: Owner(gs, l, x)
    {
      if !IsRegistered(c, x) {
        var l :| Owner(hs, l, x);
        assert Owner(gs, l, x);
      }
    }
  }

  lemma SettleKeeps(c: Connection, hs: map<nat, Hold>, id: string, e: nat, why: string)
    requires OwnersOk(c, hs)
    ensures OwnersOk(Settle(c, id, e, Failed(why)).0, hs)
  {
    var (d, done) := Settle(c, id, e, Failed(why));
    if done {
      assert IsRegistered(c, e);
      forall x: nat | x < |d.entries| && d.entries[x].published == []
        ensures IsRegistered(d, x) || exists l :: Owner(hs, l, x)
      {
        assert x != e;
      }
    }
  }

  lemma CloseKeeps(c: Connection, hs: map<nat, Hold>, why: string)
    requires OwnersOk(c, hs)
    ensures OwnersOk(Close(c, why), hs)
  {
    var d := Close(c, why);
    forall e: nat | e < |c.entries| ensures Registered(c, e) <==> IsRegistered(c, e) { }
    forall e: nat | e < |d.entries| && d.entries[e].published == []
      ensures IsRegistered(d, e) || exists l :: Owner(hs, l, e)
    {
      if c.entries[e].published == [] && !IsRegistered(c, e) { var l :| Owner(hs, l, e); }
    }
  }
}

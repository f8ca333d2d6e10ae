/**
 * The connection's registry of pending requests and the reservation of a host
 * run, as objects whose fields change in place. Every method is proved to do
 * exactly the section of `HostPending` that the interleavings are built from.
 */
module HostConnection {

  import opened Common
  import opened HostPending

  class PendingRegistry {
    const limit: nat
    const trim: string -> string
    var pending: map<string, nat>
    var entries: seq<Entry>
    var closed: bool

    ghost function View(): Connection
      reads this
    {
      Connection(pending, entries, closed, limit, trim)
    }

    constructor (limit: nat, trim: string -> string)
      ensures View() == Connection(map[], [], false, limit, trim)
    {
      this.limit, this.trim := limit, trim;
      pending, entries, closed := map[], [], false;
    }

    method RegisterPending(rawID: string, sessionID: string, runID: string) returns (e: nat, err: Option<Refusal>)
      modifies this
      ensures (View(), err) == Register(old(View()), rawID, sessionID, runID)
      ensures err.None? ==> e == |old(entries)|
    {
      e := 0;
      var id := trim(rawID);
      if id == "" { return e, Some(EmptyID); }
      if closed { return e, Some(ConnectionClosed); }
      if id in pending { return e, Some(DuplicateRequest); }
      if |pending| >= limit { return e, Some(LimitReached); }
      e := |entries|;
      entries := entries + [Entry(id, trim(sessionID), trim(runID), [])];
      pending := pending[id := e];
      err := None;
    }

    method PreparePendingResponse(r: Response) returns (claim: Claim)
      modifies this`pending
      ensures (View(), claim) == Prepare(old(View()), r)
    {
      if r.requestID !in pending { return Denied(NotFound); }
      var e := pending[r.requestID];
      if e < |entries| {
        var x := entries[e];
        if (x.sessionID != "" && x.sessionID != trim(r.sessionID)) || (x.runID != "" && x.runID != trim(r.runID)) {
          return Denied(Mismatch);
        }
      }
      pending := pending - {r.requestID};
      claim := Claimed(e);
    }

    method Publish(e: nat, o: Outcome)
      modifies this`entries
      ensures View() == PublishTo(old(View()), e, o)
    {
      if e < |entries| { entries := entries[e := entries[e].(published := entries[e].published + [o])]; }
    }

    method SettlePending(id: string, e: nat, o: Outcome) returns (done: bool)
      modifies this
      ensures (View(), done) == Settle(old(View()), id, e, o)
    {
      if id in pending && pending[id] == e {
        pending := pending - {id};
        Publish(e, o);
        return true;
      }
      done := false;
    }

    method CloseWithCause(why: string)
      requires RegistryOk(View())
      modifies this
      ensures View() == Close(old(View()), why)
    {
      if closed { return; }
      closed := true;
      FailAll(why);
      ClosesAs(old(View()), entries, why);
    }

    /** Fails and removes the registered requests one by one. */
    method FailAll(why: string)
      requires RegistryOk(View().(closed := false))
      modifies this`pending, this`entries
      ensures pending == map[] && |entries| == |old(entries)|
      ensures forall i :: 0 <= i < |entries| ==> entries[i] == FailedSoFar(old(entries)[i], i, old(pending), {}, why)
    {
      var left, es := pending.Keys, entries;
      while left != {}
        invariant |es| == |entries| && left <= pending.Keys
        invariant forall i :: 0 <= i < |es| ==> es[i] == FailedSoFar(entries[i], i, pending, left, why)
        decreases |left|
      {
        var id :| id in left;
        var e := pending[id];
        assert entries[e].requestID == id;
        left := left - {id};
        es := es[e := es[e].(published := es[e].published + [Failed(why)])];
      }
      entries, pending := es, map[];
    }
  }

  /** Entry `i` once the requests of `all` that are not in `left` have been failed. */
  function FailedSoFar(x: Entry, i: nat, all: map<string, nat>, left: set<string>, why: string): Entry {
    if x.requestID in all && all[x.requestID] == i && x.requestID !in left
    then Failing(x, why) else x
  }

  lemma ClosesAs(c: Connection, entries: seq<Entry>, why: string)
    requires RegistryOk(c) && !c.closed && |entries| == |c.entries|
    requires forall i :: 0 <= i < |entries| ==> entries[i] == FailedSoFar(c.entries[i], i, c.pending, {}, why)
    ensures Close(c, why) == c.(pending := map[], entries := entries, closed := true)
  {
    forall i: nat | i < |entries| ensures Registered(c, i) <==> IsRegistered(c, i) {
      if Registered(c, i) { var id :| id in c.pending && c.pending[id] == i; }
    }
    assert Close(c, why).entries == entries;
  }

  /** The one-shot reservation of an admitted host run. */
  class HostRunExecution {
    var used: bool
    ghost var executed: nat
    ghost var released: nat

    ghost predicate Valid()
      reads this
    {
      executed + released == (if used then 1 else 0)
    }

    constructor ()
      ensures Valid() && !used
    {
      used, executed, released := false, 0, 0;
    }

    method Execute() returns (started: bool)
      requires Valid()
      modifies this
      ensures Valid() && used && started == !old(used) && released == old(released)
      ensures executed == (if started then old(executed) + 1 else old(executed))
    {
      if used { return false; }
      used := true;
      executed := executed + 1;
      started := true;
    }

    method Release()
      requires Valid()
      modifies this
      ensures Valid() && used && executed == old(executed)
      ensures released == (if old(used) then old(released) else old(released) + 1)
    {
      if used { return; }
      used := true;
      released := released + 1;
    }
  }
}

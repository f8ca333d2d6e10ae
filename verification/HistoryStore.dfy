/**
 * The journal and the projection ledger as they run: fields changed in place,
 * rolled back when a file cannot be replaced, searched and checked by loops.
 * Every method is proved to do exactly the operation of `HistoryModel`.
 */
module HistoryStore {

  import opened Common
  import opened HistoryModel

  class ProjectionLedger {
    const env: Env
    var sequence: nat
    var floor: nat
    var retention: nat
    var records: seq<Record>
    var acks: map<EventID, Ack>
    var file: Option<Ledger>

    ghost function View(): Ledger
      reads this
    {
      Ledger(sequence, floor, retention, records, acks)
    }

    constructor (env: Env)
      ensures this.env == env && View() == FreshLedger(env) && file == None
    {
      this.env := env;
      sequence, floor, retention := 0, 0, env.ledgerRetention;
      records, acks, file := [], map[], None;
    }

    /** Reopens the ledger from its file. */
    method Open(stored: Option<Ledger>) returns (ok: bool)
      modifies this
      ensures ok == OpenLedger(env, stored).Some?
      ensures ok ==> View() == OpenLedger(env, stored).value && file == stored
      ensures !ok ==> View() == old(View()) && file == old(file)
    {
      var l := Ledger(0, 0, env.ledgerRetention, [], map[]);
      if stored.Some? {
        l := stored.value;
        if l.retention == 0 || l.floor > l.sequence { return false; }
        var valid := Validate(l);
        if !valid { return false; }
      }
      sequence, floor, retention, records, acks, file := l.sequence, l.floor, l.retention, l.records, l.acks, stored;
      ok := true;
    }

    method Validate(l: Ledger) returns (valid: bool)
      ensures valid == LedgerValid(env, l)
    {
      if |l.records| > MaxPageSize { return false; }
      var previous := l.floor;
      for i := 0 to |l.records|
        invariant previous == l.floor + i
        invariant forall k :: 0 <= k < i ==> RecordPlaced(env, l.records[k], l.floor + k + 1)
      {
        if !RecordPlaced(env, l.records[i], previous + 1) { return false; }
        previous := previous + 1;
      }
      if previous != l.sequence && (|l.records| != 0 || l.sequence != l.floor) { return false; }
      var todo := l.acks.Keys;
      while todo != {}
        invariant todo <= l.acks.Keys
        invariant forall id :: id in l.acks && id !in todo ==> AckMatches(env, l, id, l.acks[id])
        decreases |todo|
      {
        var id :| id in todo;
        var found := Lookup(l.records, id);
        var a := l.acks[id];
        if found.None? || a.source != env.source || a.eventID != id || a.digest != found.value.digest ||
           a.next != found.value.cursor || a.reference == "" { return false; }
        todo := todo - {id};
      }
      valid := true;
    }

    method Lookup(rs: seq<Record>, id: EventID) returns (found: Option<Record>)
      ensures found == FindRecord(rs, id)
    {
      for i := 0 to |rs|
        invariant FindRecord(rs[i..], id) == FindRecord(rs, id)
      {
        if rs[i].event.history.Some? && rs[i].event.history.value.eventID == id { return Some(rs[i]); }
        assert rs[i..][1..] == rs[i + 1..];
      }
      found := None;
    }

    /** Adds a record, trims to the bound and saves; an unsaved change is rolled back. */
    method Save(next: nat, r: Record, saved: bool)
      modifies this
      ensures View() == (if saved then Advance(old(View()), next, r) else old(View()))
      ensures file == (if saved then Some(View()) else old(file))
    {
      var previousSequence, previousFloor, previousRecords := sequence, floor, records;
      sequence := next;
      records := records + [r];
      if |records| > retention {
        floor := if records[0].event.history.Some? then records[0].event.history.value.sequence else 0;
        records := records[1..];
      }
      if saved {
        file := Some(Ledger(sequence, floor, retention, records, acks));
      } else {
        sequence, floor, records := previousSequence, previousFloor, previousRecords;
      }
    }

    method CommitRetained(e: Event, saved: bool) returns (out: Outcome<Record>)
      modifies this
      ensures (View(), out) == HistoryModel.CommitRetained(env, old(View()), e, saved)
      ensures file == (if out.Ok? then Some(View()) else old(file))
    {
      if e.history.None? || e.history.value.source != env.source || e.history.value.sequence != sequence + 1 ||
         e.history.value.eventID != EventID(env.source, e.history.value.sequence) { return Err(Conflict); }
      if !env.snapshotOk(e) { return Err(InvalidHistory); }
      var r := RecordOf(env, e);
      Save(e.history.value.sequence, r, saved);
      if !saved { return Err(Unavailable); }
      out := Ok(r);
    }

    method ReconcileSourceEvent(e: Event, saved: bool) returns (out: Outcome<Repaired>)
      modifies this
      ensures (View(), out) == Reconcile(env, old(View()), e, saved)
      ensures file == (if out.Ok? && !out.value.duplicate then Some(View()) else old(file))
    {
      if e.history.None? || e.payload != "" { return Err(InvalidHistory); }
      var id := e.history.value;
      if id.source != env.source { return Err(CursorForeign); }
      if id.sequence == 0 { return Err(InvalidHistory); }
      if id.eventID != EventID(env.source, id.sequence) || e.eventID != Some(id.eventID) { return Err(Conflict); }
      if !env.snapshotOk(e) { return Err(InvalidHistory); }
      var r := RecordOf(env, e);
      var found := Lookup(records, id.eventID);
      if found.Some? {
        if found.value.digest != r.digest || found.value.cursor != r.cursor ||
           found.value.terminalEvidence != r.terminalEvidence || found.value.event != r.event { return Err(Conflict); }
        return Ok(Repaired(found.value, true));
      }
      if id.sequence < floor { return Err(CursorExpired); }
      if id.sequence != sequence + 1 { return Err(Gap); }
      Save(id.sequence, r, saved);
      if !saved { return Err(Unavailable); }
      out := Ok(Repaired(r, false));
    }

    method AcknowledgeProjection(a: Ack, saved: bool) returns (out: Outcome<Ack>)
      modifies this
      ensures (View(), out) == Acknowledge(env, old(View()), a, saved)
      ensures file == (if View() != old(View()) then Some(View()) else old(file))
    {
      if a.reference == "" { return Err(InvalidHistory); }
      if a.source != env.source { return Err(CursorForeign); }
      var found := Lookup(records, a.eventID);
      if found.None? || found.value.digest != a.digest || found.value.cursor != a.next { return Err(Conflict); }
      if a.eventID in acks {
        var previous := acks[a.eventID];
        if previous != a { return Err(Conflict); }
        return Ok(previous);
      }
      var previous := acks;
      acks := acks[a.eventID := a];
      if !saved {
        acks := previous;
        return Err(Unavailable);
      }
      file := Some(Ledger(sequence, floor, retention, records, acks));
      assert a.eventID in acks && a.eventID !in old(acks);
      out := Ok(a);
    }
  }

  class EventJournal {
    const env: Env
    var sequence: nat
    var floor: nat
    var retention: nat
    var events: seq<Event>
    var flag: Flag
    var ledger: ProjectionLedger?
    var file: Option<Journal>

    ghost function Fields(): Journal
      reads this
    {
      Journal(sequence, floor, retention, events)
    }

    ghost predicate Valid()
      reads this
    {
      ledger != null ==> ledger.env == env
    }

    ghost function View(): Bound
      reads this, ledger
    {
      Bound(Fields(), if ledger == null then None else Some(ledger.View()), flag)
    }

    constructor (env: Env, ledger: ProjectionLedger?)
      requires ledger != null ==> ledger.env == env
      ensures Valid() && this.env == env && this.ledger == ledger && file == None
      ensures Fields() == FreshJournal(env) && flag == Clear
    {
      this.env := env;
      this.ledger := ledger;
      sequence, floor, retention := 0, 0, env.journalRetention;
      events, flag, file := [], Clear, None;
    }

    method Open(stored: Option<Journal>) returns (ok: bool)
      modifies this
      ensures ledger == old(ledger) && flag == old(flag)
      ensures ok == OpenJournal(env, stored).Some?
      ensures ok ==> Fields() == OpenJournal(env, stored).value && file == stored
      ensures !ok ==> Fields() == old(Fields()) && file == old(file)
    {
      var j := Journal(0, 0, env.journalRetention, []);
      if stored.Some? {
        j := stored.value;
        if j.retention == 0 || |j.events| > MaxPageSize || j.floor > j.sequence { return false; }
        var valid := Validate(j);
        if !valid { return false; }
      }
      sequence, floor, retention, events, file := j.sequence, j.floor, j.retention, j.events, stored;
      ok := true;
    }

    method Validate(j: Journal) returns (valid: bool)
      ensures valid == JournalValid(env, j)
    {
      var previous := j.floor;
      for i := 0 to |j.events|
        invariant previous == j.floor + i
        invariant forall k :: 0 <= k < i ==> Placed(env, j.events[k], j.floor + k + 1)
      {
        if !Placed(env, j.events[i], previous + 1) { return false; }
        previous := j.events[i].history.value.sequence;
      }
      valid := !(previous != j.sequence && (|j.events| != 0 || j.sequence != j.floor));
    }

    method Append(e: Event, saved: bool, ledgerSaved: bool) returns (out: Outcome<Identity>)
      requires Valid()
      modifies this, ledger
      ensures Valid() && ledger == old(ledger)
      ensures (View(), out) == HistoryModel.Append(env, old(View()), e, saved, ledgerSaved)
      ensures file == (if Fields() != old(Fields()) then Some(Fields()) else old(file))
    {
      if flag.NeedsRecovery? { return Err(RecoveryRequired); }
      var previousSequence, previousFloor, previousEvents := sequence, floor, events;
      sequence := sequence + 1;
      var stamped := Stamp(env, sequence, e);
      if !env.snapshotOk(stamped) {
        sequence := sequence - 1;
        return Err(InvalidHistory);
      }
      Push(stamped);
      if !saved {
        sequence, floor, events := previousSequence, previousFloor, previousEvents;
        return Err(Unavailable);
      }
      file := Some(Journal(sequence, floor, retention, events));
      if ledger != null {
        var committed := ledger.CommitRetained(stamped, ledgerSaved);
        if committed.Err? {
          flag := NeedsRecovery;
          return Err(RecoveryRequired);
        }
      }
      out := Ok(stamped.history.value);
    }

    /** Adds an event and trims to the bound. */
    method Push(e: Event)
      modifies this`events, this`floor
      ensures Journal(sequence, floor, retention, events) ==
        Extend(Journal(sequence, old(floor), retention, old(events)), e).(sequence := sequence)
    {
      events := events + [e];
      if |events| > retention {
        floor := if events[0].history.Some? then events[0].history.value.sequence else 0;
        events := events[1..];
      }
    }

    method LookupEvent(id: EventID) returns (found: Option<Event>)
      ensures found == FindEvent(events, id)
    {
      for i := 0 to |events|
        invariant FindEvent(events[i..], id) == FindEvent(events, id)
      {
        if events[i].history.Some? && events[i].history.value.eventID == id { return Some(events[i]); }
        assert events[i..][1..] == events[i + 1..];
      }
      found := None;
    }

    /** Checks the offered event against the retained one, then repairs the ledger from it. */
    method ReconcileProjection(e: Event, saved: bool) returns (out: Outcome<Repaired>)
      requires Valid()
      modifies this, ledger
      ensures Valid() && ledger == old(ledger)
      ensures CheckSourceFact(env, old(View()), e).Some? ==>
        View() == old(View()) && out == Err(CheckSourceFact(env, old(View()), e).value)
      ensures CheckSourceFact(env, old(View()), e).None? ==>
        old(View()).ledger.Some? && (View(), out) == Repair(env, old(View()), e, saved)
    {
      if ledger == null { return Err(Unsupported); }
      if e.history.None? { return Err(InvalidHistory); }
      var id := e.history.value;
      if id.source != env.source { return Err(CursorForeign); }
      if id.sequence == 0 { return Err(InvalidHistory); }
      if id.eventID != EventID(env.source, id.sequence) || e.eventID != Some(id.eventID) { return Err(Conflict); }
      var found := LookupEvent(id.eventID);
      if found.None? {
        if id.sequence <= floor { return Err(CursorExpired); }
        if id.sequence > sequence { return Err(Gap); }
        return Err(Conflict);
      }
      if !env.snapshotOk(found.value) || !env.snapshotOk(e) { return Err(InvalidHistory); }
      if found.value != e { return Err(Conflict); }
      out := ledger.ReconcileSourceEvent(e, saved);
      if out.Ok? { flag := Clear; }
    }

    method ReadPage(source: Source, cursor: Option<Cursor>, limit: int) returns (out: Outcome<Page>)
      ensures out == ReadAfter(env, Fields(), source, cursor, limit)
    {
      if limit <= 0 || limit > MaxPageSize { return Err(InvalidHistory); }
      if source != env.source { return Err(CursorForeign); }
      var after: nat := floor;
      if cursor.Some? {
        if cursor.value.Undecodable? { return Err(CursorMalformed); }
        if cursor.value.source != source { return Err(CursorForeign); }
        after := cursor.value.after;
      }
      if after < floor { return Err(CursorExpired); }
      if after > sequence { return Err(Gap); }
      ghost var start := after;
      var page := [];
      var i := 0;
      while i < |events|
        invariant 0 <= i <= |events| && |page| <= limit
        invariant Collect(events[..i], start, limit) == Scan(page, after)
      {
        var e := events[i];
        assert events[..i + 1][..i] == events[..i];
        if e.history.Some? && e.history.value.sequence > after {
          if |page| == limit {
            CollectFull(events, start, limit, i + 1);
            break;
          }
          page := page + [e];
          after := e.history.value.sequence;
        }
        i := i + 1;
      }
      assert events[..|events|] == events;
      var answer := Page(page, Cursor(source, after), Cursor(source, floor), after == sequence);
      out := if env.pageOk(answer) then Ok(answer) else Err(InvalidHistory);
    }
  }

  /** A full page stays as it is, so the read loop may stop. */
  lemma {:induction false} CollectFull(events: seq<Event>, after: nat, limit: nat, i: nat)
    requires i <= |events| && |Collect(events[..i], after, limit).page| == limit
    ensures Collect(events, after, limit) == Collect(events[..i], after, limit)
    decreases |events|
  {
    if i < |events| {
      var n := |events| - 1;
      assert events[..n][..i] == events[..i];
      CollectFull(events[..n], after, limit, i);
    } else {
      assert events[..i] == events;
    }
  }
}

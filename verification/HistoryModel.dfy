/**
 * The retained event journal of one source and the projection ledger bound to
 * it: bounded logs with a retention floor, cursors, acknowledgements, and the
 * repair of the ledger from retained journal events.
 */
module HistoryModel {

  import opened Common

  const MaxPageSize: nat := 200

  datatype Source = Source(kind: string, namespace: string, id: string)

  /** The encoded event id, as an exact injective code of source and sequence. */
  datatype EventID = EventID(source: Source, sequence: nat)

  datatype Identity = Identity(source: Source, sequence: nat, eventID: EventID, terminalOutcome: string)

  datatype Event = Event(
    body: string, payload: string, terminal: bool, sourceState: string, durable: bool,
    eventID: Option<EventID>, history: Option<Identity>)

  /** An opaque cursor: the exact code of a source position, or a string that does not decode. */
  datatype Cursor = Cursor(source: Source, after: nat) | Undecodable

  datatype Error =
    | Unavailable | InvalidHistory | CursorForeign | CursorExpired | CursorMalformed
    | Gap | Conflict | Unsupported | RecoveryRequired

  datatype Outcome<+T> = Ok(value: T) | Err(error: Error)

  /**
   * `snapshotOk` is the size and shape check of a single event, `pageOk` that of
   * a whole page, which has a size bound of its own; `digest` is the record digest.
   */
  datatype Env = Env(
    source: Source, journalRetention: nat, ledgerRetention: nat,
    snapshotOk: Event -> bool, pageOk: Page -> bool, digest: (Event, Cursor, string) -> string)

  ghost predicate EnvOk(env: Env) {
    0 < env.journalRetention <= MaxPageSize && 0 < env.ledgerRetention <= MaxPageSize
  }

  // ----- the journal -----

  /** The journal's fields, and equally its file. */
  datatype Journal = Journal(sequence: nat, floor: nat, retention: nat, events: seq<Event>)

  function FreshJournal(env: Env): Journal { Journal(0, 0, env.journalRetention, []) }

  /** The event as it is retained: payload dropped, identity given by its place in the source. */
  function Stamp(env: Env, sequence: nat, e: Event): Event {
    var id := EventID(env.source, sequence);
    e.(payload := "", durable := true, eventID := Some(id),
       history := Some(Identity(env.source, sequence, id, if e.terminal then e.sourceState else "")))
  }

  /** `events` with one more, and the floor after trimming to `retention`. */
  function Extend(j: Journal, e: Event): Journal {
    var events := j.events + [e];
    if |events| > j.retention then
      var floor := if events[0].history.Some? then events[0].history.value.sequence else 0;
      Journal(j.sequence + 1, floor, j.retention, events[1..])
    else Journal(j.sequence + 1, j.floor, j.retention, events)
  }

  predicate Placed(env: Env, e: Event, sequence: nat) {
    e.history.Some? && e.history.value.source == env.source && e.history.value.sequence == sequence &&
    e.history.value.eventID == EventID(env.source, sequence)
  }

  /** `validateLocked`. */
  predicate JournalValid(env: Env, j: Journal) {
    (forall i :: 0 <= i < |j.events| ==> Placed(env, j.events[i], j.floor + i + 1)) &&
    j.floor + |j.events| == j.sequence
  }

  function OpenJournal(env: Env, disk: Option<Journal>): Option<Journal> {
    match disk
    case None => Some(FreshJournal(env))
    case Some(f) =>
      if f.retention == 0 || |f.events| > MaxPageSize || f.floor > f.sequence || !JournalValid(env, f) then None
      else Some(f)
  }

  datatype Page = Page(events: seq<Event>, next: Cursor, floor: Cursor, complete: bool)

  /** The read loop's variables: what is collected, and the position reached. */
  datatype Scan = Scan(page: seq<Event>, after: nat)

  function Collect(events: seq<Event>, after: nat, limit: nat): Scan {
    if events == [] then Scan([], after)
    else
      var n := |events| - 1;
      var p := Collect(events[..n], after, limit);
      if events[n].history.None? || events[n].history.value.sequence <= p.after || |p.page| == limit then p
      else Scan(p.page + [events[n]], events[n].history.value.sequence)
  }

  function ReadAfter(env: Env, j: Journal, source: Source, cursor: Option<Cursor>, limit: int): Outcome<Page> {
    if limit <= 0 || limit > MaxPageSize then Err(InvalidHistory)
    else if source != env.source then Err(CursorForeign)
    else if cursor.Some? && cursor.value.Undecodable? then Err(CursorMalformed)
    else if cursor.Some? && cursor.value.source != source then Err(CursorForeign)
    else
      var after := if cursor.Some? then cursor.value.after else j.floor;
      if after < j.floor then Err(CursorExpired)
      else if after > j.sequence then Err(Gap)
      else
        var scan := Collect(j.events, after, limit);
        var page := Page(scan.page, Cursor(source, scan.after), Cursor(source, j.floor), scan.after == j.sequence);
        if env.pageOk(page) then Ok(page) else Err(InvalidHistory)
  }

  // ----- the ledger -----

  datatype Record = Record(event: Event, digest: string, cursor: Cursor, terminalEvidence: string)

  datatype Ack = Ack(source: Source, eventID: EventID, digest: string, reference: string, next: Cursor)

  /** The ledger's fields, and equally its file. */
  datatype Ledger = Ledger(sequence: nat, floor: nat, retention: nat, records: seq<Record>, acks: map<EventID, Ack>)

  function FreshLedger(env: Env): Ledger { Ledger(0, 0, env.ledgerRetention, [], map[]) }

  function RecordOf(env: Env, e: Event): Record
    requires e.history.Some?
  {
    var cursor := Cursor(env.source, e.history.value.sequence);
    Record(e, env.digest(e, cursor, e.history.value.terminalOutcome), cursor, e.history.value.terminalOutcome)
  }

  /** `recordByEventIDLocked`: the first record with that id. */
  function FindRecord(records: seq<Record>, id: EventID): Option<Record> {
    if records == [] then None
    else if records[0].event.history.Some? && records[0].event.history.value.eventID == id then Some(records[0])
    else FindRecord(records[1..], id)
  }

  function Advance(l: Ledger, sequence: nat, r: Record): Ledger {
    var records := l.records + [r];
    if |records| > l.retention then
      l.(sequence := sequence, records := records[1..],
         floor := if records[0].event.history.Some? then records[0].event.history.value.sequence else 0)
    else l.(sequence := sequence, records := records)
  }

  /** `commitRetained`; `saved` tells whether the ledger file could be replaced. */
  function CommitRetained(env: Env, l: Ledger, e: Event, saved: bool): (Ledger, Outcome<Record>) {
    if !Placed(env, e, l.sequence + 1) then (l, Err(Conflict))
    else if !env.snapshotOk(e) then (l, Err(InvalidHistory))
    else if !saved then (l, Err(Unavailable))
    else (Advance(l, l.sequence + 1, RecordOf(env, e)), Ok(RecordOf(env, e)))
  }

  datatype Repaired = Repaired(record: Record, duplicate: bool)

  /** `reconcileSourceEvent`. */
  function Reconcile(env: Env, l: Ledger, e: Event, saved: bool): (Ledger, Outcome<Repaired>) {
    if e.history.None? || e.payload != "" then (l, Err(InvalidHistory))
    else if e.history.value.source != env.source then (l, Err(CursorForeign))
    else if e.history.value.sequence == 0 then (l, Err(InvalidHistory))
    else if e.history.value.eventID != EventID(env.source, e.history.value.sequence) ||
            e.eventID != Some(e.history.value.eventID) then (l, Err(Conflict))
    else if !env.snapshotOk(e) then (l, Err(InvalidHistory))
    else
      var r := RecordOf(env, e);
      var found := FindRecord(l.records, e.history.value.eventID);
      if found.Some? then
        (l, if found.value == r then Ok(Repaired(r, true)) else Err(Conflict))
      else if e.history.value.sequence < l.floor then (l, Err(CursorExpired))
      else if e.history.value.sequence != l.sequence + 1 then (l, Err(Gap))
      else if !saved then (l, Err(Unavailable))
      else (Advance(l, e.history.value.sequence, r), Ok(Repaired(r, false)))
  }

  function Acknowledge(env: Env, l: Ledger, a: Ack, saved: bool): (Ledger, Outcome<Ack>) {
    if a.reference == "" then (l, Err(InvalidHistory))
    else if a.source != env.source then (l, Err(CursorForeign))
    else
      var found := FindRecord(l.records, a.eventID);
      if found.None? || found.value.digest != a.digest || found.value.cursor != a.next then (l, Err(Conflict))
      else if a.eventID in l.acks then (l, if l.acks[a.eventID] == a then Ok(a) else Err(Conflict))
      else if !saved then (l, Err(Unavailable))
      else (l.(acks := l.acks[a.eventID := a]), Ok(a))
  }

  predicate RecordPlaced(env: Env, r: Record, sequence: nat) {
    Placed(env, r.event, sequence) && r.cursor == Cursor(env.source, sequence) &&
    r.digest == env.digest(r.event, r.cursor, r.terminalEvidence)
  }

  predicate AckMatches(env: Env, l: Ledger, id: EventID, a: Ack) {
    var found := FindRecord(l.records, id);
    found.Some? && a.source == env.source && a.eventID == id && a.digest == found.value.digest &&
    a.next == found.value.cursor && a.reference != ""
  }

  /** The ledger's `validateLocked`. */
  predicate LedgerValid(env: Env, l: Ledger) {
    |l.records| <= MaxPageSize &&
    (forall i :: 0 <= i < |l.records| ==> RecordPlaced(env, l.records[i], l.floor + i + 1)) &&
    l.floor + |l.records| == l.sequence &&
    (forall id :: id in l.acks ==> AckMatches(env, l, id, l.acks[id]))
  }

  function OpenLedger(env: Env, disk: Option<Ledger>): Option<Ledger> {
    match disk
    case None => Some(FreshLedger(env))
    case Some(f) => if f.retention == 0 || f.floor > f.sequence || !LedgerValid(env, f) then None else Some(f)
  }

  // ----- appending with a bound ledger, and repairing it -----

  datatype Flag = Clear | NeedsRecovery

  datatype Bound = Bound(journal: Journal, ledger: Option<Ledger>, flag: Flag)

  /** `Append`; `saved` and `ledgerSaved` tell whether the two files could be replaced. */
  function Append(env: Env, b: Bound, e: Event, saved: bool, ledgerSaved: bool): (Bound, Outcome<Identity>) {
    if b.flag.NeedsRecovery? then (b, Err(RecoveryRequired))
    else
      var stamped := Stamp(env, b.journal.sequence + 1, e);
      if !env.snapshotOk(stamped) then (b, Err(InvalidHistory))
      else if !saved then (b, Err(Unavailable))
      else
        var j := Extend(b.journal, stamped);
        if b.ledger.None? then (b.(journal := j), Ok(stamped.history.value))
        else
          var (l, out) := CommitRetained(env, b.ledger.value, stamped, ledgerSaved);
          if out.Err? then (Bound(j, Some(l), NeedsRecovery), Err(RecoveryRequired))
          else (Bound(j, Some(l), Clear), Ok(stamped.history.value))
  }

  /** The first half of `ReconcileProjection`, under the journal's lock: is `e` the retained source fact? */
  function CheckSourceFact(env: Env, b: Bound, e: Event): Option<Error> {
    if b.ledger.None? then Some(Unsupported)
    else if e.history.None? then Some(InvalidHistory)
    else if e.history.value.source != env.source then Some(CursorForeign)
    else if e.history.value.sequence == 0 then Some(InvalidHistory)
    else if e.history.value.eventID != EventID(env.source, e.history.value.sequence) ||
            e.eventID != Some(e.history.value.eventID) then Some(Conflict)
    else
      var found := FindEvent(b.journal.events, e.history.value.eventID);
      if found.None? then
        Some(if e.history.value.sequence <= b.journal.floor then CursorExpired
             else if e.history.value.sequence > b.journal.sequence then Gap else Conflict)
      else if !env.snapshotOk(found.value) || !env.snapshotOk(e) then Some(InvalidHistory)
      else if found.value != e then Some(Conflict)
      else None
  }

  function FindEvent(events: seq<Event>, id: EventID): Option<Event> {
    if events == [] then None
    else if events[0].history.Some? && events[0].history.value.eventID == id then Some(events[0])
    else FindEvent(events[1..], id)
  }

  /** The second half: the ledger is repaired, and success clears the recovery flag. */
  function Repair(env: Env, b: Bound, e: Event, ledgerSaved: bool): (Bound, Outcome<Repaired>)
    requires b.ledger.Some?
  {
    var (l, out) := Reconcile(env, b.ledger.value, e, ledgerSaved);
    (b.(ledger := Some(l), flag := if out.Ok? then Clear else b.flag), out)
  }
}

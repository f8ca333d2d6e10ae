/**
 * The journal and the ledger as windows onto one history of source events:
 * what each operation keeps, when a ledger reopens, when a repair catches up,
 * and what a page contains.
 */
module HistoryLaws {

  import opened Common
  import opened HistoryModel

  // ----- windows onto the source's full history -----

  /** The event the source appended with sequence `i + 1`, for every `i`. */
  ghost predicate FactsOk(env: Env, all: seq<Event>) {
    forall i :: 0 <= i < |all| ==> FactOk(env, all[i], i + 1)
  }

  predicate FactOk(env: Env, e: Event, sequence: nat) {
    Placed(env, e, sequence) && e.eventID == Some(EventID(env.source, sequence)) && e.payload == "" && env.snapshotOk(e)
  }

  ghost predicate IsWindow<T>(part: seq<T>, all: seq<T>, floor: nat) {
    floor + |part| <= |all| && forall i :: 0 <= i < |part| ==> part[i] == all[floor + i]
  }

  /** The journal retains exactly the events floor+1 .. sequence, within its bound. */
  ghost predicate JournalInv(env: Env, j: Journal, all: seq<Event>) {
    0 < j.retention <= MaxPageSize && |j.events| <= j.retention &&
    j.sequence == |all| && j.floor + |j.events| == |all| && IsWindow(j.events, all, j.floor)
  }

  ghost predicate RecordsMatch(env: Env, records: seq<Record>, all: seq<Event>, floor: nat) {
    floor + |records| <= |all| && forall i :: 0 <= i < |records| ==> IsRecordOf(env, records[i], all[floor + i])
  }

  predicate IsRecordOf(env: Env, r: Record, e: Event) { e.history.Some? && r == RecordOf(env, e) }

  /** An acknowledgement repeats the record of the event it names. */
  predicate AckOk(env: Env, id: EventID, a: Ack, all: seq<Event>) {
    id.source == env.source && 0 < id.sequence <= |all| && all[id.sequence - 1].history.Some? &&
    a.source == env.source && a.eventID == id && a.reference != "" &&
    a.digest == RecordOf(env, all[id.sequence - 1]).digest && a.next == RecordOf(env, all[id.sequence - 1]).cursor
  }

  ghost predicate AcksOk(env: Env, l: Ledger, all: seq<Event>) {
    forall id :: id in l.acks ==> AckOk(env, id, l.acks[id], all) && id.sequence <= l.sequence
  }

  ghost predicate LedgerInv(env: Env, l: Ledger, all: seq<Event>) {
    0 < l.retention <= MaxPageSize && |l.records| <= l.retention &&
    l.floor + |l.records| == l.sequence <= |all| && RecordsMatch(env, l.records, all, l.floor) && AcksOk(env, l, all)
  }

  // ----- single operations -----

  lemma JournalExtends(env: Env, j: Journal, all: seq<Event>, e: Event)
    requires FactsOk(env, all) && JournalInv(env, j, all) && FactOk(env, e, |all| + 1)
    ensures JournalInv(env, Extend(j, e), all + [e]) && FactsOk(env, all + [e])
  {
    var events := j.events + [e];
    assert events[0] == (all + [e])[j.floor];
  }

  lemma JournalReopens(env: Env, j: Journal, all: seq<Event>)
    requires FactsOk(env, all) && JournalInv(env, j, all)
    ensures OpenJournal(env, Some(j)) == Some(j)
  {
    forall i | 0 <= i < |j.events| ensures Placed(env, j.events[i], j.floor + i + 1) {
      assert FactOk(env, all[j.floor + i], j.floor + i + 1);
    }
  }

  lemma RecordsAdvance(env: Env, records: seq<Record>, all: seq<Event>, floor: nat)
    requires FactsOk(env, all) && RecordsMatch(env, records, all, floor) && floor + |records| < |all|
    ensures FactOk(env, all[floor + |records|], floor + |records| + 1)
    ensures var longer := records + [RecordOf(env, all[floor + |records|])];
      RecordsMatch(env, longer, all, floor) && RecordsMatch(env, longer[1..], all, floor + 1) &&
      longer[0].event.history.Some? && longer[0].event.history.value.sequence == floor + 1
  {
    assert FactOk(env, all[floor + |records|], floor + |records| + 1);
    assert FactOk(env, all[floor], floor + 1);
    var longer := records + [RecordOf(env, all[floor + |records|])];
    assert RecordsMatch(env, longer, all, floor);
    assert longer[0] == RecordOf(env, all[floor]);
  }

  lemma LedgerAdvances(env: Env, l: Ledger, all: seq<Event>)
    requires FactsOk(env, all) && LedgerInv(env, l, all) && l.sequence < |all|
    ensures FactOk(env, all[l.sequence], l.sequence + 1)
    ensures LedgerInv(env, Advance(l, l.sequence + 1, RecordOf(env, all[l.sequence])), all)
  {
    RecordsAdvance(env, l.records, all, l.floor);
  }

  lemma RecordsUnderAppend(env: Env, records: seq<Record>, all: seq<Event>, floor: nat, e: Event)
    requires RecordsMatch(env, records, all, floor)
    ensures RecordsMatch(env, records, all + [e], floor)
  {
    forall i | 0 <= i < |records| ensures IsRecordOf(env, records[i], (all + [e])[floor + i]) {
      assert IsRecordOf(env, records[i], all[floor + i]);
    }
  }

  lemma AckUnderAppend(env: Env, id: EventID, a: Ack, all: seq<Event>, e: Event)
    requires AckOk(env, id, a, all)
    ensures AckOk(env, id, a, all + [e])
  {
    assert (all + [e])[id.sequence - 1] == all[id.sequence - 1];
  }

  lemma LedgerUnderAppend(env: Env, l: Ledger, all: seq<Event>, e: Event)
    requires LedgerInv(env, l, all)
    ensures LedgerInv(env, l, all + [e])
  {
    RecordsUnderAppend(env, l.records, all, l.floor, e);
    forall id | id in l.acks ensures AckOk(env, id, l.acks[id], all + [e]) {
      AckUnderAppend(env, id, l.acks[id], all, e);
    }
  }

  /** A lookup by id finds the record of that sequence, exactly when it is retained. */
  lemma {:induction false} FindInWindow(env: Env, records: seq<Record>, all: seq<Event>, floor: nat, id: EventID)
    requires FactsOk(env, all) && RecordsMatch(env, records, all, floor)
    ensures var found := FindRecord(records, id);
      (found.Some? <==> id.source == env.source && floor < id.sequence <= floor + |records|) &&
      (found.Some? ==> all[id.sequence - 1].history.Some? && found.value == RecordOf(env, all[id.sequence - 1]))
    decreases |records|
  {
    if records != [] {
      assert FactOk(env, all[floor], floor + 1);
      FindInWindow(env, records[1..], all, floor + 1, id);
    }
  }

  lemma {:induction false} FindEventInWindow(env: Env, events: seq<Event>, all: seq<Event>, floor: nat, id: EventID)
    requires FactsOk(env, all) && IsWindow(events, all, floor)
    ensures var found := FindEvent(events, id);
      (found.Some? <==> id.source == env.source && floor < id.sequence <= floor + |events|) &&
      (found.Some? ==> found.value == all[id.sequence - 1])
    decreases |events|
  {
    if events != [] {
      assert FactOk(env, all[floor], floor + 1);
      FindEventInWindow(env, events[1..], all, floor + 1, id);
    }
  }

  /** `l'` is `l`, or `l` advanced by the event `e` that comes next. */
  predicate MovesBy(env: Env, l: Ledger, l': Ledger, e: Event) {
    l' == l || (e.history.Some? && e.history.value.sequence == l.sequence + 1 &&
                l' == Advance(l, l.sequence + 1, RecordOf(env, e)))
  }

  lemma MoveKeeps(env: Env, l: Ledger, l': Ledger, all: seq<Event>, e: Event)
    requires FactsOk(env, all) && LedgerInv(env, l, all) && MovesBy(env, l, l', e)
    requires e.history.Some? && 0 < e.history.value.sequence <= |all| && all[e.history.value.sequence - 1] == e
    ensures LedgerInv(env, l', all) && l.sequence <= l'.sequence <= l.sequence + 1 && l'.acks == l.acks
  {
    if l' != l { LedgerAdvances(env, l, all); }
  }

  lemma ReconcileMoves(env: Env, l: Ledger, e: Event, saved: bool)
    ensures MovesBy(env, l, Reconcile(env, l, e, saved).0, e)
  {
  }

  lemma CommitMoves(env: Env, l: Ledger, e: Event, saved: bool)
    ensures MovesBy(env, l, CommitRetained(env, l, e, saved).0, e)
  {
  }

  /** `l'` is `l`, or `l` with one more acknowledgement. */
  predicate AcknowledgesBy(env: Env, l: Ledger, l': Ledger, a: Ack) {
    l' == l || (a.eventID !in l.acks && a.source == env.source && a.reference != "" &&
                FindRecord(l.records, a.eventID).Some? && FindRecord(l.records, a.eventID).value.digest == a.digest &&
                FindRecord(l.records, a.eventID).value.cursor == a.next && l' == l.(acks := l.acks[a.eventID := a]))
  }

  lemma AcknowledgeMoves(env: Env, l: Ledger, a: Ack, saved: bool)
    ensures AcknowledgesBy(env, l, Acknowledge(env, l, a, saved).0, a)
  {
  }

  lemma NewAckOk(env: Env, l: Ledger, all: seq<Event>, a: Ack)
    requires FactsOk(env, all) && LedgerInv(env, l, all)
    requires AcknowledgesBy(env, l, l.(acks := l.acks[a.eventID := a]), a)
    requires a.eventID !in l.acks
    ensures AckOk(env, a.eventID, a, all) && a.eventID.sequence <= l.sequence
  {
    FindInWindow(env, l.records, all, l.floor, a.eventID);
  }

  lemma AcknowledgeKeeps(env: Env, l: Ledger, l': Ledger, all: seq<Event>, a: Ack)
    requires FactsOk(env, all) && LedgerInv(env, l, all) && AcknowledgesBy(env, l, l', a)
    ensures LedgerInv(env, l', all)
  {
    if l' != l { NewAckOk(env, l, all, a); }
  }

  // ----- acknowledgements and reopening the ledger -----

  /** While its event is retained, an acknowledgement carries the retained record's digest and cursor. */
  lemma RetainedAckMatches(env: Env, l: Ledger, all: seq<Event>, id: EventID)
    requires FactsOk(env, all) && LedgerInv(env, l, all) && id in l.acks
    ensures FindRecord(l.records, id).Some? <==> l.floor < id.sequence
    ensures FindRecord(l.records, id).Some? ==> AckMatches(env, l, id, l.acks[id])
  {
    FindInWindow(env, l.records, all, l.floor, id);
    assert AckOk(env, id, l.acks[id], all);
  }

  /** A ledger reopens if and only if every acknowledged event is still retained. */
  lemma LedgerReopensIff(env: Env, l: Ledger, all: seq<Event>)
    requires FactsOk(env, all) && LedgerInv(env, l, all)
    ensures OpenLedger(env, Some(l)).Some? <==> forall id :: id in l.acks ==> FindRecord(l.records, id).Some?
    ensures OpenLedger(env, Some(l)).Some? ==> OpenLedger(env, Some(l)).value == l
  {
    forall i | 0 <= i < |l.records| ensures RecordPlaced(env, l.records[i], l.floor + i + 1) {
      assert FactOk(env, all[l.floor + i], l.floor + i + 1);
    }
    forall id | id in l.acks ensures AckMatches(env, l, id, l.acks[id]) <==> FindRecord(l.records, id).Some? {
      RetainedAckMatches(env, l, all, id);
    }
  }

  /**
   * Records are trimmed but their acknowledgements are not: when the oldest
   * retained event is acknowledged, committing one more locks the ledger out.
   */
  lemma TrimmingAckedEventLocksLedger(env: Env, l: Ledger, all: seq<Event>, id: EventID)
    requires FactsOk(env, all) && LedgerInv(env, l, all) && l.sequence < |all|
    requires |l.records| == l.retention && id in l.acks && id.sequence == l.floor + 1
    ensures CommitRetained(env, l, all[l.sequence], true).1.Ok?
    ensures OpenLedger(env, Some(CommitRetained(env, l, all[l.sequence], true).0)).None?
  {
    assert FactOk(env, all[l.sequence], l.sequence + 1) && FactOk(env, all[l.floor], l.floor + 1);
    var l' := CommitRetained(env, l, all[l.sequence], true).0;
    LedgerAdvances(env, l, all);
    LedgerReopensIff(env, l', all);
    RetainedAckMatches(env, l', all, id);
  }

  // ----- repairing the ledger -----

  /** `bs` are the states while the events after position `from` are offered to the ledger one by one, in order. */
  ghost predicate IsRepair(env: Env, bs: seq<Bound>, all: seq<Event>, from: nat) {
    from <= |all| && |bs| == |all| - from + 1 &&
    forall i :: 0 <= i < |bs| - 1 ==> RepairsAt(env, bs, all, from, i)
  }

  predicate RepairsAt(env: Env, bs: seq<Bound>, all: seq<Event>, from: nat, i: nat)
    requires i + 1 < |bs| && from + i < |all|
  {
    Repairs(env, bs[i], bs[i + 1], all[from + i])
  }

  predicate Repairs(env: Env, b: Bound, b': Bound, e: Event) { b.ledger.Some? && b' == Repair(env, b, e, true).0 }

  /** Journal and ledger are sound, the ledger stands at `n`, and the journal retains everything after it. */
  ghost predicate StandsAt(env: Env, b: Bound, all: seq<Event>, n: nat) {
    JournalInv(env, b.journal, all) && b.ledger.Some? && LedgerInv(env, b.ledger.value, all) &&
    b.journal.floor <= n == b.ledger.value.sequence
  }

  lemma RetainedFactPasses(env: Env, b: Bound, all: seq<Event>, i: nat)
    requires FactsOk(env, all) && JournalInv(env, b.journal, all) && b.ledger.Some?
    requires b.journal.floor <= i < |all|
    ensures CheckSourceFact(env, b, all[i]).None?
  {
    assert FactOk(env, all[i], i + 1);
    FindEventInWindow(env, b.journal.events, all, b.journal.floor, EventID(env.source, i + 1));
  }

  /** The event that comes next is always accepted. */
  lemma NextEventReconciles(env: Env, l: Ledger, all: seq<Event>)
    requires FactsOk(env, all) && LedgerInv(env, l, all) && l.sequence < |all|
    ensures all[l.sequence].history.Some?
    ensures Reconcile(env, l, all[l.sequence], true) ==
      (Advance(l, l.sequence + 1, RecordOf(env, all[l.sequence])), Ok(Repaired(RecordOf(env, all[l.sequence]), false)))
  {
    assert FactOk(env, all[l.sequence], l.sequence + 1);
    FindInWindow(env, l.records, all, l.floor, EventID(env.source, l.sequence + 1));
  }

  lemma RepairNext(env: Env, b: Bound, b': Bound, all: seq<Event>, n: nat)
    requires FactsOk(env, all) && StandsAt(env, b, all, n) && n < |all| && Repairs(env, b, b', all[n])
    ensures CheckSourceFact(env, b, all[n]).None?
    ensures StandsAt(env, b', all, n + 1) && b'.journal == b.journal && b'.flag == Clear
  {
    RetainedFactPasses(env, b, all, n);
    NextEventReconciles(env, b.ledger.value, all);
    LedgerAdvances(env, b.ledger.value, all);
  }

  /**
   * From a ledger that has not fallen below the journal's floor, ordered repair
   * passes every check, advances by one each time and so catches up.
   */
  lemma {:induction false} RepairCatchesUp(env: Env, bs: seq<Bound>, all: seq<Event>, from: nat, i: nat)
    requires FactsOk(env, all) && IsRepair(env, bs, all, from) && i < |bs| && StandsAt(env, bs[0], all, from)
    ensures StandsAt(env, bs[i], all, from + i) && bs[i].journal == bs[0].journal
    ensures i > 0 ==> bs[i].flag == Clear && CheckSourceFact(env, bs[i - 1], all[from + i - 1]).None?
  {
    if i > 0 {
      RepairCatchesUp(env, bs, all, from, i - 1);
      assert RepairsAt(env, bs, all, from, i - 1);
      RepairNext(env, bs[i - 1], bs[i], all, from + i - 1);
    }
  }

  /** An event that passes the journal's check is above the journal's floor. */
  lemma CheckedIsRetained(env: Env, b: Bound, all: seq<Event>, e: Event)
    requires FactsOk(env, all) && JournalInv(env, b.journal, all) && CheckSourceFact(env, b, e).None?
    ensures e.history.Some? && b.journal.floor < e.history.value.sequence <= |all|
    ensures all[e.history.value.sequence - 1] == e
  {
    FindEventInWindow(env, b.journal.events, all, b.journal.floor, e.history.value.eventID);
  }

  /** A source event repairs the ledger, or repeats what it holds, exactly by its sequence. */
  lemma ReconcileIff(env: Env, l: Ledger, all: seq<Event>, i: nat, saved: bool)
    requires FactsOk(env, all) && LedgerInv(env, l, all) && i < |all|
    ensures var (l', out) := Reconcile(env, l, all[i], saved);
      (l' != l <==> i == l.sequence && saved) && (l' != l ==> l'.sequence == l.sequence + 1) &&
      (out.Ok? <==> l.floor <= i < l.sequence || (i == l.sequence && saved)) &&
      (out.Ok? ==> out.value.duplicate == (i < l.sequence))
  {
    assert FactOk(env, all[i], i + 1);
    FindInWindow(env, l.records, all, l.floor, EventID(env.source, i + 1));
  }

  /**
   * Reconciling an event the ledger already holds clears the recovery flag
   * without repairing anything, so the next append widens the lag by one more.
   */
  lemma DuplicateRepairLetsLagGrow(env: Env, b: Bound, all: seq<Event>, i: nat, e: Event)
    requires FactsOk(env, all) && JournalInv(env, b.journal, all) && b.flag.NeedsRecovery?
    requires b.ledger.Some? && LedgerInv(env, b.ledger.value, all) && b.ledger.value.sequence < |all|
    requires b.journal.floor <= i && b.ledger.value.floor <= i < b.ledger.value.sequence
    requires env.snapshotOk(Stamp(env, |all| + 1, e))
    ensures CheckSourceFact(env, b, all[i]).None?
    ensures var (b1, out) := Repair(env, b, all[i], true);
      out.Ok? && out.value.duplicate && b1 == b.(flag := Clear) &&
      var (b2, out2) := Append(env, b1, e, true, true);
      out2 == Err(RecoveryRequired) && b2.flag.NeedsRecovery? && b2.ledger == b.ledger &&
      b2.journal.sequence == |all| + 1
  {
    var l := b.ledger.value;
    RetainedFactPasses(env, b, all, i);
    assert FactOk(env, all[i], i + 1);
    FindInWindow(env, l.records, all, l.floor, EventID(env.source, i + 1));
  }

  // ----- reading -----

  function Min(a: int, b: int): int { if a < b then a else b }

  lemma {:induction false} CollectWindow(env: Env, events: seq<Event>, all: seq<Event>, floor: nat, after: nat,
                                         limit: nat)
    requires FactsOk(env, all) && IsWindow(events, all, floor) && floor <= after
    ensures var scan := Collect(events, after, limit); var reach := floor + |events|;
      scan.after == (if reach <= after then after else Min(after + limit, reach)) &&
      |scan.page| == scan.after - after && (reach > after ==> IsWindow(scan.page, all, after))
    decreases |events|
  {
    if events != [] {
      var n := |events| - 1;
      CollectWindow(env, events[..n], all, floor, after, limit);
      assert FactOk(env, all[floor + n], floor + n + 1);
    }
  }

  /** The next events of the source after a position, in order and without a gap, up to the limit. */
  function NextPage(env: Env, j: Journal, all: seq<Event>, after: nat, limit: nat): Page
    requires after <= |all|
  {
    var reach := Min(after + limit, |all|);
    Page(all[after..reach], Cursor(env.source, reach), Cursor(env.source, j.floor), after + limit >= |all|)
  }

  /**
   * A read from any position is refused by the bounds, answered with exactly the
   * next events, or refused as a page too large.
   */
  lemma PageIsNextEvents(env: Env, j: Journal, all: seq<Event>, after: nat, limit: int)
    requires FactsOk(env, all) && JournalInv(env, j, all) && 0 < limit <= MaxPageSize
    ensures ReadAfter(env, j, env.source, Some(Cursor(env.source, after)), limit) ==
      if after < j.floor then Err(CursorExpired)
      else if after > |all| then Err(Gap)
      else if env.pageOk(NextPage(env, j, all, after, limit)) then Ok(NextPage(env, j, all, after, limit))
      else Err(InvalidHistory)
  {
    if j.floor <= after <= |all| {
      CollectWindow(env, j.events, all, j.floor, after, limit);
      assert Collect(j.events, after, limit).page == NextPage(env, j, all, after, limit).events;
    }
  }
}

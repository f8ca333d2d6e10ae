/**
 * What the journal and its ledger keep over whole runs of appends, failed
 * persists, repairs, acknowledgements, reads, crashes and reopens.
 */
module HistoryRuns {

  import opened Common
  import opened HistoryModel
  import opened HistoryLaws

  /** Where in an operation the process dies. */
  datatype Crash = NoCrash | BeforeSaves | BetweenSaves | AfterSaves

  /** A reader that follows the cursors it is given. */
  datatype Reader = Reader(start: nat, after: nat, seen: seq<Event>)

  /**
   * Files, the process if it is up, repairs between the journal's check and the
   * ledger (`checked`) and between the ledger and the recovery flag (`clearing`,
   * by sequence), the source's history, one reader.
   */
  datatype System = System(
    journalFile: Option<Journal>, ledgerFile: Option<Ledger>, up: Option<Bound>,
    checked: set<Event>, clearing: multiset<nat>, all: seq<Event>, reader: Option<Reader>)

  datatype Step =
    | AppendStep(e: Event, saved: bool, ledgerSaved: bool, crash: Crash)
    | CheckStep(e: Event)
    | RepairStep(e: Event, saved: bool, crash: Crash)  // the ledger's part of a repair
    | ClearStep(n: nat)                                // a repair that succeeded clears the recovery flag
    | AckStep(a: Ack, saved: bool, crash: Crash)
    | ReadStep(limit: int)
    | CrashStep
    | OpenStep(withLedger: bool)

  function Stopped(s: System): System { s.(up := None, checked := {}, clearing := multiset{}) }

  /** The process after an operation that changed the ledger to `l`. */
  function LedgerSaved(s: System, l: Ledger, b: Bound, crash: Crash): System
    requires s.up.Some?
  {
    match crash
    case BeforeSaves => Stopped(s)
    case BetweenSaves => Stopped(s)
    case AfterSaves => Stopped(s.(ledgerFile := if Some(l) != s.up.value.ledger then Some(l) else s.ledgerFile))
    case NoCrash => s.(ledgerFile := if Some(l) != s.up.value.ledger then Some(l) else s.ledgerFile, up := Some(b))
  }

  function Repairing(s: System, e: Event, out: Outcome<Repaired>): System {
    if out.Ok? && e.history.Some? then s.(clearing := s.clearing + multiset{e.history.value.sequence}) else s
  }

  /** The journal file now holds the stamped event `st`; the ledger file follows if the ledger changed. */
  function Wrote(s: System, st: Event, b: Bound, b': Bound, crash: Crash): System {
    var t := s.(journalFile := Some(b'.journal), all := s.all + [st]);
    var u := if b'.ledger == b.ledger then t else t.(ledgerFile := b'.ledger);
    match crash
    case BetweenSaves => Stopped(t)
    case AfterSaves => Stopped(u)
    case _ => u.(up := Some(b'))
  }

  /** An append turned `b` into `b'`, where `st` is the stamped event. */
  function AppendIn(s: System, st: Event, b: Bound, b': Bound, crash: Crash): System {
    if crash.BeforeSaves? then Stopped(s)
    else if b'.journal == b.journal then (if crash.NoCrash? then s.(up := Some(b')) else Stopped(s))
    else Wrote(s, st, b, b', crash)
  }

  function ReadIn(env: Env, s: System, j: Journal, limit: int): System {
    var cursor := if s.reader.Some? then Some(Cursor(env.source, s.reader.value.after)) else None;
    match ReadAfter(env, j, env.source, cursor, limit)
    case Err(_) => s
    case Ok(page) =>
      var r := if s.reader.Some? then s.reader.value else Reader(j.floor, j.floor, []);
      var after := if page.next.Cursor? then page.next.after else r.after;
      s.(reader := Some(r.(after := after, seen := r.seen + page.events)))
  }

  function Next(env: Env, s: System, step: Step): System {
    if step.OpenStep? then
      if s.up.Some? then s
      else
        var j := OpenJournal(env, s.journalFile);
        var l := OpenLedger(env, s.ledgerFile);
        if j.None? || (step.withLedger && l.None?) then s
        else s.(up := Some(Bound(j.value, if step.withLedger then l else None, Clear)))
    else if s.up.None? then s
    else
      var b := s.up.value;
      match step
      case AppendStep(e, saved, ledgerSaved, crash) =>
        AppendIn(s, Stamp(env, b.journal.sequence + 1, e), b, Append(env, b, e, saved, ledgerSaved).0, crash)
      case CheckStep(e) => if CheckSourceFact(env, b, e).None? then s.(checked := s.checked + {e}) else s
      case RepairStep(e, saved, crash) =>
        if e in s.checked && b.ledger.Some? then
          var (l', out) := Reconcile(env, b.ledger.value, e, saved);
          LedgerSaved(Repairing(s, e, out), l', b.(ledger := Some(l')), crash)
        else s
      case ClearStep(n) =>
        if n in s.clearing then s.(up := Some(b.(flag := Clear)), clearing := s.clearing - multiset{n}) else s
      case AckStep(a, saved, crash) =>
        if b.ledger.Some? then
          var l' := Acknowledge(env, b.ledger.value, a, saved).0;
          LedgerSaved(s, l', b.(ledger := Some(l')), crash)
        else s
      case ReadStep(limit) => ReadIn(env, s, b.journal, limit)
      case CrashStep => Stopped(s)
  }

  ghost predicate FilesInv(env: Env, s: System) {
    FactsOk(env, s.all) &&
    (s.journalFile.None? ==> s.all == []) && (s.journalFile.Some? ==> JournalInv(env, s.journalFile.value, s.all)) &&
    (s.ledgerFile.Some? ==> LedgerInv(env, s.ledgerFile.value, s.all))
  }

  /** A process that is up holds in memory what its files hold. */
  ghost predicate UpInv(env: Env, s: System) {
    s.up.Some? ==>
      s.up.value.journal == (if s.journalFile.Some? then s.journalFile.value else FreshJournal(env)) &&
      (s.up.value.ledger.Some? ==>
         s.up.value.ledger.value == (if s.ledgerFile.Some? then s.ledgerFile.value else FreshLedger(env)))
  }

  predicate FactIn(all: seq<Event>, e: Event) {
    e.history.Some? && 0 < e.history.value.sequence <= |all| && all[e.history.value.sequence - 1] == e
  }

  ghost predicate CheckedInv(s: System) { forall e :: e in s.checked ==> FactIn(s.all, e) }

  ghost predicate ReaderInv(s: System) {
    s.reader.Some? ==>
      var r := s.reader.value;
      r.start <= r.after <= |s.all| && |r.seen| == r.after - r.start && IsWindow(r.seen, s.all, r.start)
  }

  ghost predicate Inv(env: Env, s: System) {
    EnvOk(env) && FilesInv(env, s) && UpInv(env, s) && CheckedInv(s) && ReaderInv(s)
  }

  lemma UpHolds(env: Env, s: System)
    requires Inv(env, s) && s.up.Some?
    ensures JournalInv(env, s.up.value.journal, s.all)
    ensures s.up.value.ledger.Some? ==> LedgerInv(env, s.up.value.ledger.value, s.all)
  {
  }

  lemma WindowGrows<T>(part: seq<T>, all: seq<T>, floor: nat, x: T)
    requires IsWindow(part, all, floor)
    ensures IsWindow(part, all + [x], floor)
  {
  }

  lemma StampedFact(env: Env, sequence: nat, e: Event)
    requires env.snapshotOk(Stamp(env, sequence, e))
    ensures FactOk(env, Stamp(env, sequence, e), sequence)
  {
  }

  lemma GrowHistory(env: Env, s: System, e: Event)
    requires Inv(env, s) && FactOk(env, e, |s.all| + 1)
    ensures FactsOk(env, s.all + [e]) && CheckedInv(s.(all := s.all + [e])) && ReaderInv(s.(all := s.all + [e]))
    ensures s.ledgerFile.Some? ==> LedgerInv(env, s.ledgerFile.value, s.all + [e])
    ensures s.up.Some? && s.up.value.ledger.Some? ==> LedgerInv(env, s.up.value.ledger.value, s.all + [e])
  {
    if s.ledgerFile.Some? { LedgerUnderAppend(env, s.ledgerFile.value, s.all, e); }
    if s.up.Some? && s.up.value.ledger.Some? {
      UpHolds(env, s);
      LedgerUnderAppend(env, s.up.value.ledger.value, s.all, e);
    }
    if s.reader.Some? { WindowGrows(s.reader.value.seen, s.all, s.reader.value.start, e); }
  }

  /** What an append does to journal and ledger. */
  predicate Appends(env: Env, b: Bound, b': Bound, st: Event) {
    if b'.journal == b.journal then b'.ledger == b.ledger
    else env.snapshotOk(st) && b'.journal == Extend(b.journal, st) && b'.ledger.Some? == b.ledger.Some? &&
         (b.ledger.Some? ==> MovesBy(env, b.ledger.value, b'.ledger.value, st))
  }

  lemma AppendShape(env: Env, b: Bound, e: Event, saved: bool, ledgerSaved: bool)
    ensures Appends(env, b, Append(env, b, e, saved, ledgerSaved).0, Stamp(env, b.journal.sequence + 1, e))
  {
    if b.ledger.Some? { CommitMoves(env, b.ledger.value, Stamp(env, b.journal.sequence + 1, e), ledgerSaved); }
  }

  /** The journal file has been replaced and the process goes on with `b'`, or not at all. */
  lemma WroteJournal(env: Env, s: System, st: Event, j: Journal)
    requires Inv(env, s) && FactOk(env, st, |s.all| + 1) && JournalInv(env, j, s.all + [st])
    ensures Inv(env, Stopped(s.(journalFile := Some(j), all := s.all + [st])))
  {
    GrowHistory(env, s, st);
  }

  lemma WroteBoth(env: Env, s: System, st: Event, j: Journal, l: Ledger)
    requires Inv(env, s) && FactOk(env, st, |s.all| + 1) && JournalInv(env, j, s.all + [st])
    requires LedgerInv(env, l, s.all + [st])
    ensures Inv(env, Stopped(s.(journalFile := Some(j), all := s.all + [st], ledgerFile := Some(l))))
  {
    GrowHistory(env, s, st);
  }

  lemma StaysUp(env: Env, s: System, b: Bound)
    requires Inv(env, Stopped(s)) && CheckedInv(s)
    requires UpInv(env, s.(up := Some(b)))
    ensures Inv(env, s.(up := Some(b)))
  {
  }

  lemma WroteKeepsInv(env: Env, s: System, st: Event, b': Bound, crash: Crash)
    requires Inv(env, s) && s.up.Some? && FactOk(env, st, |s.all| + 1) && JournalInv(env, b'.journal, s.all + [st])
    requires b'.ledger != s.up.value.ledger ==> b'.ledger.Some? && LedgerInv(env, b'.ledger.value, s.all + [st])
    ensures Inv(env, Wrote(s, st, s.up.value, b', crash))
  {
    GrowHistory(env, s, st);
    WroteJournal(env, s, st, b'.journal);
    var t := s.(journalFile := Some(b'.journal), all := s.all + [st]);
    if b'.ledger == s.up.value.ledger {
      StaysUp(env, t, b');
    } else {
      WroteBoth(env, s, st, b'.journal, b'.ledger.value);
      StaysUp(env, t.(ledgerFile := b'.ledger), b');
    }
  }

  lemma AppendKeepsInv(env: Env, s: System, st: Event, b': Bound, crash: Crash)
    requires Inv(env, s) && s.up.Some? && Appends(env, s.up.value, b', st)
    requires env.snapshotOk(st) ==> FactOk(env, st, |s.all| + 1)
    ensures Inv(env, AppendIn(s, st, s.up.value, b', crash))
  {
    var b := s.up.value;
    UpHolds(env, s);
    if b'.journal != b.journal {
      JournalExtends(env, b.journal, s.all, st);
      if b'.ledger != b.ledger {
        GrowHistory(env, s, st);
        MoveKeeps(env, b.ledger.value, b'.ledger.value, s.all + [st], st);
      }
      WroteKeepsInv(env, s, st, b', crash);
    }
  }

  lemma LedgerSavedKeepsInv(env: Env, s: System, l: Ledger, b: Bound, crash: Crash)
    requires Inv(env, s) && s.up.Some? && s.up.value.ledger.Some? && LedgerInv(env, l, s.all)
    requires b.journal == s.up.value.journal && b.ledger == Some(l)
    ensures Inv(env, LedgerSaved(s, l, b, crash))
  {
  }

  /** A reader that takes the next page has seen one longer stretch. */
  lemma ReaderAdvances(env: Env, s: System, j: Journal, r: Reader, limit: nat)
    requires ReaderInv(s.(reader := Some(r)))
    ensures var page := NextPage(env, j, s.all, r.after, limit);
      ReaderInv(s.(reader := Some(r.(after := page.next.after, seen := r.seen + page.events))))
  {
    WindowsJoin(r.seen, NextPage(env, j, s.all, r.after, limit).events, s.all, r.start, r.after);
  }

  lemma ReadKeepsInv(env: Env, s: System, limit: int)
    requires Inv(env, s) && s.up.Some?
    ensures Inv(env, ReadIn(env, s, s.up.value.journal, limit))
  {
    UpHolds(env, s);
    var j := s.up.value.journal;
    var r := if s.reader.Some? then s.reader.value else Reader(j.floor, j.floor, []);
    if 0 < limit <= MaxPageSize && j.floor <= r.after {
      NilCursorIsFloor(env, j, limit);
      PageIsNextEvents(env, j, s.all, r.after, limit);
      ReaderAdvances(env, s, j, r, limit);
    }
  }

  lemma NilCursorIsFloor(env: Env, j: Journal, limit: int)
    ensures ReadAfter(env, j, env.source, None, limit) ==
      ReadAfter(env, j, env.source, Some(Cursor(env.source, j.floor)), limit)
  {
  }

  lemma WindowsJoin<T>(a: seq<T>, b: seq<T>, all: seq<T>, start: nat, after: nat)
    requires IsWindow(a, all, start) && IsWindow(b, all, after) && start + |a| == after
    ensures IsWindow(a + b, all, start)
  {
  }

  lemma OpenKeepsInv(env: Env, s: System, withLedger: bool)
    requires Inv(env, s)
    ensures Inv(env, Next(env, s, OpenStep(withLedger)))
  {
  }

  lemma AppendStepKeeps(env: Env, s: System, e: Event, saved: bool, ledgerSaved: bool, crash: Crash)
    requires Inv(env, s)
    ensures Inv(env, Next(env, s, AppendStep(e, saved, ledgerSaved, crash)))
  {
    if s.up.Some? {
      var b := s.up.value;
      var st := Stamp(env, b.journal.sequence + 1, e);
      UpHolds(env, s);
      AppendShape(env, b, e, saved, ledgerSaved);
      if env.snapshotOk(st) { StampedFact(env, b.journal.sequence + 1, e); }
      AppendKeepsInv(env, s, st, Append(env, b, e, saved, ledgerSaved).0, crash);
    }
  }

  lemma CheckStepKeeps(env: Env, s: System, e: Event)
    requires Inv(env, s)
    ensures Inv(env, Next(env, s, CheckStep(e)))
  {
    if s.up.Some? && CheckSourceFact(env, s.up.value, e).None? {
      UpHolds(env, s);
      CheckedIsRetained(env, s.up.value, s.all, e);
    }
  }

  lemma ReconcileKeeps(env: Env, s: System, e: Event, saved: bool)
    requires Inv(env, s) && s.up.Some? && e in s.checked && s.up.value.ledger.Some?
    ensures LedgerInv(env, Reconcile(env, s.up.value.ledger.value, e, saved).0, s.all)
  {
    UpHolds(env, s);
    ReconcileMoves(env, s.up.value.ledger.value, e, saved);
    MoveKeeps(env, s.up.value.ledger.value, Reconcile(env, s.up.value.ledger.value, e, saved).0, s.all, e);
  }

  lemma RepairingKeeps(env: Env, s: System, e: Event, out: Outcome<Repaired>)
    requires Inv(env, s)
    ensures Inv(env, Repairing(s, e, out))
    ensures Repairing(s, e, out).up == s.up && Repairing(s, e, out).all == s.all
  {
  }

  lemma RepairStepKeeps(env: Env, s: System, e: Event, saved: bool, crash: Crash)
    requires Inv(env, s)
    ensures Inv(env, Next(env, s, RepairStep(e, saved, crash)))
  {
    if s.up.Some? && e in s.checked && s.up.value.ledger.Some? {
      var b := s.up.value;
      var (l', out) := Reconcile(env, b.ledger.value, e, saved);
      ReconcileKeeps(env, s, e, saved);
      RepairingKeeps(env, s, e, out);
      LedgerSavedKeepsInv(env, Repairing(s, e, out), l', b.(ledger := Some(l')), crash);
    }
  }

  lemma AckStepKeeps(env: Env, s: System, a: Ack, saved: bool, crash: Crash)
    requires Inv(env, s)
    ensures Inv(env, Next(env, s, AckStep(a, saved, crash)))
  {
    if s.up.Some? && s.up.value.ledger.Some? {
      var b := s.up.value;
      var l' := Acknowledge(env, b.ledger.value, a, saved).0;
      UpHolds(env, s);
      AcknowledgeMoves(env, b.ledger.value, a, saved);
      AcknowledgeKeeps(env, b.ledger.value, l', s.all, a);
      LedgerSavedKeepsInv(env, s, l', b.(ledger := Some(l')), crash);
    }
  }

  lemma ReadStepKeeps(env: Env, s: System, limit: int)
    requires Inv(env, s)
    ensures Inv(env, Next(env, s, ReadStep(limit)))
  {
    if s.up.Some? { ReadKeepsInv(env, s, limit); }
  }

  /** Every step keeps memory, files, repairs in flight and the reader consistent with one history. */
  lemma StepKeepsInv(env: Env, s: System, step: Step)
    requires Inv(env, s)
    ensures Inv(env, Next(env, s, step))
  {
    match step
    case AppendStep(e, saved, ledgerSaved, crash) => AppendStepKeeps(env, s, e, saved, ledgerSaved, crash);
    case CheckStep(e) => CheckStepKeeps(env, s, e);
    case RepairStep(e, saved, crash) => RepairStepKeeps(env, s, e, saved, crash);
    case ClearStep(n) =>
    case AckStep(a, saved, crash) => AckStepKeeps(env, s, a, saved, crash);
    case ReadStep(limit) => ReadStepKeeps(env, s, limit);
    case CrashStep =>
    case OpenStep(withLedger) => OpenKeepsInv(env, s, withLedger);
  }

  const Start: System := System(None, None, None, {}, multiset{}, [], None)

  ghost predicate StepAt(env: Env, ss: seq<System>, steps: seq<Step>, i: nat)
    requires i < |steps| && |ss| == |steps| + 1
  {
    ss[i + 1] == Next(env, ss[i], steps[i])
  }

  ghost predicate IsRun(env: Env, ss: seq<System>, steps: seq<Step>) {
    EnvOk(env) && |ss| == |steps| + 1 && ss[0] == Start && forall i :: 0 <= i < |steps| ==> StepAt(env, ss, steps, i)
  }

  lemma NodeKeepsInv(env: Env, ss: seq<System>, steps: seq<Step>, i: nat)
    requires IsRun(env, ss, steps) && i < |steps| && Inv(env, ss[i])
    ensures Inv(env, ss[i + 1])
  {
    assert StepAt(env, ss, steps, i);
    StepKeepsInv(env, ss[i], steps[i]);
  }

  lemma {:induction false} RunInv(env: Env, ss: seq<System>, steps: seq<Step>, i: nat)
    requires IsRun(env, ss, steps) && i < |ss|
    ensures Inv(env, ss[i])
  {
    if i > 0 {
      RunInv(env, ss, steps, i - 1);
      NodeKeepsInv(env, ss, steps, i - 1);
    }
  }

  // ----- theorems -----

  /** At every point of every run the journal retains exactly floor+1 .. sequence, and reopens as it is. */
  lemma JournalRetainsContiguous(env: Env, ss: seq<System>, steps: seq<Step>, i: nat)
    requires IsRun(env, ss, steps) && i < |ss|
    ensures OpenJournal(env, ss[i].journalFile).Some?
    ensures JournalInv(env, OpenJournal(env, ss[i].journalFile).value, ss[i].all)
    ensures ss[i].up.Some? ==> ss[i].up.value.journal == OpenJournal(env, ss[i].journalFile).value
  {
    RunInv(env, ss, steps, i);
    if ss[i].journalFile.Some? { JournalReopens(env, ss[i].journalFile.value, ss[i].all); }
  }

  /**
   * The ledger never runs ahead of its journal, and whatever both retain under
   * one sequence is the same event.
   */
  lemma LedgerAgreesWithJournal(env: Env, ss: seq<System>, steps: seq<Step>, n: nat, i: nat, k: nat)
    requires IsRun(env, ss, steps) && n < |ss| && ss[n].journalFile.Some? && ss[n].ledgerFile.Some?
    ensures var j, l := ss[n].journalFile.value, ss[n].ledgerFile.value;
      l.sequence <= j.sequence &&
      (i < |j.events| && k < |l.records| && j.floor + i == l.floor + k ==>
         j.events[i].history.Some? && l.records[k] == RecordOf(env, j.events[i]))
  {
    RunInv(env, ss, steps, n);
  }

  /**
   * In any reachable state whose ledger is not below the journal's floor,
   * reconciling the retained events in ascending order ends with both level.
   */
  lemma RepairFromAnyRun(env: Env, ss: seq<System>, steps: seq<Step>, n: nat, bs: seq<Bound>)
    requires IsRun(env, ss, steps) && n < |ss| && ss[n].up.Some? && ss[n].up.value.ledger.Some?
    requires ss[n].up.value.journal.floor <= ss[n].up.value.ledger.value.sequence
    requires IsRepair(env, bs, ss[n].all, ss[n].up.value.ledger.value.sequence) && bs[0] == ss[n].up.value
    ensures var last := bs[|bs| - 1];
      last.ledger.Some? && last.ledger.value.sequence == last.journal.sequence && last.journal == ss[n].up.value.journal
  {
    RunInv(env, ss, steps, n);
    UpHolds(env, ss[n]);
    RepairCatchesUp(env, bs, ss[n].all, ss[n].up.value.ledger.value.sequence, |bs| - 1);
  }

  /** The ledger's file reopens if and only if every acknowledged event is still retained in it. */
  lemma LedgerReopensAfterAnyRun(env: Env, ss: seq<System>, steps: seq<Step>, n: nat)
    requires IsRun(env, ss, steps) && n < |ss| && ss[n].ledgerFile.Some?
    ensures var l := ss[n].ledgerFile.value;
      OpenLedger(env, Some(l)).Some? <==> forall id :: id in l.acks ==> l.floor < id.sequence
  {
    RunInv(env, ss, steps, n);
    var l := ss[n].ledgerFile.value;
    LedgerReopensIff(env, l, ss[n].all);
    forall id | id in l.acks ensures FindRecord(l.records, id).Some? <==> l.floor < id.sequence {
      RetainedAckMatches(env, l, ss[n].all, id);
    }
  }

  /**
   * A reader that follows its cursors has seen every event from its start to
   * its position exactly once and in order. Its next read expires exactly when
   * an event it has not seen was trimmed; otherwise it delivers exactly the next
   * ones, unless they make a page too large.
   */
  lemma ReaderMissesNothing(env: Env, ss: seq<System>, steps: seq<Step>, n: nat, limit: int)
    requires IsRun(env, ss, steps) && n < |ss| && ss[n].reader.Some? && ss[n].up.Some? && 0 < limit <= MaxPageSize
    ensures var r := ss[n].reader.value; var j := ss[n].up.value.journal;
      var answer := ReadAfter(env, j, env.source, Some(Cursor(env.source, r.after)), limit);
      |r.seen| == r.after - r.start && IsWindow(r.seen, ss[n].all, r.start) &&
      (answer == Err(CursorExpired) <==>
         r.after < |ss[n].all| && FindEvent(j.events, EventID(env.source, r.after + 1)).None?) &&
      r.after <= |ss[n].all| &&
      (answer != Err(CursorExpired) ==>
         var page := NextPage(env, j, ss[n].all, r.after, limit);
         answer == if env.pageOk(page) then Ok(page) else Err(InvalidHistory))
  {
    RunInv(env, ss, steps, n);
    UpHolds(env, ss[n]);
    var r, j := ss[n].reader.value, ss[n].up.value.journal;
    PageIsNextEvents(env, j, ss[n].all, r.after, limit);
    FindEventInWindow(env, j.events, ss[n].all, j.floor, EventID(env.source, r.after + 1));
  }

  lemma AppendInGrows(s: System, st: Event, b: Bound, b': Bound, crash: Crash)
    ensures s.all <= AppendIn(s, st, b, b', crash).all
  {
  }

  lemma StepGrows(env: Env, s: System, step: Step)
    ensures s.all <= Next(env, s, step).all
  {
    if s.up.Some? {
      var b := s.up.value;
      match step
      case AppendStep(e, saved, ledgerSaved, crash) =>
        AppendInGrows(s, Stamp(env, b.journal.sequence + 1, e), b, Append(env, b, e, saved, ledgerSaved).0, crash);
      case _ =>
    }
  }

  lemma NodeGrows(env: Env, ss: seq<System>, steps: seq<Step>, i: nat)
    requires IsRun(env, ss, steps) && i < |steps|
    ensures ss[i].all <= ss[i + 1].all
  {
    assert StepAt(env, ss, steps, i);
    StepGrows(env, ss[i], steps[i]);
  }

  /** History is append-only: what the source has published never changes, whatever fails or crashes. */
  lemma {:induction false} HistoryOnlyGrows(env: Env, ss: seq<System>, steps: seq<Step>, i: nat, j: nat)
    requires IsRun(env, ss, steps) && i <= j < |ss|
    ensures ss[i].all <= ss[j].all
    decreases j
  {
    if i < j {
      HistoryOnlyGrows(env, ss, steps, i, j - 1);
      NodeGrows(env, ss, steps, j - 1);
    }
  }

  /** An acknowledgement, once stored, is never replaced. */
  lemma {:induction false} AcksAreFinal(env: Env, ss: seq<System>, steps: seq<Step>, i: nat, j: nat, id: EventID)
    requires IsRun(env, ss, steps) && i <= j < |ss| && ss[i].ledgerFile.Some? && id in ss[i].ledgerFile.value.acks
    ensures ss[j].ledgerFile.Some? && id in ss[j].ledgerFile.value.acks
    ensures ss[j].ledgerFile.value.acks[id] == ss[i].ledgerFile.value.acks[id]
    decreases j
  {
    if i < j {
      AcksAreFinal(env, ss, steps, i, j - 1, id);
      NodeKeepsAcks(env, ss, steps, j - 1);
    }
  }

  lemma NodeKeepsAcks(env: Env, ss: seq<System>, steps: seq<Step>, i: nat)
    requires IsRun(env, ss, steps) && i < |steps|
    ensures AcksKept(ss[i].ledgerFile, ss[i + 1].ledgerFile)
  {
    RunInv(env, ss, steps, i);
    assert StepAt(env, ss, steps, i);
    StepKeepsAcks(env, ss[i], steps[i]);
  }

  predicate AcksKept(a: Option<Ledger>, b: Option<Ledger>) {
    a.Some? ==>
      b.Some? && forall id :: id in a.value.acks ==> id in b.value.acks && b.value.acks[id] == a.value.acks[id]
  }

  lemma AppendKeepsAcks(env: Env, s: System, st: Event, b': Bound, crash: Crash)
    requires UpInv(env, s) && s.up.Some? && Appends(env, s.up.value, b', st)
    ensures AcksKept(s.ledgerFile, AppendIn(s, st, s.up.value, b', crash).ledgerFile)
  {
  }

  lemma SavedKeepsAcks(env: Env, s: System, l: Ledger, b: Bound, crash: Crash)
    requires UpInv(env, s) && s.up.Some? && AcksKept(s.up.value.ledger, Some(l)) && s.up.value.ledger.Some?
    ensures AcksKept(s.ledgerFile, LedgerSaved(s, l, b, crash).ledgerFile)
  {
  }

  lemma AppendStepKeepsAcks(env: Env, s: System, step: Step)
    requires Inv(env, s) && step.AppendStep?
    ensures AcksKept(s.ledgerFile, Next(env, s, step).ledgerFile)
  {
    if s.up.Some? {
      var b := s.up.value;
      AppendShape(env, b, step.e, step.saved, step.ledgerSaved);
      AppendKeepsAcks(env, s, Stamp(env, b.journal.sequence + 1, step.e),
                      Append(env, b, step.e, step.saved, step.ledgerSaved).0, step.crash);
    }
  }

  lemma ReconcileKeepsAcks(env: Env, l: Ledger, e: Event, saved: bool)
    ensures AcksKept(Some(l), Some(Reconcile(env, l, e, saved).0))
  {
    ReconcileMoves(env, l, e, saved);
  }

  lemma RepairStepKeepsAcks(env: Env, s: System, step: Step)
    requires Inv(env, s) && step.RepairStep?
    ensures AcksKept(s.ledgerFile, Next(env, s, step).ledgerFile)
  {
    if s.up.Some? && s.up.value.ledger.Some? {
      var b := s.up.value;
      var (l', out) := Reconcile(env, b.ledger.value, step.e, step.saved);
      ReconcileKeepsAcks(env, b.ledger.value, step.e, step.saved);
      RepairingIsUp(env, s, step.e, out);
      SavedKeepsAcks(env, Repairing(s, step.e, out), l', b.(ledger := Some(l')), step.crash);
    }
  }

  lemma RepairingIsUp(env: Env, s: System, e: Event, out: Outcome<Repaired>)
    requires UpInv(env, s)
    ensures UpInv(env, Repairing(s, e, out)) && Repairing(s, e, out).ledgerFile == s.ledgerFile
    ensures Repairing(s, e, out).up == s.up
  {
  }

  lemma AckStepKeepsAcks(env: Env, s: System, step: Step)
    requires Inv(env, s) && step.AckStep?
    ensures AcksKept(s.ledgerFile, Next(env, s, step).ledgerFile)
  {
    if s.up.Some? && s.up.value.ledger.Some? {
      var b := s.up.value;
      var l' := Acknowledge(env, b.ledger.value, step.a, step.saved).0;
      AcknowledgeMoves(env, b.ledger.value, step.a, step.saved);
      SavedKeepsAcks(env, s, l', b.(ledger := Some(l')), step.crash);
    }
  }

  lemma StepKeepsAcks(env: Env, s: System, step: Step)
    requires Inv(env, s)
    ensures AcksKept(s.ledgerFile, Next(env, s, step).ledgerFile)
  {
    match step
    case AppendStep(_, _, _, _) => AppendStepKeepsAcks(env, s, step);
    case RepairStep(_, _, _) => RepairStepKeepsAcks(env, s, step);
    case AckStep(_, _, _) => AckStepKeepsAcks(env, s, step);
    case _ =>
  }
}

/**
 * How far the ledger falls behind its journal: which steps move it, when its lag
 * grows past one event, and when it can never catch up again.
 */
module HistoryLag {

  import opened Common
  import opened HistoryModel
  import opened HistoryLaws
  import opened HistoryRuns

  function LedgerAt(s: System): nat { if s.ledgerFile.Some? then s.ledgerFile.value.sequence else 0 }

  function LedgerFloor(s: System): nat { if s.ledgerFile.Some? then s.ledgerFile.value.floor else 0 }

  function JournalFloor(s: System): nat { if s.journalFile.Some? then s.journalFile.value.floor else 0 }

  function Lag(s: System): int { |s.all| - LedgerAt(s) }

  predicate HasLedger(s: System) { s.up.Some? && s.up.value.ledger.Some? }

  lemma MemoryIsFiles(env: Env, s: System)
    requires Inv(env, s) && s.up.Some?
    ensures s.up.value.journal.sequence == |s.all| && s.up.value.journal.floor == JournalFloor(s)
    ensures HasLedger(s) ==>
      s.up.value.ledger.value.sequence == LedgerAt(s) && s.up.value.ledger.value.floor == LedgerFloor(s)
    ensures LedgerAt(s) <= |s.all|
  {
    UpHolds(env, s);
  }

  // ----- appending -----

  /** The append that publishes its event in the journal. */
  predicate Publishes(env: Env, s: System, step: Step) {
    step.AppendStep? && s.up.Some? && s.up.value.flag.Clear? &&
    env.snapshotOk(Stamp(env, |s.all| + 1, step.e)) && step.saved && !step.crash.BeforeSaves?
  }

  /** It also commits to the ledger: the ledger is bound and level, and both files are replaced. */
  predicate Commits(env: Env, s: System, step: Step) {
    Publishes(env, s, step) && HasLedger(s) && Lag(s) == 0 && step.ledgerSaved && !step.crash.BetweenSaves?
  }

  /** How an append turns `b` into `b'`. */
  predicate AppendsAs(env: Env, b: Bound, b': Bound, e: Event, saved: bool, ledgerSaved: bool) {
    (b'.journal != b.journal <==> b.flag.Clear? && env.snapshotOk(Stamp(env, b.journal.sequence + 1, e)) && saved) &&
    (b'.ledger != b.ledger <==>
       b'.journal != b.journal && b.ledger.Some? && b.ledger.value.sequence == b.journal.sequence && ledgerSaved) &&
    (b'.ledger != b.ledger ==> b'.ledger.Some? && b'.ledger.value.sequence == b.journal.sequence + 1) &&
    (b'.flag.NeedsRecovery? <==>
       b.flag.NeedsRecovery? || (b'.journal != b.journal && b.ledger.Some? && b'.ledger == b.ledger))
  }

  lemma AppendOutcome(env: Env, b: Bound, e: Event, saved: bool, ledgerSaved: bool)
    ensures AppendsAs(env, b, Append(env, b, e, saved, ledgerSaved).0, e, saved, ledgerSaved)
  {
  }

  /** What reaches the files and the process when an append turns its state into `b'`. */
  lemma AppendInEffect(s: System, st: Event, b': Bound, crash: Crash)
    requires s.up.Some?
    ensures var b := s.up.value; var t := AppendIn(s, st, b, b', crash);
      var wrote := b'.journal != b.journal && !crash.BeforeSaves?;
      t.all == (if wrote then s.all + [st] else s.all) && t.checked <= s.checked && t.clearing <= s.clearing &&
      t.journalFile == (if wrote then Some(b'.journal) else s.journalFile) &&
      t.up == (if crash.NoCrash? then Some(b') else None) &&
      t.ledgerFile == (if wrote && b'.ledger != b.ledger && !crash.BetweenSaves? then b'.ledger else s.ledgerFile)
  {
  }

  lemma AppendCounts(env: Env, s: System, step: Step, b': Bound)
    requires step.AppendStep? && s.up.Some? && AppendsAs(env, s.up.value, b', step.e, step.saved, step.ledgerSaved)
    requires s.up.value.journal.sequence == |s.all|
    requires (HasLedger(s) ==> s.up.value.ledger.value.sequence == LedgerAt(s))
    ensures var t := AppendIn(s, Stamp(env, |s.all| + 1, step.e), s.up.value, b', step.crash);
      |t.all| == |s.all| + (if Publishes(env, s, step) then 1 else 0) &&
      LedgerAt(t) == LedgerAt(s) + (if Commits(env, s, step) then 1 else 0)
  {
    AppendInEffect(s, Stamp(env, |s.all| + 1, step.e), b', step.crash);
  }

  lemma AppendFlag(env: Env, s: System, step: Step, b': Bound)
    requires step.AppendStep? && s.up.Some? && AppendsAs(env, s.up.value, b', step.e, step.saved, step.ledgerSaved)
    requires s.up.value.journal.sequence == |s.all|
    requires (HasLedger(s) ==> s.up.value.ledger.value.sequence == LedgerAt(s))
    requires step.crash.NoCrash?
    ensures b'.flag.NeedsRecovery? <==>
      s.up.value.flag.NeedsRecovery? || (HasLedger(s) && Publishes(env, s, step) && !Commits(env, s, step))
  {
  }

  /** What an append does to the history, to the ledger's position and to the flag. */
  lemma AppendEffect(env: Env, s: System, step: Step)
    requires Inv(env, s) && step.AppendStep?
    ensures var t := Next(env, s, step);
      |t.all| == |s.all| + (if Publishes(env, s, step) then 1 else 0) &&
      LedgerAt(t) == LedgerAt(s) + (if Commits(env, s, step) then 1 else 0) &&
      t.checked <= s.checked && t.clearing <= s.clearing &&
      (t.up.Some? <==> s.up.Some? && step.crash.NoCrash?) &&
      (t.up.Some? ==> (t.up.value.flag.NeedsRecovery? <==>
         s.up.value.flag.NeedsRecovery? || (HasLedger(s) && Publishes(env, s, step) && !Commits(env, s, step))))
  {
    if s.up.Some? {
      MemoryIsFiles(env, s);
      AppendOutcome(env, s.up.value, step.e, step.saved, step.ledgerSaved);
      var b' := Append(env, s.up.value, step.e, step.saved, step.ledgerSaved).0;
      AppendInEffect(s, Stamp(env, |s.all| + 1, step.e), b', step.crash);
      AppendCounts(env, s, step, b');
      if step.crash.NoCrash? { AppendFlag(env, s, step, b'); }
    }
  }

  // ----- repairing, and every other step -----

  /** The repair that moves the ledger: the event checked before is the next one, and the file is replaced. */
  predicate Moves(s: System, step: Step) {
    step.RepairStep? && HasLedger(s) && step.e in s.checked && step.e.history.Some? &&
    step.e.history.value.sequence == LedgerAt(s) + 1 && step.saved && (step.crash.NoCrash? || step.crash.AfterSaves?)
  }

  /** The repair that the ledger accepts, because it moves by it or holds its event already. */
  predicate Accepts(s: System, step: Step) {
    step.RepairStep? && HasLedger(s) && step.e in s.checked && step.e.history.Some? &&
    var n := step.e.history.value.sequence;
    LedgerFloor(s) < n <= LedgerAt(s) || (n == LedgerAt(s) + 1 && step.saved)
  }

  lemma SavedEffect(s: System, l: Ledger, b: Bound, crash: Crash)
    requires s.up.Some?
    ensures var t := LedgerSaved(s, l, b, crash);
      t.all == s.all && t.checked <= s.checked && t.journalFile == s.journalFile &&
      t.up == (if crash.NoCrash? then Some(b) else None) &&
      t.clearing == (if crash.NoCrash? then s.clearing else multiset{}) &&
      t.ledgerFile == (if Some(l) != s.up.value.ledger && (crash.NoCrash? || crash.AfterSaves?) then Some(l)
                       else s.ledgerFile)
  {
  }

  lemma ReconcileOutcome(env: Env, s: System, e: Event, saved: bool)
    requires Inv(env, s) && HasLedger(s) && e in s.checked
    ensures var l := s.up.value.ledger.value; var (l', out) := Reconcile(env, l, e, saved);
      e.history.Some? &&
      (l' != l <==>
         e.history.value.sequence == LedgerAt(s) + 1 && saved) && (l' != l ==> l'.sequence == LedgerAt(s) + 1) &&
      (out.Ok? <==> LedgerFloor(s) < e.history.value.sequence <= LedgerAt(s) ||
                    (e.history.value.sequence == LedgerAt(s) + 1 && saved))
  {
    UpHolds(env, s);
    MemoryIsFiles(env, s);
    assert FactIn(s.all, e);
    ReconcileIff(env, s.up.value.ledger.value, s.all, e.history.value.sequence - 1, saved);
  }

  lemma RepairEffect(env: Env, s: System, step: Step)
    requires Inv(env, s) && step.RepairStep?
    ensures var t := Next(env, s, step);
      t.all == s.all && t.checked <= s.checked && t.journalFile == s.journalFile &&
      LedgerAt(t) == LedgerAt(s) + (if Moves(s, step) then 1 else 0) &&
      (t.up.Some? ==> s.up.Some? && t.up.value.flag == s.up.value.flag) &&
      t.clearing <= s.clearing + (if Accepts(s, step) then multiset{step.e.history.value.sequence} else multiset{})
  {
    if HasLedger(s) && step.e in s.checked {
      ReconcileOutcome(env, s, step.e, step.saved);
      var b := s.up.value;
      var (l', out) := Reconcile(env, b.ledger.value, step.e, step.saved);
      SavedEffect(Repairing(s, step.e, out), l', b.(ledger := Some(l')), step.crash);
    }
  }

  lemma AckEffect(env: Env, s: System, step: Step)
    requires Inv(env, s) && step.AckStep?
    ensures var t := Next(env, s, step);
      t.all == s.all && t.checked <= s.checked && t.journalFile == s.journalFile && LedgerAt(t) == LedgerAt(s) &&
      t.clearing <= s.clearing && (t.up.Some? ==> s.up.Some? && t.up.value.flag == s.up.value.flag)
  {
    if HasLedger(s) {
      var l' := Acknowledge(env, s.up.value.ledger.value, step.a, step.saved).0;
      AcknowledgeMoves(env, s.up.value.ledger.value, step.a, step.saved);
      SavedEffect(s, l', s.up.value.(ledger := Some(l')), step.crash);
    }
  }

  /** Only an append to a level ledger and a repair by the next event move the ledger, and by one. */
  lemma LedgerMovesIff(env: Env, s: System, step: Step)
    requires Inv(env, s)
    ensures LedgerAt(Next(env, s, step)) == LedgerAt(s) + (if Commits(env, s, step) || Moves(s, step) then 1 else 0)
    ensures |Next(env, s, step).all| == |s.all| + (if Publishes(env, s, step) then 1 else 0)
  {
    match step
    case AppendStep(_, _, _, _) => AppendEffect(env, s, step);
    case RepairStep(_, _, _) => RepairEffect(env, s, step);
    case AckStep(_, _, _) => AckEffect(env, s, step);
    case _ =>
  }

  // ----- below the journal's floor -----

  lemma ExtendRaisesFloor(env: Env, j: Journal, all: seq<Event>, st: Event)
    requires FactsOk(env, all) && JournalInv(env, j, all) && FactOk(env, st, |all| + 1)
    ensures j.floor <= Extend(j, st).floor
  {
    JournalExtends(env, j, all, st);
  }

  lemma AppendRaisesFloor(env: Env, s: System, step: Step)
    requires Inv(env, s) && step.AppendStep?
    ensures JournalFloor(s) <= JournalFloor(Next(env, s, step))
    ensures s.journalFile.Some? ==> Next(env, s, step).journalFile.Some?
  {
    if s.up.Some? {
      var b, st := s.up.value, Stamp(env, |s.all| + 1, step.e);
      UpHolds(env, s);
      MemoryIsFiles(env, s);
      AppendShape(env, b, step.e, step.saved, step.ledgerSaved);
      var b' := Append(env, b, step.e, step.saved, step.ledgerSaved).0;
      AppendInEffect(s, st, b', step.crash);
      if env.snapshotOk(st) {
        StampedFact(env, |s.all| + 1, step.e);
        ExtendRaisesFloor(env, b.journal, s.all, st);
      }
    }
  }

  lemma FloorOnlyRises(env: Env, s: System, step: Step)
    requires Inv(env, s)
    ensures JournalFloor(s) <= JournalFloor(Next(env, s, step))
    ensures s.journalFile.Some? ==> Next(env, s, step).journalFile.Some?
  {
    match step
    case AppendStep(_, _, _, _) => AppendRaisesFloor(env, s, step);
    case RepairStep(_, _, _) => RepairEffect(env, s, step);
    case AckStep(_, _, _) => AckEffect(env, s, step);
    case _ =>
  }

  predicate BelowFloor(s: System) { LedgerAt(s) < JournalFloor(s) }

  lemma FloorWithinHistory(env: Env, s: System)
    requires Inv(env, s)
    ensures JournalFloor(s) <= |s.all|
  {
  }

  /** Below the journal's floor only a repair whose event was checked before, and is the next one, moves the ledger. */
  lemma BelowFloorMovesIff(env: Env, ss: seq<System>, steps: seq<Step>, n: nat)
    requires IsRun(env, ss, steps) && n < |steps| && BelowFloor(ss[n])
    ensures LedgerAt(ss[n + 1]) != LedgerAt(ss[n]) <==> Moves(ss[n], steps[n])
  {
    RunInv(env, ss, steps, n);
    assert StepAt(env, ss, steps, n);
    LedgerMovesIff(env, ss[n], steps[n]);
    FloorWithinHistory(env, ss[n]);
  }

  /** No repair by the next event is between the journal's check and the ledger. */
  ghost predicate NoneInFlight(s: System) {
    forall e :: e in s.checked ==> e.history.Some? ==> e.history.value.sequence != LedgerAt(s) + 1
  }

  ghost predicate Stuck(s: System) { BelowFloor(s) && NoneInFlight(s) }

  lemma CheckStepStuck(env: Env, s: System, e: Event)
    requires Inv(env, s) && Stuck(s)
    ensures Stuck(Next(env, s, CheckStep(e)))
  {
    if s.up.Some? && CheckSourceFact(env, s.up.value, e).None? {
      UpHolds(env, s);
      MemoryIsFiles(env, s);
      CheckedIsRetained(env, s.up.value, s.all, e);
    }
  }

  lemma StepStaysStuck(env: Env, s: System, step: Step)
    requires Inv(env, s) && Stuck(s)
    ensures Stuck(Next(env, s, step)) && LedgerAt(Next(env, s, step)) == LedgerAt(s)
  {
    LedgerMovesIff(env, s, step);
    FloorOnlyRises(env, s, step);
    FloorWithinHistory(env, s);
    match step
    case AppendStep(_, _, _, _) => AppendEffect(env, s, step);
    case CheckStep(e) => CheckStepStuck(env, s, e);
    case RepairStep(_, _, _) => RepairEffect(env, s, step);
    case AckStep(_, _, _) => AckEffect(env, s, step);
    case _ =>
  }

  /**
   * A ledger below the journal's floor with no such repair in flight never moves
   * again, through appends, repairs, acknowledgements, crashes and reopens.
   */
  lemma {:induction false} StuckBelowFloorForever(env: Env, ss: seq<System>, steps: seq<Step>, i: nat, j: nat)
    requires IsRun(env, ss, steps) && i <= j < |ss| && Stuck(ss[i])
    ensures Stuck(ss[j]) && LedgerAt(ss[j]) == LedgerAt(ss[i])
    decreases j
  {
    if i < j {
      StuckBelowFloorForever(env, ss, steps, i, j - 1);
      RunInv(env, ss, steps, j - 1);
      assert StepAt(env, ss, steps, j - 1);
      StepStaysStuck(env, ss[j - 1], steps[j - 1]);
    }
  }

  // ----- a lag above one event -----

  /**
   * A step widens the lag past one event if and only if it is an append that
   * publishes while the ledger is already behind.
   */
  lemma LagPastOneIff(env: Env, ss: seq<System>, steps: seq<Step>, n: nat)
    requires IsRun(env, ss, steps) && n < |steps|
    ensures (Lag(ss[n + 1]) > 1 && Lag(ss[n + 1]) > Lag(ss[n])) <==> Publishes(env, ss[n], steps[n]) && Lag(ss[n]) > 0
  {
    RunInv(env, ss, steps, n);
    assert StepAt(env, ss, steps, n);
    LedgerMovesIff(env, ss[n], steps[n]);
    LagNotNegative(env, ss[n]);
  }

  lemma LagNotNegative(env: Env, s: System)
    requires Inv(env, s)
    ensures Lag(s) >= 0
  {
  }

  /** Behind, and yet ready to append. */
  predicate Exposed(s: System) { s.up.Some? && s.up.value.flag.Clear? && Lag(s) > 0 }

  /**
   * The steps into that state: opening files that are not level, a repair that
   * clears the flag all the same, an append without a ledger.
   */
  predicate Exposes(env: Env, s: System, step: Step) {
    match step
    case OpenStep(withLedger) => s.up.None? && (withLedger ==> OpenLedger(env, s.ledgerFile).Some?) && Lag(s) > 0
    case ClearStep(n) => s.up.Some? && n in s.clearing && s.up.value.flag.NeedsRecovery? && Lag(s) > 0
    case AppendStep(_, _, _, crash) => crash.NoCrash? && Publishes(env, s, step) && !HasLedger(s) && Lag(s) == 0
    case _ => false
  }

  lemma AppendExposes(env: Env, s: System, step: Step)
    requires Inv(env, s) && step.AppendStep?
    ensures !Exposed(s) && Exposed(Next(env, s, step)) <==> Exposes(env, s, step)
  {
    LagNotNegative(env, s);
    AppendEffect(env, s, step);
  }

  lemma RepairExposesNot(env: Env, s: System, step: Step)
    requires Inv(env, s) && step.RepairStep? && Exposed(Next(env, s, step))
    ensures Exposed(s)
  {
    RepairEffect(env, s, step);
  }

  lemma OpenExposes(env: Env, s: System, withLedger: bool)
    requires Inv(env, s)
    ensures !Exposed(s) && Exposed(Next(env, s, OpenStep(withLedger))) <==> Exposes(env, s, OpenStep(withLedger))
  {
    if s.journalFile.Some? { JournalReopens(env, s.journalFile.value, s.all); }
  }

  /** The state is entered by exactly those steps. */
  lemma ExposedIff(env: Env, ss: seq<System>, steps: seq<Step>, n: nat)
    requires IsRun(env, ss, steps) && n < |steps|
    ensures !Exposed(ss[n]) && Exposed(ss[n + 1]) <==> Exposes(env, ss[n], steps[n])
  {
    RunInv(env, ss, steps, n);
    assert StepAt(env, ss, steps, n);
    match steps[n]
    case AppendStep(_, _, _, _) => AppendExposes(env, ss[n], steps[n]);
    case RepairStep(_, _, _) => if Exposed(ss[n + 1]) { RepairExposesNot(env, ss[n], steps[n]); }
    case AckStep(_, _, _) => AckEffect(env, ss[n], steps[n]);
    case OpenStep(withLedger) => OpenExposes(env, ss[n], withLedger);
    case _ =>
  }

  ghost predicate AllHeld(s: System) { forall n :: n in s.clearing ==> 0 < n <= LedgerAt(s) }

  /** Fewer repairs to clear, a ledger no lower. */
  lemma HeldFrom(s: System, t: System, more: multiset<nat>)
    requires AllHeld(s) && t.clearing <= s.clearing + more && LedgerAt(s) <= LedgerAt(t)
    requires forall n :: n in more ==> 0 < n <= LedgerAt(t)
    ensures AllHeld(t)
  {
    forall n | n in t.clearing ensures 0 < n <= LedgerAt(t) { assert n in s.clearing + more; }
  }

  lemma RepairKeepsHeld(env: Env, s: System, step: Step)
    requires Inv(env, s) && AllHeld(s) && step.RepairStep?
    ensures AllHeld(Next(env, s, step))
  {
    RepairEffect(env, s, step);
    var more := if Accepts(s, step) then multiset{step.e.history.value.sequence} else multiset{};
    var t := Next(env, s, step);
    if t.up.Some? {
      RepairWasSaved(env, s, step);
      HeldFrom(s, t, more);
    }
  }

  /** Without a crash an accepted repair leaves its event in the ledger. */
  lemma RepairWasSaved(env: Env, s: System, step: Step)
    requires Inv(env, s) && step.RepairStep? && Next(env, s, step).up.Some?
    ensures Accepts(s, step) ==> 0 < step.e.history.value.sequence <= LedgerAt(Next(env, s, step))
  {
    RepairEffect(env, s, step);
  }

  lemma OtherClearing(env: Env, s: System, step: Step)
    requires step.CheckStep? || step.ClearStep? || step.ReadStep? || step.CrashStep? || step.OpenStep?
    ensures Next(env, s, step).clearing <= s.clearing
  {
  }

  lemma StepKeepsHeld(env: Env, s: System, step: Step)
    requires Inv(env, s) && AllHeld(s)
    ensures AllHeld(Next(env, s, step))
  {
    if step.RepairStep? {
      RepairKeepsHeld(env, s, step);
    } else {
      LedgerMovesIff(env, s, step);
      match step
      case AppendStep(_, _, _, _) => AppendEffect(env, s, step);
      case AckStep(_, _, _) => AckEffect(env, s, step);
      case _ => OtherClearing(env, s, step);
      HeldFrom(s, Next(env, s, step), multiset{});
    }
  }

  /**
   * A repair that clears the flag is of an event that the ledger holds by then;
   * when it exposes, it is a repair that did not bring the ledger level.
   */
  lemma {:induction false} ClearingIsHeld(env: Env, ss: seq<System>, steps: seq<Step>, n: nat)
    requires IsRun(env, ss, steps) && n < |ss|
    ensures AllHeld(ss[n])
    ensures n < |steps| && steps[n].ClearStep? && Exposes(env, ss[n], steps[n]) ==>
      0 < steps[n].n <= LedgerAt(ss[n]) < |ss[n].all|
  {
    if n > 0 {
      ClearingIsHeld(env, ss, steps, n - 1);
      RunInv(env, ss, steps, n - 1);
      assert StepAt(env, ss, steps, n - 1);
      StepKeepsHeld(env, ss[n - 1], steps[n - 1]);
    }
  }

  /** In every run a lag above one comes from an append in that state. */
  lemma {:induction false} LagPastOneWasExposed(env: Env, ss: seq<System>, steps: seq<Step>, n: nat)
    requires IsRun(env, ss, steps) && n < |ss| && Lag(ss[n]) > 1
    ensures exists k :: 0 <= k < n && Exposed(ss[k])
  {
    if n > 0 {
      LagPastOneIff(env, ss, steps, n - 1);
      if Lag(ss[n]) > Lag(ss[n - 1]) {
        assert Exposed(ss[n - 1]);
      } else {
        LagPastOneWasExposed(env, ss, steps, n - 1);
      }
    }
  }

  /**
   * Reopening forgets the recovery flag: a crash and a reopen of files that are not
   * level let the next append widen the lag.
   */
  lemma ReopenLetsLagGrow(env: Env, s: System, e: Event)
    requires Inv(env, s) && s.up.Some? && Lag(s) > 0 && OpenLedger(env, s.ledgerFile).Some?
    requires env.snapshotOk(Stamp(env, |s.all| + 1, e))
    ensures var t := Next(env, Next(env, s, CrashStep), OpenStep(true));
      Exposed(t) && Lag(t) == Lag(s) && Lag(Next(env, t, AppendStep(e, true, true, NoCrash))) == Lag(s) + 1
  {
    var d := Next(env, s, CrashStep);
    StepKeepsInv(env, s, CrashStep);
    OpenExposes(env, d, true);
    StepKeepsInv(env, d, OpenStep(true));
    var t := Next(env, d, OpenStep(true));
    LedgerMovesIff(env, d, OpenStep(true));
    LedgerMovesIff(env, t, AppendStep(e, true, true, NoCrash));
  }

  // ----- a run that moves the ledger below the floor -----

  /**
   * The history, files and process after `n` appends of `e`, with retention 1 and a
   * ledger that stopped after the first.
   */
  function Lagging(env: Env, e: Event, n: nat, flag: Flag, checked: set<Event>): System
    requires 0 < n
  {
    var j := Journal(n, n - 1, 1, [Stamp(env, n, e)]);
    var l := Ledger(1, 0, env.ledgerRetention, [RecordOf(env, Stamp(env, 1, e))], map[]);
    var all := seq(n, i requires 0 <= i < n => Stamp(env, i + 1, e));
    System(Some(j), Some(l), Some(Bound(j, Some(l), flag)), checked, multiset{}, all, None)
  }

  /** The three events of the run pass the journal's check. */
  predicate ThreeFit(env: Env, e: Event) {
    env.snapshotOk(Stamp(env, 1, e)) && env.snapshotOk(Stamp(env, 2, e)) && env.snapshotOk(Stamp(env, 3, e))
  }

  lemma RunLonger(env: Env, ss: seq<System>, steps: seq<Step>, step: Step, t: System)
    requires IsRun(env, ss, steps) && t == Next(env, ss[|steps|], step)
    ensures IsRun(env, ss + [t], steps + [step])
  {
    forall i | 0 <= i < |steps| + 1 ensures StepAt(env, ss + [t], steps + [step], i) {
      if i < |steps| { assert StepAt(env, ss, steps, i); }
    }
  }

  lemma FirstAppend(env: Env, e: Event) returns (ss: seq<System>, steps: seq<Step>)
    requires EnvOk(env) && env.journalRetention == 1 && ThreeFit(env, e)
    ensures IsRun(env, ss, steps) && |steps| == 2 && ss[2] == Lagging(env, e, 1, Clear, {})
  {
    var s, t := Next(env, Start, OpenStep(true)), Lagging(env, e, 1, Clear, {});
    RunLonger(env, [Start], [], OpenStep(true), s);
    ss, steps := [Start] + [s], [] + [OpenStep(true)];
    FirstCommit(env, e, s);
    RunLonger(env, ss, steps, AppendStep(e, true, true, NoCrash), t);
    ss, steps := ss + [t], steps + [AppendStep(e, true, true, NoCrash)];
  }

  lemma FirstCommit(env: Env, e: Event, s: System)
    requires EnvOk(env) && env.journalRetention == 1 && ThreeFit(env, e)
    requires var b := Bound(FreshJournal(env), Some(FreshLedger(env)), Clear);
      s == System(None, None, Some(b), {}, multiset{}, [], None)
    ensures Next(env, s, AppendStep(e, true, true, NoCrash)) == Lagging(env, e, 1, Clear, {})
  {
    var st := Stamp(env, 1, e);
    assert Extend(FreshJournal(env), st).events == [st];
    assert Advance(FreshLedger(env), 1, RecordOf(env, st)).records == [RecordOf(env, st)];
    assert s.all + [st] == Lagging(env, e, 1, Clear, {}).all;
  }

  lemma AppendBehind(env: Env, e: Event, n: nat, checked: set<Event>, ledgerSaved: bool, ss: seq<System>,
                     steps: seq<Step>)
    requires ThreeFit(env, e) && 0 < n <= 2 && (n == 1 ==> !ledgerSaved)
    requires IsRun(env, ss, steps) && ss[|steps|] == Lagging(env, e, n, Clear, checked)
    ensures IsRun(env, ss + [Lagging(env, e, n + 1, NeedsRecovery, checked)],
                  steps + [AppendStep(e, true, ledgerSaved, NoCrash)])
  {
    var s, t := Lagging(env, e, n, Clear, checked), Lagging(env, e, n + 1, NeedsRecovery, checked);
    assert Extend(s.up.value.journal, Stamp(env, n + 1, e)) == t.up.value.journal;
    assert s.all + [Stamp(env, n + 1, e)] == t.all;
    RunLonger(env, ss, steps, AppendStep(e, true, ledgerSaved, NoCrash), t);
  }

  lemma CheckNewest(env: Env, e: Event, n: nat, flag: Flag, checked: set<Event>, ss: seq<System>, steps: seq<Step>)
    requires ThreeFit(env, e) && 0 < n <= 3
    requires IsRun(env, ss, steps) && ss[|steps|] == Lagging(env, e, n, flag, checked)
    ensures IsRun(env, ss + [Lagging(env, e, n, flag, checked + {Stamp(env, n, e)})],
                  steps + [CheckStep(Stamp(env, n, e))])
  {
    var s := Lagging(env, e, n, flag, checked);
    assert FindEvent(s.up.value.journal.events, EventID(env.source, n)) == Some(Stamp(env, n, e));
    RunLonger(env, ss, steps, CheckStep(Stamp(env, n, e)), s.(checked := checked + {Stamp(env, n, e)}));
  }

  lemma RepairFirst(env: Env, e: Event, n: nat, checked: set<Event>, ss: seq<System>, steps: seq<Step>)
    requires ThreeFit(env, e) && 0 < n && Stamp(env, 1, e) in checked
    requires IsRun(env, ss, steps) && ss[|steps|] == Lagging(env, e, n, NeedsRecovery, checked)
    ensures var s := Lagging(env, e, n, NeedsRecovery, checked);
      IsRun(env, ss + [s.(clearing := multiset{1})] + [Lagging(env, e, n, Clear, checked)],
            steps + [RepairStep(Stamp(env, 1, e), true, NoCrash)] + [ClearStep(1)])
  {
    var s, step := Lagging(env, e, n, NeedsRecovery, checked), RepairStep(Stamp(env, 1, e), true, NoCrash);
    var t := s.(clearing := multiset{1});
    assert FindRecord(s.up.value.ledger.value.records, EventID(env.source, 1)) == Some(RecordOf(env, Stamp(env, 1, e)));
    RunLonger(env, ss, steps, step, t);
    RunLonger(env, ss + [t], steps + [step], ClearStep(1), Lagging(env, e, n, Clear, checked));
  }

  lemma RepairSecond(env: Env, e: Event, n: nat, checked: set<Event>, ss: seq<System>,
                     steps: seq<Step>) returns (t: System)
    requires 0 < n && Stamp(env, 2, e) in checked
    requires IsRun(env, ss, steps) && ss[|steps|] == Lagging(env, e, n, NeedsRecovery, checked)
    ensures IsRun(env, ss + [t], steps + [RepairStep(Stamp(env, 2, e), true, NoCrash)]) && LedgerAt(t) == 2
  {
    var s, step := Lagging(env, e, n, NeedsRecovery, checked), RepairStep(Stamp(env, 2, e), true, NoCrash);
    RunInv(env, ss, steps, |steps|);
    LedgerMovesIff(env, s, step);
    t := Next(env, s, step);
    RunLonger(env, ss, steps, step, t);
  }

  /**
   * A repair that was checked before its event was trimmed moves a ledger below
   * the floor: nine steps, of which the last does it.
   */
  lemma RepairInFlightMovesBelowFloor(env: Env, e: Event) returns (ss: seq<System>, steps: seq<Step>)
    requires EnvOk(env) && env.journalRetention == 1 && ThreeFit(env, e)
    ensures IsRun(env, ss, steps) && |steps| == 9 && steps[8].RepairStep?
    ensures BelowFloor(ss[8]) && LedgerAt(ss[9]) == LedgerAt(ss[8]) + 1
  {
    var one, two := Stamp(env, 1, e), Stamp(env, 2, e);
    ss, steps := FirstAppend(env, e);
    CheckNewest(env, e, 1, Clear, {}, ss, steps);
    ss, steps := ss + [Lagging(env, e, 1, Clear, {} + {one})], steps + [CheckStep(one)];
    AppendBehind(env, e, 1, {} + {one}, false, ss, steps);
    ss, steps := ss + [Lagging(env, e, 2, NeedsRecovery, {} + {one})], steps + [AppendStep(e, true, false, NoCrash)];
    CheckNewest(env, e, 2, NeedsRecovery, {} + {one}, ss, steps);
    var checked := {} + {one} + {two};
    ss, steps := ss + [Lagging(env, e, 2, NeedsRecovery, checked)], steps + [CheckStep(two)];
    RepairFirst(env, e, 2, checked, ss, steps);
    ss := ss + [Lagging(env, e, 2, NeedsRecovery, checked).(clearing := multiset{1})];
    ss := ss + [Lagging(env, e, 2, Clear, checked)];
    steps := steps + [RepairStep(one, true, NoCrash)] + [ClearStep(1)];
    AppendBehind(env, e, 2, checked, true, ss, steps);
    ss, steps := ss + [Lagging(env, e, 3, NeedsRecovery, checked)], steps + [AppendStep(e, true, true, NoCrash)];
    var t := RepairSecond(env, e, 3, checked, ss, steps);
    ss, steps := ss + [t], steps + [RepairStep(two, true, NoCrash)];
  }
}

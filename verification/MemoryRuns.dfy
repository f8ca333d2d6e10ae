/**
 * Whole lifetimes of the memory engine: operations, crashes between any two
 * file steps (also while opening), reopens, and power loss.
 */
module MemoryRuns {

  import opened Common
  import opened MemoryModel
  import opened MemoryRecovery

  datatype Node = Up(m: Machine) | Down(p: Point)

  /** `crash` stops the event right after that many of its file steps. */
  datatype Event =
    | Upserts(rawNs: string, items: seq<Record>, t1: Time, t2: Time, listing: seq<Record>, crash: Option<nat>)
    | Deletes(rawNs: string, ids: seq<string>, t1: Time, listing: seq<Record>, crash: Option<nat>)
    | Compacts(listing: seq<Record>, crash: Option<nat>)
    | Closes(crash: Option<nat>)
    | Opens(crash: Option<nat>)

  /**
   * What an event that nothing interrupts leaves: the trail is of this event alone,
   * `up` says whether an engine runs on.
   */
  datatype Outcome = Outcome(m: Machine, up: bool)

  function Ran(cfg: Config, node: Node, ev: Event): Option<Outcome> {
    match node
    case Up(m0) =>
      var m := m0.(trail := [At(m0)]);
      (match ev
       case Upserts(rawNs, items, t1, t2, listing, _) =>
         Some(Outcome(Upsert(cfg, m, rawNs, items, t1, t2, listing).0, true))
       case Deletes(rawNs, ids, t1, listing, _) => Some(Outcome(Delete(cfg, m, rawNs, ids, t1, listing).0, true))
       case Compacts(listing, _) => Some(Outcome(Compact(m, listing), true))
       case Closes(_) => Some(Outcome(Sync(m), false))
       case Opens(_) => Some(Outcome(m, true)))
    case Down(p) =>
      if ev.Opens? then
        var (m, ok) := Open(cfg, p);
        Some(Outcome(m.(trail := [p] + m.trail), ok))
      else None
  }

  function Next(cfg: Config, node: Node, ev: Event): Node {
    var o := Ran(cfg, node, ev);
    if o.None? then node else After(o.value, ev.crash)
  }

  /** The node that an event leaves when it is interrupted after `crash` file steps, or not at all. */
  function After(o: Outcome, crash: Option<nat>): Node {
    if crash.Some? && crash.value < |o.m.trail| then Down(o.m.trail[crash.value])
    else if o.up then Up(o.m)
    else Down(At(o.m))
  }

  /** The clock after the event. */
  function Later(now: Time, ev: Event): Time {
    match ev
    case Upserts(_, _, _, t2, _, _) => t2
    case Deletes(_, _, t1, _, _) => t1
    case _ => now
  }

  /** The clock does not run backwards, ids are not blank, and a snapshot lists the engine's records. */
  ghost predicate EventOk(cfg: Config, node: Node, now: Time, ev: Event) {
    (ev.Upserts? ==> now <= ev.t1 <= ev.t2 && !HasBlankId(cfg, ev.items)) &&
    (ev.Deletes? ==> now <= ev.t1) &&
    (node.Up? && (ev.Upserts? || ev.Deletes? || ev.Compacts?) ==>
       IsListing(ev.listing, Ran(cfg, node, ev).value.m.records))
  }

  ghost predicate Step(cfg: Config, nodes: seq<Node>, times: seq<Time>, evs: seq<Event>, i: nat)
    requires i < |evs| && |nodes| == |times| == |evs| + 1
  {
    EventOk(cfg, nodes[i], times[i], evs[i]) && nodes[i + 1] == Next(cfg, nodes[i], evs[i]) &&
    Later(times[i], evs[i]) <= times[i + 1]
  }

  ghost predicate IsRun(cfg: Config, nodes: seq<Node>, times: seq<Time>, evs: seq<Event>) {
    ConfigOk(cfg) && |nodes| == |times| == |evs| + 1 && nodes[0] == Down(Point(NoFiles, [])) &&
    forall i :: 0 <= i < |evs| ==> Step(cfg, nodes, times, evs, i)
  }

  /** Between operations no file that recovery reads is torn. */
  predicate Settled(f: Files) { f.index.Whole? && !Prepare(f).snapshot.Torn? }

  ghost predicate NodeOk(cfg: Config, node: Node, t: Time) {
    match node
    case Up(m) => MachineOk(cfg, m, t) && Settled(m.files)
    case Down(p) => PointOk(cfg, p, t)
  }

  lemma NodeLater(cfg: Config, node: Node, t: Time, t': Time)
    requires NodeOk(cfg, node, t) && t <= t'
    ensures NodeOk(cfg, node, t')
  {
    match node
    case Up(m) => ExpireOk(cfg, m, t, t');
    case Down(p) => PointLater(cfg, p, t, t');
  }

  lemma FreshTrail(cfg: Config, m: Machine, t: Time)
    requires MachineOk(cfg, m, t)
    ensures MachineOk(cfg, m.(trail := [At(m)]), t)
  {
    LiveSame(cfg, m, m.(trail := [At(m)]), t);
  }

  lemma OpenTrail(cfg: Config, p: Point, t: Time)
    requires PointOk(cfg, p, t)
    ensures var (m, ok) := Open(cfg, p); var n := m.(trail := [p] + m.trail);
      DiskOk(cfg, n, t) && (ok ==> MachineOk(cfg, n, t) && Settled(n.files))
  {
    OpenOk(cfg, p, t);
    var m := Open(cfg, p).0;
    if Open(cfg, p).1 { LiveSame(cfg, m, m.(trail := [p] + m.trail), t); }
  }

  lemma AppendSettled(cfg: Config, m: Machine, e: Entry)
    requires Settled(m.files)
    ensures Settled(Append(cfg, m, e).files)
  {
  }

  lemma CompactSettled(m: Machine, listing: seq<Record>)
    ensures Settled(Compact(m, listing).files)
  {
  }

  lemma TrimmedSettled(cfg: Config, m: Machine, ns: string)
    requires Settled(m.files)
    ensures Settled(Trimmed(cfg, m, ns).files)
  {
    var ids := Surplus(cfg, m.records, ns);
    AppendSettled(cfg, m.(records := Drop(cfg, m.records, ns, ids), lastSeq := m.lastSeq + 1),
                  Deleted(m.lastSeq + 1, ns, ids));
  }

  lemma FinishSettled(cfg: Config, m: Machine, listing: seq<Record>)
    requires Settled(m.files)
    ensures Settled(MaybeCompact(cfg, WriteIndex(m), listing).files)
  {
    CompactSettled(WriteIndex(m), listing);
  }

  lemma UpsertLineSettled(cfg: Config, m: Machine, ns: string, items: seq<Record>, t1: Time, t2: Time)
    requires Settled(m.files)
    ensures Settled(UpsertLine(cfg, m, ns, items, t1, t2).files)
  {
  }

  lemma UpsertSettled(cfg: Config, m: Machine, rawNs: string, items: seq<Record>, t1: Time, t2: Time,
                      listing: seq<Record>)
    requires Settled(m.files)
    ensures Settled(Upsert(cfg, m, rawNs, items, t1, t2, listing).0.files)
  {
    var ns := cfg.trim(rawNs);
    var a := UpsertLine(cfg, m, ns, items, t1, t2);
    UpsertLineSettled(cfg, m, ns, items, t1, t2);
    TrimmedSettled(cfg, a, ns);
    FinishSettled(cfg, Trimmed(cfg, a, ns), listing);
  }

  lemma DeleteSettled(cfg: Config, m: Machine, rawNs: string, ids: seq<string>, t: Time, listing: seq<Record>)
    requires Settled(m.files)
    ensures Settled(Delete(cfg, m, rawNs, ids, t, listing).0.files)
  {
    var a := DeleteLine(cfg, m, cfg.trim(rawNs), CleanIds(cfg, ids), t);
    assert Settled(a.files);
    FinishSettled(cfg, a, listing);
  }

  /** An event on a running engine that nothing interrupts keeps it in agreement with its log at every file step. */
  lemma RanUpOk(cfg: Config, m0: Machine, now: Time, ev: Event)
    requires ConfigOk(cfg) && NodeOk(cfg, Up(m0), now) && EventOk(cfg, Up(m0), now, ev)
    ensures MachineOk(cfg, Ran(cfg, Up(m0), ev).value.m, Later(now, ev))
  {
    var m := m0.(trail := [At(m0)]);
    FreshTrail(cfg, m0, now);
    match ev
    case Upserts(rawNs, items, t1, t2, listing, _) => UpsertOk(cfg, m, rawNs, items, now, t1, t2, listing);
    case Deletes(rawNs, ids, t1, listing, _) => DeleteOk(cfg, m, rawNs, ids, now, t1, listing);
    case Compacts(listing, _) => CompactOk(cfg, m, listing, now);
    case Closes(_) => SyncOk(cfg, m, now);
    case Opens(_) =>
  }

  lemma RanUpSettled(cfg: Config, m0: Machine, ev: Event)
    requires Settled(m0.files)
    ensures Settled(Ran(cfg, Up(m0), ev).value.m.files)
  {
    var m := m0.(trail := [At(m0)]);
    match ev
    case Upserts(rawNs, items, t1, t2, listing, _) => UpsertSettled(cfg, m, rawNs, items, t1, t2, listing);
    case Deletes(rawNs, ids, t1, listing, _) => DeleteSettled(cfg, m, rawNs, ids, t1, listing);
    case Compacts(listing, _) => CompactSettled(m, listing);
    case _ =>
  }

  /** Every file step of an event leaves a point of its log; a running engine agrees with it. */
  lemma RanOk(cfg: Config, node: Node, now: Time, ev: Event)
    requires ConfigOk(cfg) && NodeOk(cfg, node, now) && EventOk(cfg, node, now, ev) && Ran(cfg, node, ev).Some?
    ensures var o := Ran(cfg, node, ev).value;
      DiskOk(cfg, o.m, Later(now, ev)) && (o.up ==> NodeOk(cfg, Up(o.m), Later(now, ev)))
  {
    match node
    case Down(p) => OpenTrail(cfg, p, now);
    case Up(m) =>
      RanUpOk(cfg, m, now, ev);
      RanUpSettled(cfg, m, ev);
  }

  lemma AfterOk(cfg: Config, o: Outcome, crash: Option<nat>, t: Time)
    requires DiskOk(cfg, o.m, t) && (o.up ==> NodeOk(cfg, Up(o.m), t))
    ensures NodeOk(cfg, After(o, crash), t)
  {
  }

  lemma NextOk(cfg: Config, node: Node, now: Time, ev: Event)
    requires ConfigOk(cfg) && NodeOk(cfg, node, now) && EventOk(cfg, node, now, ev)
    ensures NodeOk(cfg, Next(cfg, node, ev), Later(now, ev))
  {
    if Ran(cfg, node, ev).Some? {
      RanOk(cfg, node, now, ev);
      AfterOk(cfg, Ran(cfg, node, ev).value, ev.crash, Later(now, ev));
    } else {
      NodeLater(cfg, node, now, Later(now, ev));
    }
  }

  lemma {:induction false} RunOk(cfg: Config, nodes: seq<Node>, times: seq<Time>, evs: seq<Event>, i: nat)
    requires IsRun(cfg, nodes, times, evs) && i < |nodes|
    ensures NodeOk(cfg, nodes[i], times[i])
  {
    if i == 0 {
      assert FoldTo(cfg, [], 0) == map[];
    } else {
      RunOk(cfg, nodes, times, evs, i - 1);
      assert Step(cfg, nodes, times, evs, i - 1);
      NextOk(cfg, nodes[i - 1], times[i - 1], evs[i - 1]);
      NodeLater(cfg, nodes[i], Later(times[i - 1], evs[i - 1]), times[i]);
    }
  }

  /**
   * Whatever came before, a crash after any file step of any event leaves a
   * directory that recovers if and only if it is readable, and then recovers, at
   * every later time, exactly the unexpired records of all entries so far.
   */
  lemma CrashAnywhereRecovers(cfg: Config, nodes: seq<Node>, times: seq<Time>, evs: seq<Event>, i: nat, j: nat, t: Time)
    requires IsRun(cfg, nodes, times, evs) && i < |evs| && times[i + 1] <= t
    requires Ran(cfg, nodes[i], evs[i]).Some? && j < |Ran(cfg, nodes[i], evs[i]).value.m.trail|
    ensures var p := Ran(cfg, nodes[i], evs[i]).value.m.trail[j];
      var r := Recover(cfg, p.files);
      (r.Some? <==> Readable(cfg, p.files)) && (Open(cfg, p).1 <==> Readable(cfg, p.files)) &&
      (r.Some? ==> r.value.lastSeq == |p.log| && Agree(cfg, r.value.records, Fold(cfg, p.log), t))
  {
    RunOk(cfg, nodes, times, evs, i);
    assert Step(cfg, nodes, times, evs, i);
    RanOk(cfg, nodes[i], times[i], evs[i]);
    var p := Ran(cfg, nodes[i], evs[i]).value.m.trail[j];
    PointLater(cfg, p, Later(times[i], evs[i]), t);
    RecoverExact(cfg, p, t);
  }

  /**
   * Between operations the directory recovers if and only if every line of its
   * WAL is short, and then the running engine, the log and a reopened engine
   * answer every query alike.
   */
  lemma LiveAgreesWithRecovered(cfg: Config, nodes: seq<Node>, times: seq<Time>, evs: seq<Event>, i: nat, t: Time,
                                ns: string, matches: Record -> bool)
    requires IsRun(cfg, nodes, times, evs) && i < |nodes| && nodes[i].Up? && times[i] <= t
    ensures var m := nodes[i].m; var r := Recover(cfg, m.files);
      Agree(cfg, m.records, Fold(cfg, m.log), t) && (r.Some? <==> ShortTo(cfg, m.files.wal, |m.files.wal|)) &&
      (r.Some? ==> Agree(cfg, m.records, r.value.records, t) &&
                   Query(cfg, m.records, ns, matches, t) == Query(cfg, r.value.records, ns, matches, t))
  {
    RunOk(cfg, nodes, times, evs, i);
    var m := nodes[i].m;
    ExpireOk(cfg, m, times[i], t);
    RecoverExact(cfg, At(m), t);
    if Recover(cfg, m.files).Some? {
      var r := Recover(cfg, m.files).value.records;
      AgreeBoth(cfg, m.records, r, Fold(cfg, m.log), t);
      QueryAgrees(cfg, m.records, r, t, ns, matches);
    }
  }

  /**
   * The index never changes the records: put any index in the place of the one
   * that a crash after some file step leaves, and the directory opens if and
   * only if it is readable with that one, to the same unexpired records.
   */
  lemma IndexNeverMatters(cfg: Config, nodes: seq<Node>, times: seq<Time>, evs: seq<Event>, i: nat, j: nat,
                          index: File<Loaded>, t: Time)
    requires IsRun(cfg, nodes, times, evs) && i < |evs| && times[i + 1] <= t
    requires Ran(cfg, nodes[i], evs[i]).Some? && j < |Ran(cfg, nodes[i], evs[i]).value.m.trail|
    ensures var p := Ran(cfg, nodes[i], evs[i]).value.m.trail[j];
      var (m, ok) := Open(cfg, p.(files := p.files.(index := index)));
      (ok <==> Readable(cfg, p.files.(index := index))) &&
      (ok ==> m.lastSeq == |p.log| && Agree(cfg, m.records, Fold(cfg, p.log), t))
  {
    RunOk(cfg, nodes, times, evs, i);
    assert Step(cfg, nodes, times, evs, i);
    RanOk(cfg, nodes[i], times[i], evs[i]);
    var p := Ran(cfg, nodes[i], evs[i]).value.m.trail[j];
    PointLater(cfg, p, Later(times[i], evs[i]), t);
    AnyIndexOk(cfg, p, index, t);
    OpenOk(cfg, p.(files := p.files.(index := index)), t);
  }

  lemma AnyIndexOk(cfg: Config, p: Point, index: File<Loaded>, t: Time)
    requires PointOk(cfg, p, t)
    ensures PointOk(cfg, p.(files := p.files.(index := index)), t)
  {
    assert Base(cfg, p.files.(index := index)) == Base(cfg, p.files);
  }

  lemma AgreeBoth(cfg: Config, a: Records, b: Records, c: Records, t: Time)
    requires Agree(cfg, a, c, t) && Agree(cfg, b, c, t)
    ensures Agree(cfg, a, b, t)
  {
    forall k ensures Visible(cfg, a, k, t) == Visible(cfg, b, k, t) {
      assert Visible(cfg, a, k, t) == Visible(cfg, c, k, t);
      assert Visible(cfg, b, k, t) == Visible(cfg, c, k, t);
    }
  }

  // ----- the rejected batch -----

  lemma {:induction false} FirstItemStamped(cfg: Config, m: Records, ns: string, items: seq<Record>, now: Time)
    requires items != [] && cfg.trim(items[0].id) != ""
    ensures var s := StoreItems(cfg, m, ns, items, now); var k := Key(ns, cfg.trim(items[0].id));
      k in s.records && s.records[k].updatedAt == now
    decreases |items|
  {
    var n := |items| - 1;
    if n > 0 {
      FirstItemStamped(cfg, m, ns, items[..n], now);
      assert items[..n][0] == items[0];
    }
  }

  lemma {:induction false} NothingStored(cfg: Config, m: Records, ns: string, items: seq<Record>, now: Time)
    requires items != [] && cfg.trim(items[0].id) == ""
    ensures StoreItems(cfg, m, ns, items, now) == Stored(m, [], false)
    decreases |items|
  {
    var n := |items| - 1;
    if n > 0 {
      NothingStored(cfg, m, ns, items[..n], now);
      assert items[..n][0] == items[0];
    } else {
      assert items[..0] == [];
    }
  }

  /**
   * A batch with a blank id is rejected and not logged, but the records before
   * that id stay in memory: with a clock past every logged stamp, memory and
   * log still agree afterwards if and only if the first id is the blank one.
   */
  lemma RejectedBatchDiverges(cfg: Config, m: Machine, rawNs: string, items: seq<Record>, t: Time, t1: Time, t2: Time,
                              listing: seq<Record>)
    requires ConfigOk(cfg) && MachineOk(cfg, m, t) && t <= t1 <= t2
    requires cfg.trim(rawNs) != "" && HasBlankId(cfg, items)
    requires forall k :: k in Fold(cfg, m.log) ==> Fold(cfg, m.log)[k].updatedAt < t2
    ensures var (m', err) := Upsert(cfg, m, rawNs, items, t1, t2, listing);
      err.Some? && m'.log == m.log &&
      (Agree(cfg, m'.records, Fold(cfg, m.log), t2) <==> cfg.trim(items[0].id) == "")
  {
    var ns := cfg.trim(rawNs);
    var live := DropExpired(cfg, m.records, t1);
    ExpireOk(cfg, m, t, t1);
    AgreeLater(cfg, live, Fold(cfg, m.log), t1, t2);
    StoredAll(cfg, live, ns, items, t2);
    if cfg.trim(items[0].id) == "" {
      NothingStored(cfg, live, ns, items, t2);
    } else {
      FirstItemStamped(cfg, live, ns, items, t2);
      var k := Key(ns, cfg.trim(items[0].id));
      assert Visible(cfg, StoreItems(cfg, live, ns, items, t2).records, k, t2) != Visible(cfg, Fold(cfg, m.log), k, t2);
    }
  }

  // ----- directories that do not open -----

  ghost predicate LockedOut(cfg: Config, node: Node) { node.Down? && !Readable(cfg, node.p.files) }

  ghost predicate AllUnreadable(cfg: Config, trail: seq<Point>) {
    forall i :: 0 <= i < |trail| ==> !Readable(cfg, trail[i].files)
  }

  lemma PreparedUnreadable(cfg: Config, m: Machine)
    requires !Readable(cfg, m.files) && m.trail == []
    ensures !Readable(cfg, Prepared(m).files) && AllUnreadable(cfg, Prepared(m).trail)
  {
  }

  /** A directory that does not open is left by every later attempt as one that does not open. */
  lemma {:induction false} LockedOutForever(cfg: Config, nodes: seq<Node>, times: seq<Time>, evs: seq<Event>, i: nat,
                                            j: nat)
    requires IsRun(cfg, nodes, times, evs) && i <= j < |nodes| && LockedOut(cfg, nodes[i])
    ensures LockedOut(cfg, nodes[j])
    decreases j
  {
    if i < j {
      LockedOutForever(cfg, nodes, times, evs, i, j - 1);
      var p := nodes[j - 1].p;
      RunOk(cfg, nodes, times, evs, j - 1);
      OpenOk(cfg, p, times[j - 1]);
      PreparedUnreadable(cfg, Starting(cfg, p));
      assert Step(cfg, nodes, times, evs, j - 1);
    }
  }

  /**
   * One line that is too long is stored and answered with success, and the
   * directory does not open again, even after a clean close.
   */
  lemma LongLineLocksOut(cfg: Config, m: Machine, rawNs: string, items: seq<Record>, t: Time, t1: Time, t2: Time,
                         listing: seq<Record>)
    requires ConfigOk(cfg) && MachineOk(cfg, m, t) && t <= t1 <= t2 && !cfg.compaction
    requires cfg.trim(rawNs) != "" && items != [] && !HasBlankId(cfg, items)
    requires var s := StoreItems(cfg, DropExpired(cfg, m.records, t1), cfg.trim(rawNs), items, t2);
      cfg.lineBytes(Upserted(m.lastSeq + 1, cfg.trim(rawNs), s.updated)) >= MaxLine
    ensures var (m', err) := Upsert(cfg, m, rawNs, items, t1, t2, listing);
      err.None? && !Open(cfg, At(Sync(m'))).1
  {
    var ns := cfg.trim(rawNs);
    var a := UpsertLine(cfg, m, ns, items, t1, t2);
    LineIsLast(cfg, m, ns, items, t1, t2);
    UpsertLineOk(cfg, m, ns, items, t, t1, t2);
    TrimmedOk(cfg, a, ns, t2);
    LongLineStays(cfg, a, ns, |m.files.wal|, t2);
  }

  lemma LineIsLast(cfg: Config, m: Machine, ns: string, items: seq<Record>, t1: Time, t2: Time)
    requires !HasBlankId(cfg, items)
    ensures var s := StoreItems(cfg, DropExpired(cfg, m.records, t1), ns, items, t2);
      UpsertLine(cfg, m, ns, items, t1, t2).files.wal == m.files.wal + [Upserted(m.lastSeq + 1, ns, s.updated)]
  {
    StoredAll(cfg, DropExpired(cfg, m.records, t1), ns, items, t2);
  }

  lemma LongLineStays(cfg: Config, a: Machine, ns: string, n: nat, t: Time)
    requires MachineOk(cfg, Trimmed(cfg, a, ns), t) && n < |a.files.wal| && cfg.lineBytes(a.files.wal[n]) >= MaxLine
    ensures !Open(cfg, At(Sync(WriteIndex(Trimmed(cfg, a, ns))))).1
  {
    var b := Trimmed(cfg, a, ns);
    assert n < |b.files.wal| && b.files.wal[n] == a.files.wal[n];
    WriteIndexOk(cfg, b, t);
    var c := WriteIndex(b);
    SyncOk(cfg, c, t);
    assert Sync(c).files.wal == b.files.wal;
    OpenOk(cfg, At(Sync(c)), t);
  }

  /**
   * Every accepted upsert passes through a directory that does not open: the index
   * is truncated before it is written.
   */
  lemma UpsertTearsIndex(cfg: Config, m: Machine, rawNs: string, items: seq<Record>, t1: Time, t2: Time,
                         listing: seq<Record>)
    requires Upsert(cfg, m, rawNs, items, t1, t2, listing).1.None?
    ensures var m' := Upsert(cfg, m, rawNs, items, t1, t2, listing).0;
      exists j :: |m.trail| <= j < |m'.trail| && !Open(cfg, m'.trail[j]).1
  {
    var ns := cfg.trim(rawNs);
    var a := UpsertLine(cfg, m, ns, items, t1, t2);
    UpsertLineTrail(cfg, m, ns, items, t1, t2);
    TrimmedTrail(cfg, a, ns);
    RewriteTears(cfg, Trimmed(cfg, a, ns), listing);
  }

  lemma TrailGrows(cfg: Config, m: Machine, e: Entry)
    ensures m.trail <= Append(cfg, m, e).trail
  {
  }

  lemma UpsertLineTrail(cfg: Config, m: Machine, ns: string, items: seq<Record>, t1: Time, t2: Time)
    ensures m.trail <= UpsertLine(cfg, m, ns, items, t1, t2).trail
  {
    var s := StoreItems(cfg, DropExpired(cfg, m.records, t1), ns, items, t2);
    TrailGrows(cfg, m.(records := s.records, lastSeq := m.lastSeq + 1), Upserted(m.lastSeq + 1, ns, s.updated));
  }

  lemma TrimmedTrail(cfg: Config, m: Machine, ns: string)
    ensures m.trail <= Trimmed(cfg, m, ns).trail
  {
    var ids := Surplus(cfg, m.records, ns);
    TrailGrows(cfg, m.(records := Drop(cfg, m.records, ns, ids), lastSeq := m.lastSeq + 1),
               Deleted(m.lastSeq + 1, ns, ids));
  }

  lemma RewriteTears(cfg: Config, m: Machine, listing: seq<Record>)
    ensures var m' := MaybeCompact(cfg, WriteIndex(m), listing);
      |m.trail| < |m'.trail| && !Open(cfg, m'.trail[|m.trail|]).1
  {
    var c := WriteIndex(m);
    assert c.trail[|m.trail|].files.index.Torn?;
    CompactKeepsTrail(c, listing);
  }

  lemma CompactKeepsTrail(m: Machine, listing: seq<Record>)
    ensures m.trail <= Compact(m, listing).trail
  {
    var a := WriteNext(m, listing);
    assert m.trail <= a.trail <= RotateOut(a).trail <= Promote(RotateOut(a)).trail;
  }

  ghost predicate NoTear(trail: seq<Point>) {
    forall i :: 0 <= i < |trail| ==> !Prepare(trail[i].files).snapshot.Torn?
  }

  /**
   * A compaction passes through a torn snapshot if and only if it is the first one:
   * later ones keep the old snapshot until the new one is whole.
   */
  lemma FirstCompactionTears(m: Machine, listing: seq<Record>)
    requires !Prepare(m.files).snapshot.Torn? && m.trail == []
    ensures NoTear(Compact(m, listing).trail) <==> !m.files.snapshot.Absent?
  {
    var a := WriteNext(m, listing);
    if m.files.snapshot.Absent? {
      assert Prepare(a.trail[0].files).snapshot.Torn?;
      assert a.trail[0] == Compact(m, listing).trail[0];
    } else {
      assert NoTear(a.trail);
      var b := RotateOut(a);
      assert NoTear(b.trail) && b.files.snapshot.Absent? && b.files.next.Whole?;
      var c := Promote(b);
      assert NoTear(c.trail) && c.files.snapshot.Whole?;
      assert NoTear(Truncate(c).trail);
    }
  }

  // ----- power loss -----

  function Batch(cfg: Config): nat { if cfg.fsyncBatch <= 1 then 1 else cfg.fsyncBatch }

  function Unsynced(f: Files): int { |f.wal| - f.synced }

  /**
   * `pendingFsyncOps` counts the unsynced tail, but for the `left` lines that
   * were unsynced when the engine opened, until the first sync or truncation.
   */
  ghost predicate CountOk(cfg: Config, m: Machine, left: nat) {
    m.pending < Batch(cfg) && (Unsynced(m.files) == m.pending + left || Unsynced(m.files) == m.pending)
  }

  /** A file step of the event left every WAL line synced, as each sync and each truncation does. */
  ghost predicate AllSynced(trail: seq<Point>) { exists i :: 0 <= i < |trail| && Unsynced(trail[i].files) == 0 }

  /** From such a step on, the count is the tail. */
  ghost predicate LevelOk(m: Machine) { AllSynced(m.trail) ==> Unsynced(m.files) == m.pending }

  /** The count is right, and the tail is within the bound at every file step of the event. */
  ghost predicate FsyncOk(cfg: Config, m: Machine, left: nat) {
    CountOk(cfg, m, left) && LevelOk(m) && |m.trail| > 0 && Unsynced(m.trail[0].files) < Batch(cfg) + left &&
    TailsWithin(m.trail, Batch(cfg) + left)
  }

  ghost predicate TailsWithin(trail: seq<Point>, bound: nat) {
    forall i :: 0 <= i < |trail| ==> Unsynced(trail[i].files) <= bound
  }

  lemma AppendFsync(cfg: Config, m: Machine, e: Entry, left: nat)
    requires FsyncOk(cfg, m, left)
    ensures FsyncOk(cfg, Append(cfg, m, e), left)
  {
  }

  /** A sync that has something to do leaves every line synced. */
  lemma SyncFsync(cfg: Config, m: Machine, left: nat)
    requires FsyncOk(cfg, m, left)
    ensures FsyncOk(cfg, Sync(m), left)
    ensures m.pending > 0 ==> AllSynced(Sync(m).trail) && Unsynced(Sync(m).files) == Sync(m).pending
  {
    if m.pending > 0 { assert Unsynced(Sync(m).trail[|m.trail|].files) == 0; }
  }

  /** A file step that leaves the WAL alone. */
  lemma TickFsync(cfg: Config, m: Machine, f: Files, left: nat)
    requires FsyncOk(cfg, m, left) && Unsynced(f) == Unsynced(m.files)
    ensures var n := Tick(m.(files := f)); FsyncOk(cfg, n, left) && (AllSynced(m.trail) ==> AllSynced(n.trail))
  {
    var n := Tick(m.(files := f));
    if i :| 0 <= i < |m.trail| && Unsynced(m.trail[i].files) == 0 { assert n.trail[i] == m.trail[i]; }
    if Unsynced(f) != 0 && AllSynced(n.trail) {
      var i :| 0 <= i < |n.trail| && Unsynced(n.trail[i].files) == 0;
      assert n.trail[i] == m.trail[i];
    }
  }

  lemma WriteIndexFsync(cfg: Config, m: Machine, left: nat)
    requires FsyncOk(cfg, m, left)
    ensures FsyncOk(cfg, WriteIndex(m), left) && Unsynced(WriteIndex(m).files) == Unsynced(m.files)
    ensures AllSynced(m.trail) ==> AllSynced(WriteIndex(m).trail)
  {
    TickFsync(cfg, m, m.files.(index := Torn), left);
    var n := Tick(m.(files := m.files.(index := Torn)));
    TickFsync(cfg, n, n.files.(index := Whole(Loaded(m.records, m.lastSeq))), left);
  }

  lemma WriteNextFsync(cfg: Config, m: Machine, listing: seq<Record>, left: nat)
    requires FsyncOk(cfg, m, left)
    ensures FsyncOk(cfg, WriteNext(m, listing), left)
  {
    TickFsync(cfg, m, m.files.(next := Torn), left);
    var n := Tick(m.(files := m.files.(next := Torn)));
    TickFsync(cfg, n, n.files.(next := Whole(Snap(m.lastSeq, listing))), left);
  }

  lemma RotateOutFsync(cfg: Config, m: Machine, left: nat)
    requires FsyncOk(cfg, m, left)
    ensures FsyncOk(cfg, RotateOut(m), left)
  {
    TickFsync(cfg, m, m.files.(backup := Absent), left);
    var n := Tick(m.(files := m.files.(backup := Absent)));
    TickFsync(cfg, n, n.files.(backup := n.files.snapshot, snapshot := Absent), left);
  }

  lemma PromoteFsync(cfg: Config, m: Machine, left: nat)
    requires FsyncOk(cfg, m, left)
    ensures FsyncOk(cfg, Promote(m), left)
  {
    TickFsync(cfg, m, m.files.(snapshot := m.files.next, next := Absent), left);
    var n := Tick(m.(files := m.files.(snapshot := m.files.next, next := Absent)));
    TickFsync(cfg, n, n.files.(backup := Absent), left);
  }

  /** A truncation leaves nothing to sync. */
  lemma TruncateFsync(cfg: Config, m: Machine, left: nat)
    requires FsyncOk(cfg, m, left)
    ensures FsyncOk(cfg, Truncate(m), left) && AllSynced(Truncate(m).trail) && Truncate(m).pending == 0
  {
    assert Unsynced(Truncate(m).trail[|m.trail|].files) == 0;
  }

  /** A compaction ends with every line synced and the count at zero. */
  lemma CompactFsync(cfg: Config, m: Machine, listing: seq<Record>, left: nat)
    requires FsyncOk(cfg, m, left)
    ensures FsyncOk(cfg, Compact(m, listing), left)
    ensures AllSynced(Compact(m, listing).trail)
    ensures Unsynced(Compact(m, listing).files) == Compact(m, listing).pending
  {
    var a := WriteNext(m, listing);
    WriteNextFsync(cfg, m, listing, left);
    RotateOutFsync(cfg, a, left);
    PromoteFsync(cfg, RotateOut(a), left);
    var b := Promote(RotateOut(a));
    TruncateFsync(cfg, b, left);
    WriteIndexFsync(cfg, Truncate(b), left);
  }

  lemma UpsertLineFsync(cfg: Config, m: Machine, ns: string, items: seq<Record>, t1: Time, t2: Time, left: nat)
    requires FsyncOk(cfg, m, left)
    ensures FsyncOk(cfg, UpsertLine(cfg, m, ns, items, t1, t2), left)
  {
    var s := StoreItems(cfg, DropExpired(cfg, m.records, t1), ns, items, t2);
    AppendFsync(cfg, m.(records := s.records, lastSeq := m.lastSeq + 1), Upserted(m.lastSeq + 1, ns, s.updated), left);
  }

  lemma TrimmedFsync(cfg: Config, m: Machine, ns: string, left: nat)
    requires FsyncOk(cfg, m, left)
    ensures FsyncOk(cfg, Trimmed(cfg, m, ns), left)
  {
    var ids := Surplus(cfg, m.records, ns);
    AppendFsync(cfg, m.(records := Drop(cfg, m.records, ns, ids), lastSeq := m.lastSeq + 1),
                Deleted(m.lastSeq + 1, ns, ids), left);
  }

  lemma MaybeCompactFsync(cfg: Config, m: Machine, listing: seq<Record>, left: nat)
    requires FsyncOk(cfg, m, left)
    ensures FsyncOk(cfg, MaybeCompact(cfg, m, listing), left)
  {
    CompactFsync(cfg, m, listing, left);
  }

  lemma UpsertFsync(cfg: Config, m: Machine, rawNs: string, items: seq<Record>, t1: Time, t2: Time,
                    listing: seq<Record>, left: nat)
    requires FsyncOk(cfg, m, left)
    ensures FsyncOk(cfg, Upsert(cfg, m, rawNs, items, t1, t2, listing).0, left)
  {
    var ns := cfg.trim(rawNs);
    var a := UpsertLine(cfg, m, ns, items, t1, t2);
    UpsertLineFsync(cfg, m, ns, items, t1, t2, left);
    var b := Trimmed(cfg, a, ns);
    TrimmedFsync(cfg, a, ns, left);
    WriteIndexFsync(cfg, b, left);
    MaybeCompactFsync(cfg, WriteIndex(b), listing, left);
  }

  lemma DeleteLineFsync(cfg: Config, m: Machine, ns: string, ids: set<string>, t: Time, left: nat)
    requires FsyncOk(cfg, m, left)
    ensures FsyncOk(cfg, DeleteLine(cfg, m, ns, ids, t), left)
  {
    var b := m.(records := Drop(cfg, DropExpired(cfg, m.records, t), ns, ids), lastSeq := m.lastSeq + 1);
    AppendFsync(cfg, b, Deleted(m.lastSeq + 1, ns, ids), left);
  }

  lemma DeleteFsync(cfg: Config, m: Machine, rawNs: string, ids: seq<string>, t: Time, listing: seq<Record>, left: nat)
    requires FsyncOk(cfg, m, left)
    ensures FsyncOk(cfg, Delete(cfg, m, rawNs, ids, t, listing).0, left)
  {
    var c := DeleteLine(cfg, m, cfg.trim(rawNs), CleanIds(cfg, ids), t);
    DeleteLineFsync(cfg, m, cfg.trim(rawNs), CleanIds(cfg, ids), t, left);
    WriteIndexFsync(cfg, c, left);
    MaybeCompactFsync(cfg, WriteIndex(c), listing, left);
  }

  /** Every operation of one engine lifetime keeps the count. */
  lemma RanFsync(cfg: Config, m: Machine, ev: Event, left: nat)
    requires CountOk(cfg, m, left)
    ensures FsyncOk(cfg, Ran(cfg, Up(m), ev).value.m, left)
  {
    var m0 := m.(trail := [At(m)]);
    assert FsyncOk(cfg, m0, left);
    match ev
    case Upserts(rawNs, items, t1, t2, listing, _) => UpsertFsync(cfg, m0, rawNs, items, t1, t2, listing, left);
    case Deletes(rawNs, ids, t1, listing, _) => DeleteFsync(cfg, m0, rawNs, ids, t1, listing, left);
    case Compacts(listing, _) => CompactFsync(cfg, m0, listing, left);
    case Closes(_) => SyncFsync(cfg, m0, left);
    case Opens(_) =>
  }

  /**
   * An engine opens with nothing counted over whatever tail it finds: count and
   * tail agree if and only if the WAL was fully synced.
   */
  lemma OpenCount(cfg: Config, p: Point)
    requires Open(cfg, p).1 && p.files.synced <= |p.files.wal|
    ensures var m := Open(cfg, p).0;
      CountOk(cfg, m, Unsynced(p.files)) && Unsynced(m.files) == Unsynced(p.files) &&
      (Unsynced(m.files) == m.pending <==> p.files.synced == |p.files.wal|)
  {
  }

  /** The directory after a power loss that keeps the first `keep` WAL lines. */
  function Lose(f: Files, keep: nat): Files
    requires keep <= |f.wal|
  {
    f.(wal := f.wal[..keep])
  }

  /**
   * After a power loss the directory recovers if and only if what is left is
   * readable, and then to the unexpired records of a prefix of the log that
   * holds at least everything synced.
   */
  lemma PowerLossKeepsPrefix(cfg: Config, p: Point, t: Time, keep: nat)
    requires PointOk(cfg, p, t) && p.files.synced <= keep <= |p.files.wal|
    ensures var r := Recover(cfg, Lose(p.files, keep));
      (r.Some? <==> Readable(cfg, Lose(p.files, keep))) &&
      (r.Some? ==>
         |p.log| - Unsynced(p.files) <= r.value.lastSeq <= |p.log| && Stands(cfg, r, p.log, r.value.lastSeq, t))
  {
    var b := Base(cfg, p.files);
    assert Base(cfg, Lose(p.files, keep)) == b;
    assert ShortTo(cfg, p.files.wal, keep) <==> ShortTo(cfg, p.files.wal[..keep], keep);
    if b.Some? { ReplayPrefix(cfg, b.value, p.files.wal, p.log, t, keep); }
  }

  /** One lifetime: the engine comes up in event `i` and runs without interruption up to node `j`. */
  ghost predicate Lifetime(nodes: seq<Node>, evs: seq<Event>, i: nat, j: nat)
    requires |nodes| == |evs| + 1 && i < j < |nodes|
  {
    nodes[i].Down? && evs[i].Opens? && forall l :: i < l <= j ==> nodes[l].Up?
  }

  lemma ComesUpCount(cfg: Config, p: Point, ev: Event)
    requires ev.Opens? && Next(cfg, Down(p), ev).Up? && p.files.synced <= |p.files.wal|
    ensures CountOk(cfg, Next(cfg, Down(p), ev).m, Unsynced(p.files))
  {
    OpenCount(cfg, p);
  }

  lemma NextCount(cfg: Config, nodes: seq<Node>, times: seq<Time>, evs: seq<Event>, i: nat, left: nat)
    requires IsRun(cfg, nodes, times, evs) && i < |evs| && nodes[i].Up? && CountOk(cfg, nodes[i].m, left)
    ensures nodes[i + 1].Up? ==> CountOk(cfg, nodes[i + 1].m, left)
  {
    RanFsync(cfg, nodes[i].m, evs[i], left);
    assert Step(cfg, nodes, times, evs, i);
  }

  lemma {:induction false} StretchCount(cfg: Config, nodes: seq<Node>, times: seq<Time>, evs: seq<Event>, i: nat,
                                        j: nat, left: nat)
    requires IsRun(cfg, nodes, times, evs) && i <= j < |nodes| && forall l :: i <= l <= j ==> nodes[l].Up?
    requires CountOk(cfg, nodes[i].m, left)
    ensures nodes[j].Up? && CountOk(cfg, nodes[j].m, left)
    decreases j
  {
    if i < j {
      StretchCount(cfg, nodes, times, evs, i, j - 1, left);
      NextCount(cfg, nodes, times, evs, j - 1, left);
    }
  }

  lemma LifetimeCount(cfg: Config, nodes: seq<Node>, times: seq<Time>, evs: seq<Event>, i: nat, j: nat)
    requires IsRun(cfg, nodes, times, evs) && i < j < |nodes| && Lifetime(nodes, evs, i, j)
    ensures nodes[i].p.files.synced <= |nodes[i].p.files.wal| && CountOk(cfg, nodes[j].m, Unsynced(nodes[i].p.files))
  {
    RunOk(cfg, nodes, times, evs, i);
    assert Step(cfg, nodes, times, evs, i);
    ComesUpCount(cfg, nodes[i].p, evs[i]);
    StretchCount(cfg, nodes, times, evs, i + 1, j, Unsynced(nodes[i].p.files));
  }

  /**
   * A power loss during event `j` of a lifetime costs at most one fsync batch on
   * top of the tail that was unsynced when the engine opened, and fewer entries
   * than that between operations.
   */
  lemma PowerLossBound(cfg: Config, nodes: seq<Node>, times: seq<Time>, evs: seq<Event>, i: nat, j: nat, l: nat,
                       keep: nat)
    requires IsRun(cfg, nodes, times, evs) && i < j < |evs| && Lifetime(nodes, evs, i, j)
    requires Ran(cfg, nodes[j], evs[j]).Some? && l < |Ran(cfg, nodes[j], evs[j]).value.m.trail|
    requires var f := Ran(cfg, nodes[j], evs[j]).value.m.trail[l].files; f.synced <= keep <= |f.wal|
    ensures var p := Ran(cfg, nodes[j], evs[j]).value.m.trail[l];
      LossWithin(cfg, p, keep, Batch(cfg) + Unsynced(nodes[i].p.files), l == 0, Later(times[j], evs[j]))
  {
    LifetimeCount(cfg, nodes, times, evs, i, j);
    LossInEvent(cfg, nodes, times, evs, j, l, keep, Unsynced(nodes[i].p.files));
  }

  /** An event in which a sync or a truncation happened leaves a count that is the tail. */
  lemma LeveledByEvent(cfg: Config, nodes: seq<Node>, times: seq<Time>, evs: seq<Event>, k: nat, left: nat)
    requires IsRun(cfg, nodes, times, evs) && k < |evs| && nodes[k].Up? && nodes[k + 1].Up?
    requires CountOk(cfg, nodes[k].m, left)
    requires AllSynced(Ran(cfg, nodes[k], evs[k]).value.m.trail)
    ensures CountOk(cfg, nodes[k + 1].m, 0)
  {
    RanFsync(cfg, nodes[k].m, evs[k], left);
    assert Step(cfg, nodes, times, evs, k);
  }

  /**
   * After the first event of a lifetime in which a sync or a truncation happened,
   * a power loss costs at most one fsync batch, and fewer entries than that
   * between operations, for the rest of the lifetime.
   */
  lemma PowerLossBoundOnceSynced(cfg: Config, nodes: seq<Node>, times: seq<Time>, evs: seq<Event>,
                                 i: nat, k: nat, j: nat, l: nat, keep: nat)
    requires IsRun(cfg, nodes, times, evs) && i < k < j < |evs| && Lifetime(nodes, evs, i, j)
    requires AllSynced(Ran(cfg, nodes[k], evs[k]).value.m.trail)
    requires Ran(cfg, nodes[j], evs[j]).Some? && l < |Ran(cfg, nodes[j], evs[j]).value.m.trail|
    requires var f := Ran(cfg, nodes[j], evs[j]).value.m.trail[l].files; f.synced <= keep <= |f.wal|
    ensures var p := Ran(cfg, nodes[j], evs[j]).value.m.trail[l];
      LossWithin(cfg, p, keep, Batch(cfg), l == 0, Later(times[j], evs[j]))
  {
    LifetimeCount(cfg, nodes, times, evs, i, k);
    LeveledByEvent(cfg, nodes, times, evs, k, Unsynced(nodes[i].p.files));
    StretchCount(cfg, nodes, times, evs, k + 1, j, 0);
    LossInEvent(cfg, nodes, times, evs, j, l, keep, 0);
  }

  /**
   * Recovery from what a power loss leaves either fails because of that directory
   * alone or misses no more than `bound` entries.
   */
  ghost predicate LossWithin(cfg: Config, p: Point, keep: nat, bound: int, strict: bool, t: Time)
    requires keep <= |p.files.wal|
  {
    var r := Recover(cfg, Lose(p.files, keep));
    (r.Some? <==> Readable(cfg, Lose(p.files, keep))) &&
    (r.Some? ==> |p.log| - bound <= r.value.lastSeq <= |p.log| && (strict ==> |p.log| - bound < r.value.lastSeq) &&
                 Stands(cfg, r, p.log, r.value.lastSeq, t))
  }

  lemma LossInEvent(cfg: Config, nodes: seq<Node>, times: seq<Time>, evs: seq<Event>, j: nat, l: nat, keep: nat,
                    left: nat)
    requires IsRun(cfg, nodes, times, evs) && j < |evs| && nodes[j].Up? && CountOk(cfg, nodes[j].m, left)
    requires l < |Ran(cfg, nodes[j], evs[j]).value.m.trail|
    requires var f := Ran(cfg, nodes[j], evs[j]).value.m.trail[l].files; f.synced <= keep <= |f.wal|
    ensures var p := Ran(cfg, nodes[j], evs[j]).value.m.trail[l];
      LossWithin(cfg, p, keep, Batch(cfg) + left, l == 0, Later(times[j], evs[j]))
  {
    RanFsync(cfg, nodes[j].m, evs[j], left);
    RunOk(cfg, nodes, times, evs, j);
    assert Step(cfg, nodes, times, evs, j);
    RanOk(cfg, nodes[j], times[j], evs[j]);
    PowerLossKeepsPrefix(cfg, Ran(cfg, nodes[j], evs[j]).value.m.trail[l], Later(times[j], evs[j]), keep);
  }
}

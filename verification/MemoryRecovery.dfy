/**
 * Crash safety of the memory engine: whatever file step a crash interrupts, the
 * directory opens again if and only if it is `Readable`, and then gives exactly
 * the unexpired records of the log.
 */
module MemoryRecovery {

  import opened Common
  import opened MemoryModel

  // ----- agreement on unexpired records -----

  ghost predicate Agree(cfg: Config, a: Records, b: Records, t: Time) {
    forall k :: Visible(cfg, a, k, t) == Visible(cfg, b, k, t)
  }

  /** Records that agree now agree at every later time, and answer every query alike. */
  lemma AgreeLater(cfg: Config, a: Records, b: Records, t: Time, t': Time)
    requires Agree(cfg, a, b, t) && t <= t'
    ensures Agree(cfg, a, b, t')
  {
    forall k ensures Visible(cfg, a, k, t') == Visible(cfg, b, k, t') {
      assert Visible(cfg, a, k, t) == Visible(cfg, b, k, t);
    }
  }

  lemma QueryAgrees(cfg: Config, a: Records, b: Records, t: Time, ns: string, matches: Record -> bool)
    requires Agree(cfg, a, b, t)
    ensures Query(cfg, a, ns, matches, t) == Query(cfg, b, ns, matches, t)
  {
    QueryIncluded(cfg, a, b, t, ns, matches);
    QueryIncluded(cfg, b, a, t, ns, matches);
  }

  lemma QueryIncluded(cfg: Config, a: Records, b: Records, t: Time, ns: string, matches: Record -> bool)
    requires Agree(cfg, a, b, t)
    ensures Query(cfg, a, ns, matches, t) <= Query(cfg, b, ns, matches, t)
  {
    forall r | r in Query(cfg, a, ns, matches, t) ensures r in Query(cfg, b, ns, matches, t) {
      var k :| k in a && k.ns == ns && !Expired(cfg, a[k], t) && matches(a[k]) && r == a[k];
      assert Visible(cfg, a, k, t) == Visible(cfg, b, k, t);
      assert k in b && b[k] == r;
    }
  }

  lemma ExpiryAgrees(cfg: Config, m: Records, t: Time)
    ensures Agree(cfg, DropExpired(cfg, m, t), m, t)
  {
  }

  lemma AgreeTrans(cfg: Config, a: Records, b: Records, c: Records, t: Time)
    requires Agree(cfg, a, b, t) && Agree(cfg, b, c, t)
    ensures Agree(cfg, a, c, t)
  {
    forall k ensures Visible(cfg, a, k, t) == Visible(cfg, c, k, t) {
      assert Visible(cfg, a, k, t) == Visible(cfg, b, k, t);
      assert Visible(cfg, b, k, t) == Visible(cfg, c, k, t);
    }
  }

  lemma {:induction false} PutAgrees(cfg: Config, a: Records, b: Records, ns: string, rs: seq<Record>, t: Time)
    requires Agree(cfg, a, b, t)
    ensures Agree(cfg, Put(cfg, a, ns, rs), Put(cfg, b, ns, rs), t)
    decreases |rs|
  {
    if rs != [] {
      var n := |rs| - 1;
      PutAgrees(cfg, a, b, ns, rs[..n], t);
      forall k ensures Visible(cfg, Put(cfg, a, ns, rs), k, t) == Visible(cfg, Put(cfg, b, ns, rs), k, t) {
        assert Visible(cfg, Put(cfg, a, ns, rs[..n]), k, t) == Visible(cfg, Put(cfg, b, ns, rs[..n]), k, t);
      }
    }
  }

  lemma DropAgrees(cfg: Config, a: Records, b: Records, ns: string, ids: set<string>, t: Time)
    requires Agree(cfg, a, b, t)
    ensures Agree(cfg, Drop(cfg, a, ns, ids), Drop(cfg, b, ns, ids), t)
  {
    forall k ensures Visible(cfg, Drop(cfg, a, ns, ids), k, t) == Visible(cfg, Drop(cfg, b, ns, ids), k, t) {
      assert Visible(cfg, a, k, t) == Visible(cfg, b, k, t);
    }
  }

  lemma ApplyAgrees(cfg: Config, a: Records, b: Records, e: Entry, t: Time)
    requires Agree(cfg, a, b, t)
    ensures Agree(cfg, Apply(cfg, a, e), Apply(cfg, b, e), t)
  {
    match e
    case Upserted(_, ns, rs) => PutAgrees(cfg, a, b, cfg.trim(ns), rs, t);
    case Deleted(_, ns, ids) => DropAgrees(cfg, a, b, cfg.trim(ns), ids, t);
  }

  // ----- keys -----

  predicate Clean(cfg: Config, s: string) { s != "" && cfg.trim(s) == s }

  /** Every record carries its own key, which is why a snapshot can be read back by its fields. */
  ghost predicate WellKeyed(cfg: Config, m: Records) {
    forall k :: k in m ==> Clean(cfg, k.ns) && Clean(cfg, k.id) && m[k].id == k.id && m[k].namespace == k.ns
  }

  ghost predicate EntryOk(cfg: Config, e: Entry) {
    Clean(cfg, e.ns) && (e.Upserted? ==> forall i :: 0 <= i < |e.records| ==> Clean(cfg, e.records[i].id))
  }

  lemma {:induction false} PutWellKeyed(cfg: Config, m: Records, ns: string, rs: seq<Record>)
    requires WellKeyed(cfg, m) && Clean(cfg, ns) && forall i :: 0 <= i < |rs| ==> Clean(cfg, rs[i].id)
    ensures WellKeyed(cfg, Put(cfg, m, ns, rs))
    decreases |rs|
  {
    if rs != [] { PutWellKeyed(cfg, m, ns, rs[..|rs| - 1]); }
  }

  lemma ApplyWellKeyed(cfg: Config, m: Records, e: Entry)
    requires WellKeyed(cfg, m) && EntryOk(cfg, e)
    ensures WellKeyed(cfg, Apply(cfg, m, e))
  {
    if e.Upserted? { PutWellKeyed(cfg, m, e.ns, e.records); }
  }

  /** `rs` holds every record of `m` and nothing else, in some order. */
  ghost predicate IsListing(rs: seq<Record>, m: Records) {
    (forall i :: 0 <= i < |rs| ==> Holds(m, rs[i])) && (forall k :: k in m ==> m[k] in rs)
  }

  predicate Holds(m: Records, r: Record) { var k := Key(r.namespace, r.id); k in m && m[k] == r }

  lemma {:induction false} LoadListed(cfg: Config, rs: seq<Record>, m: Records)
    requires WellKeyed(cfg, m) && forall i :: 0 <= i < |rs| ==> Holds(m, rs[i])
    ensures forall k :: k in Load(cfg, rs) ==> k in m && Load(cfg, rs)[k] == m[k]
    ensures forall i :: 0 <= i < |rs| ==> Key(rs[i].namespace, rs[i].id) in Load(cfg, rs)
    decreases |rs|
  {
    if rs != [] {
      var n := |rs| - 1;
      LoadListed(cfg, rs[..n], m);
      assert Holds(m, rs[n]);
      forall i | 0 <= i < |rs| ensures Key(rs[i].namespace, rs[i].id) in Load(cfg, rs) {
        if i < n { assert rs[..n][i] == rs[i]; }
      }
    }
  }

  /** Writing the records out and reading them back gives the same records. */
  lemma SnapshotRoundTrip(cfg: Config, rs: seq<Record>, m: Records)
    requires WellKeyed(cfg, m) && IsListing(rs, m)
    ensures Load(cfg, rs) == m
  {
    LoadListed(cfg, rs, m);
    forall k | k in m ensures k in Load(cfg, rs) {
      var i :| 0 <= i < |rs| && rs[i] == m[k];
      assert Key(rs[i].namespace, rs[i].id) == k;
    }
  }

  // ----- points from which recovery is exact -----

  ghost predicate LogOk(cfg: Config, log: seq<Entry>) {
    forall i :: 0 <= i < |log| ==> log[i].sequence == i + 1 && EntryOk(cfg, log[i])
  }

  ghost predicate IsTail(wal: seq<Entry>, log: seq<Entry>) {
    |wal| <= |log| && forall i :: 0 <= i < |wal| ==> wal[i] == log[|log| - |wal| + i]
  }

  /** `b` stands for a prefix of the log, and the WAL holds the rest of it. */
  ghost predicate BaseOk(cfg: Config, b: Loaded, wal: seq<Entry>, log: seq<Entry>, t: Time) {
    |log| - |wal| <= b.lastSeq <= |log| && WellKeyed(cfg, b.records) &&
    Agree(cfg, b.records, FoldTo(cfg, log, b.lastSeq), t)
  }

  ghost predicate PointOk(cfg: Config, p: Point, t: Time) {
    var b := Base(cfg, p.files);
    LogOk(cfg, p.log) && p.files.synced <= |p.files.wal| && IsTail(p.files.wal, p.log) &&
    (b.Some? ==> BaseOk(cfg, b.value, p.files.wal, p.log, t))
  }

  lemma PointLater(cfg: Config, p: Point, t: Time, t': Time)
    requires PointOk(cfg, p, t) && t <= t'
    ensures PointOk(cfg, p, t')
  {
    var b := Base(cfg, p.files);
    if b.Some? { AgreeLater(cfg, b.value.records, FoldTo(cfg, p.log, b.value.lastSeq), t, t'); }
  }

  function Max(a: int, b: int): int { if a < b then b else a }

  /** `r` stands for the first `n` entries of the log. */
  ghost predicate Stands(cfg: Config, r: Option<Loaded>, log: seq<Entry>, n: nat, t: Time)
    requires n <= |log|
  {
    r.Some? && r.value.lastSeq == n && WellKeyed(cfg, r.value.records) &&
    Agree(cfg, r.value.records, FoldTo(cfg, log, n), t)
  }

  lemma StandsStep(cfg: Config, r: Loaded, log: seq<Entry>, n: nat, t: Time)
    requires LogOk(cfg, log) && n < |log| && Stands(cfg, Some(r), log, n, t)
    ensures Stands(cfg, Some(Loaded(Apply(cfg, r.records, log[n]), log[n].sequence)), log, n + 1, t)
  {
    ApplyAgrees(cfg, r.records, FoldTo(cfg, log, n), log[n], t);
    ApplyWellKeyed(cfg, r.records, log[n]);
  }

  /**
   * Replaying the first `j` lines of the WAL succeeds if and only if each of
   * them is short, and then gives the log up to the last entry that they or the
   * snapshot cover.
   */
  lemma {:induction false} ReplayPrefix(cfg: Config, b: Loaded, wal: seq<Entry>, log: seq<Entry>, t: Time, j: nat)
    requires LogOk(cfg, log) && IsTail(wal, log) && BaseOk(cfg, b, wal, log, t) && j <= |wal|
    ensures Replay(cfg, b, wal[..j]).Some? <==> ShortTo(cfg, wal, j)
    ensures ShortTo(cfg, wal, j) ==> Stands(cfg, Replay(cfg, b, wal[..j]), log, Max(b.lastSeq, |log| - |wal| + j), t)
    decreases j
  {
    if j > 0 {
      var a, i := |log| - |wal|, j - 1;
      ReplayPrefix(cfg, b, wal, log, t, i);
      assert wal[..j][..i] == wal[..i];
      assert wal[..j][i] == log[a + i];
      if ShortTo(cfg, wal, j) {
        assert ShortTo(cfg, wal, i);
        var r := Replay(cfg, b, wal[..i]).value;
        if wal[i].sequence > r.lastSeq { StandsStep(cfg, r, log, a + i, t); }
      } else if ShortTo(cfg, wal, i) {
        assert cfg.lineBytes(wal[i]) >= MaxLine;
      }
    }
  }

  /** Recovery succeeds exactly on readable directories, and then agrees with the whole log. */
  lemma RecoverExact(cfg: Config, p: Point, t: Time)
    requires PointOk(cfg, p, t)
    ensures Recover(cfg, p.files).Some? <==> Readable(cfg, p.files)
    ensures Readable(cfg, p.files) ==> Stands(cfg, Recover(cfg, p.files), p.log, |p.log|, t)
  {
    var b, wal := Base(cfg, p.files), p.files.wal;
    if b.Some? {
      ReplayPrefix(cfg, b.value, wal, p.log, t, |wal|);
      assert wal[..|wal|] == wal;
    }
  }

  // ----- every file step leaves such a point -----

  ghost predicate TrailOk(cfg: Config, trail: seq<Point>, t: Time) {
    forall i :: 0 <= i < |trail| ==> PointOk(cfg, trail[i], t)
  }

  ghost predicate DiskOk(cfg: Config, m: Machine, t: Time) {
    PointOk(cfg, At(m), t) && TrailOk(cfg, m.trail, t)
  }

  /** The engine between two operations. */
  ghost predicate MachineOk(cfg: Config, m: Machine, t: Time) {
    DiskOk(cfg, m, t) && LiveOk(cfg, m, t)
  }

  lemma {:induction false} FoldPrefix(cfg: Config, log: seq<Entry>, e: Entry, n: nat)
    requires n <= |log|
    ensures FoldTo(cfg, log + [e], n) == FoldTo(cfg, log, n)
    decreases n
  {
    if n > 0 { FoldPrefix(cfg, log, e, n - 1); }
  }

  lemma PointAppend(cfg: Config, f: Files, log: seq<Entry>, e: Entry, t: Time)
    requires PointOk(cfg, Point(f, log), t) && EntryOk(cfg, e) && e.sequence == |log| + 1
    ensures PointOk(cfg, Point(f.(wal := f.wal + [e]), log + [e]), t)
  {
    var b := Base(cfg, f);
    assert Base(cfg, f.(wal := f.wal + [e])) == b;
    if b.Some? { FoldPrefix(cfg, log, e, b.value.lastSeq); }
  }

  /** One more file step: `m` is the engine after it, over the trail of before. */
  lemma TickOk(cfg: Config, m: Machine, p: Point, trail: seq<Point>, t: Time)
    requires TrailOk(cfg, trail, t) && PointOk(cfg, p, t) && At(m) == p && m.trail == trail
    ensures DiskOk(cfg, Tick(m), t)
  {
  }

  ghost predicate LiveOk(cfg: Config, m: Machine, t: Time) {
    m.lastSeq == |m.log| && WellKeyed(cfg, m.records) && Agree(cfg, m.records, Fold(cfg, m.log), t)
  }

  lemma LiveSame(cfg: Config, m: Machine, n: Machine, t: Time)
    requires LiveOk(cfg, m, t) && n.lastSeq == m.lastSeq && n.log == m.log && n.records == m.records
    ensures LiveOk(cfg, n, t)
  {
  }

  lemma WriteLineOk(cfg: Config, m: Machine, e: Entry, t: Time)
    requires DiskOk(cfg, m, t) && EntryOk(cfg, e) && e.sequence == |m.log| + 1
    ensures DiskOk(cfg, WriteLine(m, e), t)
  {
    var f := m.files.(wal := m.files.wal + [e]);
    PointAppend(cfg, m.files, m.log, e, t);
    TickOk(cfg, m.(files := f, log := m.log + [e], opsSince := m.opsSince + 1, pending := m.pending + 1),
           Point(f, m.log + [e]), m.trail, t);
  }

  /** Appending the entry that explains the change already made in memory. */
  lemma AppendOk(cfg: Config, m: Machine, e: Entry, t: Time)
    requires DiskOk(cfg, m, t) && EntryOk(cfg, e) && e.sequence == |m.log| + 1 == m.lastSeq
    requires WellKeyed(cfg, m.records) && Agree(cfg, m.records, Fold(cfg, m.log + [e]), t)
    ensures MachineOk(cfg, Append(cfg, m, e), t)
    ensures Append(cfg, m, e).log == m.log + [e] && Append(cfg, m, e).records == m.records
  {
    WriteLineOk(cfg, m, e, t);
    SyncOk(cfg, WriteLine(m, e), t);
  }

  lemma SyncOk(cfg: Config, m: Machine, t: Time)
    requires MachineOk(cfg, m, t)
    ensures MachineOk(cfg, Sync(m), t) && Sync(m).log == m.log && Sync(m).records == m.records
  {
    if m.pending > 0 {
      var f := m.files.(synced := |m.files.wal|);
      assert PointOk(cfg, Point(f, m.log), t) by { PointSync(cfg, m.files, m.log, t); }
      TickOk(cfg, m.(files := f, pending := 0), Point(f, m.log), m.trail, t);
      LiveSame(cfg, m, Sync(m), t);
    }
  }

  lemma PointSync(cfg: Config, f: Files, log: seq<Entry>, t: Time)
    requires PointOk(cfg, Point(f, log), t)
    ensures PointOk(cfg, Point(f.(synced := |f.wal|), log), t)
  {
    assert Base(cfg, f.(synced := |f.wal|)) == Base(cfg, f);
  }

  /** The file holds the whole of the engine's memory. */
  predicate Complete(cfg: Config, s: File<Snap>, m: Machine) {
    s.Whole? && s.value.lastSeq == |m.log| && Load(cfg, s.value.records) == m.records
  }

  lemma PointSwitch(cfg: Config, m: Machine, f: Files, t: Time)
    requires MachineOk(cfg, m, t) && f.wal == m.files.wal && f.synced == m.files.synced
    requires Base(cfg, f) == Base(cfg, m.files) || Base(cfg, f).None? || Complete(cfg, Prepare(f).snapshot, m)
    ensures PointOk(cfg, Point(f, m.log), t)
  {
  }

  lemma StepOk(cfg: Config, m: Machine, f: Files, t: Time)
    requires MachineOk(cfg, m, t) && f.wal == m.files.wal && f.synced == m.files.synced
    requires Base(cfg, f) == Base(cfg, m.files) || Base(cfg, f).None? || Complete(cfg, Prepare(f).snapshot, m)
    ensures MachineOk(cfg, Tick(m.(files := f)), t)
  {
    PointSwitch(cfg, m, f, t);
    TickOk(cfg, m.(files := f), Point(f, m.log), m.trail, t);
  }

  /** Neither step of an index rewrite changes what the directory stands for. */
  lemma WriteIndexOk(cfg: Config, m: Machine, t: Time)
    requires MachineOk(cfg, m, t)
    ensures MachineOk(cfg, WriteIndex(m), t)
    ensures WriteIndex(m).log == m.log && WriteIndex(m).records == m.records
  {
    StepOk(cfg, m, m.files.(index := Torn), t);
    var n := Tick(m.(files := m.files.(index := Torn)));
    StepOk(cfg, n, n.files.(index := Whole(Loaded(m.records, m.lastSeq))), t);
  }

  lemma WriteNextOk(cfg: Config, m: Machine, listing: seq<Record>, t: Time)
    requires MachineOk(cfg, m, t) && IsListing(listing, m.records)
    ensures MachineOk(cfg, WriteNext(m, listing), t)
    ensures Complete(cfg, WriteNext(m, listing).files.next, WriteNext(m, listing))
  {
    SnapshotRoundTrip(cfg, listing, m.records);
    StepOk(cfg, m, m.files.(next := Torn), t);
    var n := Tick(m.(files := m.files.(next := Torn)));
    StepOk(cfg, n, n.files.(next := Whole(Snap(m.lastSeq, listing))), t);
  }

  lemma RotateOutOk(cfg: Config, m: Machine, t: Time)
    requires MachineOk(cfg, m, t) && Complete(cfg, m.files.next, m)
    ensures MachineOk(cfg, RotateOut(m), t) && Complete(cfg, RotateOut(m).files.next, RotateOut(m))
    ensures RotateOut(m).files.snapshot.Absent?
  {
    if !m.files.snapshot.Absent? {
      StepOk(cfg, m, m.files.(backup := Absent), t);
      var n := Tick(m.(files := m.files.(backup := Absent)));
      StepOk(cfg, n, n.files.(backup := n.files.snapshot, snapshot := Absent), t);
    }
  }

  lemma PromoteOk(cfg: Config, m: Machine, t: Time)
    requires MachineOk(cfg, m, t) && Complete(cfg, m.files.next, m) && m.files.snapshot.Absent?
    ensures MachineOk(cfg, Promote(m), t) && Complete(cfg, Promote(m).files.snapshot, Promote(m))
  {
    StepOk(cfg, m, m.files.(snapshot := m.files.next, next := Absent), t);
    var n := Tick(m.(files := m.files.(snapshot := m.files.next, next := Absent)));
    StepOk(cfg, n, n.files.(backup := Absent), t);
  }

  lemma TruncateOk(cfg: Config, m: Machine, t: Time)
    requires MachineOk(cfg, m, t) && Complete(cfg, m.files.snapshot, m)
    ensures MachineOk(cfg, Truncate(m), t)
  {
    var f := m.files.(wal := [], synced := 0);
    assert Base(cfg, f) == Base(cfg, m.files);
    assert PointOk(cfg, Point(f, m.log), t);
  }

  /** Every file step of a compaction leaves a directory that stands for the same log. */
  lemma CompactOk(cfg: Config, m: Machine, listing: seq<Record>, t: Time)
    requires MachineOk(cfg, m, t) && IsListing(listing, m.records)
    ensures MachineOk(cfg, Compact(m, listing), t)
    ensures Compact(m, listing).log == m.log && Compact(m, listing).records == m.records
  {
    var a := WriteNext(m, listing);
    WriteNextOk(cfg, m, listing, t);
    RotateOutOk(cfg, a, t);
    PromoteOk(cfg, RotateOut(a), t);
    TruncateOk(cfg, Promote(RotateOut(a)), t);
    WriteIndexOk(cfg, Truncate(Promote(RotateOut(a))), t);
  }

  // ----- operations -----

  ghost predicate CleanAll(cfg: Config, rs: seq<Record>) { forall i :: 0 <= i < |rs| ==> Clean(cfg, rs[i].id) }

  /** One stored item: what the loop puts into memory is what the log line puts there. */
  lemma StampLogged(cfg: Config, m: Records, p: Stored, ns: string, item: Record, now: Time)
    requires ConfigOk(cfg) && cfg.trim(item.id) != "" && p.records == Put(cfg, m, ns, p.updated)
    ensures var r := Stamp(cfg, p.records, ns, item, now);
      Clean(cfg, r.id) && p.records[Key(ns, r.id) := r] == Put(cfg, m, ns, p.updated + [r])
  {
    var r := Stamp(cfg, p.records, ns, item, now);
    assert cfg.trim(cfg.trim(item.id)) == cfg.trim(item.id);
    assert (p.updated + [r])[..|p.updated|] == p.updated;
  }

  lemma {:induction false} StoreItemsLogged(cfg: Config, m: Records, ns: string, items: seq<Record>, now: Time)
    requires ConfigOk(cfg)
    ensures var s := StoreItems(cfg, m, ns, items, now);
      s.records == Put(cfg, m, ns, s.updated) && CleanAll(cfg, s.updated)
    decreases |items|
  {
    if items != [] {
      var n := |items| - 1;
      StoreItemsLogged(cfg, m, ns, items[..n], now);
      var p := StoreItems(cfg, m, ns, items[..n], now);
      if p.ok && cfg.trim(items[n].id) != "" {
        var r := Stamp(cfg, p.records, ns, items[n], now);
        StampLogged(cfg, m, p, ns, items[n], now);
        CleanSnoc(cfg, p.updated, r);
        assert StoreItems(cfg, m, ns, items, now) == Stored(p.records[Key(ns, r.id) := r], p.updated + [r], true);
      } else {
        assert StoreItems(cfg, m, ns, items, now).updated == p.updated;
      }
    }
  }

  lemma CleanSnoc(cfg: Config, rs: seq<Record>, r: Record)
    requires CleanAll(cfg, rs) && Clean(cfg, r.id)
    ensures CleanAll(cfg, rs + [r])
  {
  }

  lemma FoldSnoc(cfg: Config, log: seq<Entry>, e: Entry)
    ensures Fold(cfg, log + [e]) == Apply(cfg, Fold(cfg, log), e)
  {
    FoldPrefix(cfg, log, e, |log|);
  }

  /** Applying an entry in memory and appending it to the log, from memory that agrees with the log. */
  lemma LoggedOk(cfg: Config, m: Machine, live: Records, e: Entry, t: Time)
    requires DiskOk(cfg, m, t) && WellKeyed(cfg, live) && Agree(cfg, live, Fold(cfg, m.log), t)
    requires EntryOk(cfg, e) && e.sequence == |m.log| + 1
    ensures var n := Append(cfg, m.(records := Apply(cfg, live, e), lastSeq := e.sequence), e);
      MachineOk(cfg, n, t) && n.log == m.log + [e]
  {
    FoldSnoc(cfg, m.log, e);
    ApplyAgrees(cfg, live, Fold(cfg, m.log), e, t);
    ApplyWellKeyed(cfg, live, e);
    AppendOk(cfg, m.(records := Apply(cfg, live, e), lastSeq := e.sequence), e, t);
  }

  lemma TrimmedOk(cfg: Config, m: Machine, ns: string, t: Time)
    requires MachineOk(cfg, m, t) && Clean(cfg, ns)
    ensures MachineOk(cfg, Trimmed(cfg, m, ns), t)
    ensures m.log <= Trimmed(cfg, m, ns).log
  {
    var ids := Surplus(cfg, m.records, ns);
    if ids != {} { LoggedOk(cfg, m, m.records, Deleted(m.lastSeq + 1, ns, ids), t); }
  }

  lemma ExpireOk(cfg: Config, m: Machine, t: Time, t': Time)
    requires MachineOk(cfg, m, t) && t <= t'
    ensures MachineOk(cfg, m, t')
    ensures Agree(cfg, DropExpired(cfg, m.records, t'), Fold(cfg, m.log), t')
    ensures WellKeyed(cfg, DropExpired(cfg, m.records, t'))
  {
    PointLater(cfg, At(m), t, t');
    forall i | 0 <= i < |m.trail| ensures PointOk(cfg, m.trail[i], t') { PointLater(cfg, m.trail[i], t, t'); }
    AgreeLater(cfg, m.records, Fold(cfg, m.log), t, t');
    ExpiryAgrees(cfg, m.records, t');
    AgreeTrans(cfg, DropExpired(cfg, m.records, t'), m.records, Fold(cfg, m.log), t');
  }

  /** The items of an upsert, stored in memory, are what its WAL line replays. */
  lemma StoredIsLogged(cfg: Config, live: Records, ns: string, items: seq<Record>, sequence: nat, now: Time)
    requires ConfigOk(cfg) && Clean(cfg, ns) && !HasBlankId(cfg, items)
    ensures var s := StoreItems(cfg, live, ns, items, now); var e := Upserted(sequence, ns, s.updated);
      s.ok && EntryOk(cfg, e) && s.records == Apply(cfg, live, e)
  {
    StoredAll(cfg, live, ns, items, now);
    StoreItemsLogged(cfg, live, ns, items, now);
  }

  /** Memory without its expired records, at the time of the stamps. */
  lemma LiveForUpsert(cfg: Config, m: Machine, t: Time, t1: Time, t2: Time)
    requires MachineOk(cfg, m, t) && t <= t1 <= t2
    ensures var live := DropExpired(cfg, m.records, t1);
      DiskOk(cfg, m, t2) && m.lastSeq == |m.log| && WellKeyed(cfg, live) && Agree(cfg, live, Fold(cfg, m.log), t2)
  {
    ExpireOk(cfg, m, t, t1);
    ExpireOk(cfg, m, t, t2);
    AgreeLater(cfg, DropExpired(cfg, m.records, t1), Fold(cfg, m.log), t1, t2);
  }

  lemma UpsertLineOk(cfg: Config, m: Machine, ns: string, items: seq<Record>, t: Time, t1: Time, t2: Time)
    requires ConfigOk(cfg) && MachineOk(cfg, m, t) && t <= t1 <= t2 && Clean(cfg, ns) && !HasBlankId(cfg, items)
    ensures MachineOk(cfg, UpsertLine(cfg, m, ns, items, t1, t2), t2)
    ensures m.log <= UpsertLine(cfg, m, ns, items, t1, t2).log
  {
    var live := DropExpired(cfg, m.records, t1);
    LiveForUpsert(cfg, m, t, t1, t2);
    StoredIsLogged(cfg, live, ns, items, m.lastSeq + 1, t2);
    LoggedOk(cfg, m, live, Upserted(m.lastSeq + 1, ns, StoreItems(cfg, live, ns, items, t2).updated), t2);
  }

  lemma UpsertOk(cfg: Config, m: Machine, rawNs: string, items: seq<Record>, t: Time, t1: Time, t2: Time,
                 listing: seq<Record>)
    requires ConfigOk(cfg) && MachineOk(cfg, m, t) && t <= t1 <= t2 && !HasBlankId(cfg, items)
    requires IsListing(listing, Upsert(cfg, m, rawNs, items, t1, t2, listing).0.records)
    ensures MachineOk(cfg, Upsert(cfg, m, rawNs, items, t1, t2, listing).0, t2)
    ensures m.log <= Upsert(cfg, m, rawNs, items, t1, t2, listing).0.log
  {
    var ns := cfg.trim(rawNs);
    if ns == "" || items == [] {
      ExpireOk(cfg, m, t, t2);
    } else {
      var a := UpsertLine(cfg, m, ns, items, t1, t2);
      UpsertLineOk(cfg, m, ns, items, t, t1, t2);
      TrimmedOk(cfg, a, ns, t2);
      WriteIndexOk(cfg, Trimmed(cfg, a, ns), t2);
      MaybeCompactOk(cfg, WriteIndex(Trimmed(cfg, a, ns)), listing, t2);
    }
  }

  lemma MaybeCompactOk(cfg: Config, m: Machine, listing: seq<Record>, t: Time)
    requires MachineOk(cfg, m, t) && IsListing(listing, MaybeCompact(cfg, m, listing).records)
    ensures MachineOk(cfg, MaybeCompact(cfg, m, listing), t)
    ensures MaybeCompact(cfg, m, listing).log == m.log && MaybeCompact(cfg, m, listing).records == m.records
  {
    if MaybeCompact(cfg, m, listing) != m {
      assert Compact(m, listing).records == m.records;
      CompactOk(cfg, m, listing, t);
    }
  }

  /** The upsert loop completes exactly when no id is blank. */
  lemma {:induction false} StoredAll(cfg: Config, m: Records, ns: string, items: seq<Record>, now: Time)
    ensures StoreItems(cfg, m, ns, items, now).ok <==> !HasBlankId(cfg, items)
    decreases |items|
  {
    if items != [] {
      var n := |items| - 1;
      StoredAll(cfg, m, ns, items[..n], now);
      if HasBlankId(cfg, items[..n]) {
        var i :| 0 <= i < n && cfg.trim(items[..n][i].id) == "";
        assert cfg.trim(items[i].id) == "";
      }
      if HasBlankId(cfg, items) && cfg.trim(items[n].id) != "" {
        var i :| 0 <= i < |items| && cfg.trim(items[i].id) == "";
        assert items[..n][i] == items[i];
      }
    }
  }

  lemma DeleteLineOk(cfg: Config, m: Machine, ns: string, ids: set<string>, t: Time, t1: Time)
    requires MachineOk(cfg, m, t) && t <= t1 && Clean(cfg, ns)
    ensures MachineOk(cfg, DeleteLine(cfg, m, ns, ids, t1), t1)
    ensures m.log <= DeleteLine(cfg, m, ns, ids, t1).log
  {
    ExpireOk(cfg, m, t, t1);
    LoggedOk(cfg, m, DropExpired(cfg, m.records, t1), Deleted(m.lastSeq + 1, ns, ids), t1);
  }

  lemma DeleteOk(cfg: Config, m: Machine, rawNs: string, ids: seq<string>, t: Time, t1: Time, listing: seq<Record>)
    requires ConfigOk(cfg) && MachineOk(cfg, m, t) && t <= t1
    requires IsListing(listing, Delete(cfg, m, rawNs, ids, t1, listing).0.records)
    ensures MachineOk(cfg, Delete(cfg, m, rawNs, ids, t1, listing).0, t1)
    ensures m.log <= Delete(cfg, m, rawNs, ids, t1, listing).0.log
  {
    var ns := cfg.trim(rawNs);
    if ns == "" || ids == [] {
      ExpireOk(cfg, m, t, t1);
    } else {
      var a := DeleteLine(cfg, m, ns, CleanIds(cfg, ids), t1);
      DeleteLineOk(cfg, m, ns, CleanIds(cfg, ids), t, t1);
      WriteIndexOk(cfg, a, t1);
      MaybeCompactOk(cfg, WriteIndex(a), listing, t1);
    }
  }

  /** A file step while opening, whether or not an engine comes out of it. */
  lemma DiskStep(cfg: Config, m: Machine, f: Files, t: Time)
    requires DiskOk(cfg, m, t) && f.wal == m.files.wal && f.synced == m.files.synced
    requires Base(cfg, f) == Base(cfg, m.files)
    ensures DiskOk(cfg, Tick(m.(files := f)), t)
  {
    TickOk(cfg, m.(files := f), Point(f, m.log), m.trail, t);
  }

  lemma PreparedOk(cfg: Config, m: Machine, t: Time)
    requires DiskOk(cfg, m, t)
    ensures DiskOk(cfg, Prepared(m), t)
    ensures Base(cfg, Prepared(m).files) == Base(cfg, m.files)
  {
    if !m.files.snapshot.Absent? {
      DiskStep(cfg, m, m.files.(next := Absent), t);
      var n := Tick(m.(files := m.files.(next := Absent)));
      DiskStep(cfg, n, n.files.(backup := Absent), t);
    } else if !(m.files.next.Absent? && m.files.backup.Absent?) {
      DiskStep(cfg, m, Prepare(m.files), t);
    }
  }

  /**
   * Opening such a point succeeds if and only if the directory is readable.
   * Every file step on the way, also of an opening that fails, leaves such a
   * point again.
   */
  lemma OpenOk(cfg: Config, p: Point, t: Time)
    requires PointOk(cfg, p, t)
    ensures var (m, ok) := Open(cfg, p);
      (ok <==> Readable(cfg, p.files)) && DiskOk(cfg, m, t) && m.log == p.log && (ok ==> MachineOk(cfg, m, t))
  {
    RecoverExact(cfg, p, t);
    var m := Starting(cfg, p);
    assert DiskOk(cfg, m, t);
    PreparedOk(cfg, m, t);
    if Readable(cfg, p.files) {
      LiveSame(cfg, m, Prepared(m), t);
      WriteIndexOk(cfg, Prepared(m), t);
    }
  }
}

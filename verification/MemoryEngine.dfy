/**
 * The filesystem engine as it runs: fields changed in place, files changed one
 * step at a time, loops over batches, namespaces and WAL lines. Every method
 * is proved to do exactly what `MemoryModel` says, file step by file step.
 */
module MemoryEngine {

  import opened Common
  import opened MemoryModel
  import opened MemoryRecovery
  import opened MemoryRetention

  class FilesystemEngine {
    const cfg: Config
    var files: Files
    var records: Records
    var lastSeq: nat
    var pendingFsyncOps: nat
    var opsSinceCompaction: nat
    ghost var log: seq<Entry>
    ghost var trail: seq<Point>

    ghost function View(): Machine
      reads this
    {
      Machine(files, records, lastSeq, pendingFsyncOps, opsSinceCompaction, log, trail)
    }

    ghost predicate Valid()
      reads this
    {
      ConfigOk(cfg) && WellKeyed(cfg, records)
    }

    constructor (cfg: Config)
      requires ConfigOk(cfg)
      ensures Valid() && this.cfg == cfg
      ensures View() == Machine(NoFiles, map[], 0, 0, 0, [], [])
    {
      this.cfg := cfg;
      files, records, lastSeq := NoFiles, map[], 0;
      pendingFsyncOps, opsSinceCompaction := 0, 0;
      log, trail := [], [];
    }

    // ----- recovery -----

    /**
     * Opens a directory that an earlier process left behind. A directory that
     * cannot be read gives no engine; its snapshot files are prepared all the same.
     */
    method Open(p: Point) returns (ok: bool)
      requires ConfigOk(cfg)
      modifies this
      ensures ok == MemoryModel.Open(cfg, p).1
      ensures ok ==> View() == MemoryModel.Open(cfg, p).0
      ensures files == MemoryModel.Open(cfg, p).0.files && trail == MemoryModel.Open(cfg, p).0.trail
    {
      files, log, trail := p.files, p.log, [];
      pendingFsyncOps, opsSinceCompaction := 0, 0;
      PreparedElsewhere(cfg, p, View());
      PrepareSnapshotFiles();
      ok := RecoverRecords();
      if !ok { return; }
      ok := RecoverIndex();
    }

    /** The snapshot, then the WAL lines newer than it. */
    method RecoverRecords() returns (ok: bool)
      requires Prepare(files).snapshot == files.snapshot
      modifies this`records, this`lastSeq
      ensures ok == Reload(cfg, files).Some?
      ensures ok ==> Loaded(records, lastSeq) == Reload(cfg, files).value
    {
      var base, recovered;
      ok, base := RecoverSnapshot();
      if !ok { return; }
      ok, recovered := ReplayWAL(base, files.wal);
      if ok { records, lastSeq := recovered.records, recovered.lastSeq; }
    }

    method PrepareSnapshotFiles()
      modifies this`files, this`trail
      ensures View() == Prepared(old(View())) && Prepare(files).snapshot == files.snapshot
    {
      if !files.snapshot.Absent? {
        files := files.(next := Absent);
        trail := trail + [Point(files, log)];
        files := files.(backup := Absent);
        trail := trail + [Point(files, log)];
      } else if !files.next.Absent? {
        files := files.(snapshot := files.next, next := Absent);
        trail := trail + [Point(files, log)];
      } else if !files.backup.Absent? {
        files := files.(snapshot := files.backup, backup := Absent);
        trail := trail + [Point(files, log)];
      }
    }

    method RecoverSnapshot() returns (ok: bool, base: Loaded)
      ensures ok == !files.snapshot.Torn?
      ensures files.snapshot.Absent? ==> base == Loaded(map[], 0)
      ensures files.snapshot.Whole? ==>
        base == Loaded(Load(cfg, files.snapshot.value.records), files.snapshot.value.lastSeq)
    {
      ok, base := true, Loaded(map[], 0);
      match files.snapshot
      case Absent =>
      case Torn => ok := false;
      case Whole(s) =>
        var loaded := LoadSnapshot(s);
        base := Loaded(loaded, s.lastSeq);
    }

    /** Rewrites an index that is absent or does not fit; one that cannot be decoded is an error. */
    method RecoverIndex() returns (ok: bool)
      modifies this`files, this`trail
      ensures ok == !old(files).index.Torn?
      ensures View() ==
        if !ok || old(files).index == Whole(Loaded(records, lastSeq)) then old(View()) else WriteIndex(old(View()))
    {
      ok := !files.index.Torn?;
      if ok && files.index != Whole(Loaded(records, lastSeq)) { WriteIndexState(); }
    }

    method WriteIndexState()
      modifies this`files, this`trail
      ensures View() == WriteIndex(old(View()))
    {
      files := files.(index := Torn);
      trail := trail + [Point(files, log)];
      files := files.(index := Whole(Loaded(records, lastSeq)));
      trail := trail + [Point(files, log)];
    }

    method LoadSnapshot(s: Snap) returns (m: Records)
      ensures m == Load(cfg, s.records)
    {
      m := map[];
      for i := 0 to |s.records|
        invariant m == Load(cfg, s.records[..i])
      {
        var r := s.records[i];
        assert s.records[..i + 1][..i] == s.records[..i];
        var ns, id := cfg.trim(r.namespace), cfg.trim(r.id);
        if ns != "" && id != "" { m := m[Key(ns, id) := r]; }
      }
      assert s.records[..|s.records|] == s.records;
    }

    method ReplayWAL(base: Loaded, wal: seq<Entry>) returns (ok: bool, r: Loaded)
      ensures ok == Replay(cfg, base, wal).Some?
      ensures ok ==> r == Replay(cfg, base, wal).value
    {
      ok, r := true, base;
      for i := 0 to |wal|
        invariant Replay(cfg, base, wal[..i]) == Some(r)
        invariant ok
      {
        var e := wal[i];
        assert wal[..i + 1][..i] == wal[..i];
        if cfg.lineBytes(e) >= MaxLine {
          ReplayFails(cfg, base, wal, i + 1);
          ok := false;
          return;
        }
        if e.sequence > r.lastSeq {
          if cfg.trim(e.ns) == "" {
            ReplayFails(cfg, base, wal, i + 1);
            ok := false;
            return;
          }
          var m := ApplyEntry(r.records, e);
          r := Loaded(m, e.sequence);
        }
      }
      assert wal[..|wal|] == wal;
    }

    method ApplyEntry(m0: Records, e: Entry) returns (m: Records)
      ensures m == Apply(cfg, m0, e)
    {
      m := m0;
      var ns := cfg.trim(e.ns);
      match e
      case Upserted(_, _, rs) =>
        for i := 0 to |rs|
          invariant m == Put(cfg, m0, ns, rs[..i])
        {
          assert rs[..i + 1][..i] == rs[..i];
          var id := cfg.trim(rs[i].id);
          if id != "" { m := m[Key(ns, id) := rs[i].(namespace := ns)]; }
        }
        assert rs[..|rs|] == rs;
      case Deleted(_, _, ids) => m := DropEach(m0, ns, ids);
    }

    method DropEach(m0: Records, ns: string, ids: set<string>) returns (m: Records)
      ensures m == Drop(cfg, m0, ns, ids)
    {
      m := m0;
      DropNone(cfg, m0, ns);
      var done := {};
      while done != ids
        invariant done <= ids && m == Drop(cfg, m0, ns, done)
        decreases |ids - done|
      {
        var raw :| raw in ids - done;
        var id := cfg.trim(raw);
        DropOneMore(cfg, m0, ns, done, raw);
        assert ids - done == (ids - (done + {raw})) + {raw};
        if id != "" { m := m - {Key(ns, id)}; }
        done := done + {raw};
      }
    }

    // ----- the log -----

    method SyncWAL()
      modifies this
      ensures View() == Sync(old(View()))
    {
      if pendingFsyncOps == 0 { return; }
      files := files.(synced := |files.wal|);
      pendingFsyncOps := 0;
      trail := trail + [Point(files, log)];
    }

    method AppendEntry(e: Entry)
      modifies this
      ensures View() == Append(cfg, old(View()), e)
      ensures records == old(records)
    {
      files := files.(wal := files.wal + [e]);
      log := log + [e];
      opsSinceCompaction := opsSinceCompaction + 1;
      pendingFsyncOps := pendingFsyncOps + 1;
      trail := trail + [Point(files, log)];
      if cfg.fsyncBatch <= 1 || pendingFsyncOps >= cfg.fsyncBatch { SyncWAL(); }
    }

    // ----- compaction -----

    method ListRecords() returns (rs: seq<Record>)
      requires Valid()
      ensures IsListing(rs, records)
    {
      rs := [];
      var m, todo := records, records.Keys;
      while todo != {}
        invariant todo <= m.Keys
        invariant forall i :: 0 <= i < |rs| ==> Holds(m, rs[i])
        invariant forall k :: k in m && k !in todo ==> m[k] in rs
        decreases |todo|
      {
        var k :| k in todo;
        assert Holds(m, m[k]);
        rs := rs + [m[k]];
        todo := todo - {k};
      }
    }

    method RotateSnapshot()
      modifies this`files, this`trail
      ensures View() == Promote(RotateOut(old(View())))
    {
      if !files.snapshot.Absent? {
        files := files.(backup := Absent);
        trail := trail + [Point(files, log)];
        files := files.(backup := files.snapshot, snapshot := Absent);
        trail := trail + [Point(files, log)];
      }
      files := files.(snapshot := files.next, next := Absent);
      trail := trail + [Point(files, log)];
      files := files.(backup := Absent);
      trail := trail + [Point(files, log)];
    }

    method CompactNow() returns (ghost listing: seq<Record>)
      requires Valid()
      modifies this
      ensures Valid() && IsListing(listing, records)
      ensures View() == Compact(old(View()), listing)
    {
      var rs := ListRecords();
      listing := rs;
      files := files.(next := Torn);
      trail := trail + [Point(files, log)];
      files := files.(next := Whole(Snap(lastSeq, rs)));
      trail := trail + [Point(files, log)];
      assert View() == WriteNext(old(View()), rs);
      RotateSnapshot();
      files := files.(wal := [], synced := 0);
      trail := trail + [Point(files, log)];
      pendingFsyncOps, opsSinceCompaction := 0, 0;
      WriteIndexState();
    }

    method MaybeCompactNow() returns (ghost listing: seq<Record>)
      requires Valid()
      modifies this
      ensures Valid() && IsListing(listing, records)
      ensures View() == MaybeCompact(cfg, old(View()), listing)
    {
      if !cfg.compaction || (opsSinceCompaction < cfg.minOps && WalBytes(cfg, files.wal) < cfg.maxWALBytes) {
        var rs := ListRecords();
        listing := rs;
      } else {
        listing := CompactNow();
      }
    }

    // ----- lifecycle -----

    method ApplyTTL(now: Time)
      modifies this`records
      ensures records == DropExpired(cfg, old(records), now)
    {
      var todo := records.Keys;
      while todo != {}
        invariant todo <= old(records).Keys
        invariant records ==
          map k | k in old(records) && (k in todo || !Expired(cfg, old(records)[k], now)) :: old(records)[k]
        decreases |todo|
      {
        var k :| k in todo;
        if Expired(cfg, records[k], now) { records := records - {k}; }
        todo := todo - {k};
      }
    }

    /** Sorts the namespace newest first and drops everything past the bound. */
    method ApplyRetention(ns: string) returns (trimmed: set<string>)
      requires Valid() && Clean(cfg, ns)
      modifies this`records
      ensures Valid() && trimmed == Surplus(cfg, old(records), ns)
      ensures records == Drop(cfg, old(records), ns, trimmed)
    {
      trimmed := {};
      DropNone(cfg, records, ns);
      if cfg.retention <= 0 { return; }
      var space := set k | k in records && k.ns == ns;
      if |space| <= cfg.retention { return; }
      var order := SortSpace(ns, space);
      SpaceSize(records, ns, order);
      SurplusIsTail(cfg, records, ns, order);
      for i := cfg.retention to |order|
        invariant trimmed == set j | cfg.retention <= j < i :: order[j].id
      {
        trimmed := trimmed + {order[i].id};
      }
      records := map k | k in records && !(k.ns == ns && k.id in trimmed) :: records[k];
      DropClean(cfg, old(records), ns, trimmed);
    }

    method SortSpace(ns: string, space: set<Key>) returns (order: seq<Key>)
      requires Valid() && space == Space(records, ns)
      ensures Ordered(records, ns, order) && (set k | k in order) == space
    {
      order := [];
      var todo := space;
      while todo != {}
        invariant todo <= space
        invariant Ordered(records, ns, order) && (set k | k in order) == space - todo
        decreases |todo|
      {
        var k :| k in todo;
        assert k !in (set j | j in order);
        InsertOrdered(records, ns, order, k);
        InsertedKeys(records, order, k);
        order := Insert(records, order, k);
        todo := todo - {k};
      }
    }

    // ----- operations -----

    method Upsert(rawNs: string, items: seq<Record>, t1: Time, t2: Time)
      returns (err: Option<Failure>, ghost listing: seq<Record>)
      requires Valid()
      modifies this
      ensures Valid() && IsListing(listing, records)
      ensures (View(), err) == MemoryModel.Upsert(cfg, old(View()), rawNs, items, t1, t2, listing)
    {
      var ns := cfg.trim(rawNs);
      if ns == "" || items == [] {
        var rs := ListRecords();
        return Some(InvalidRequest), rs;
      }
      ApplyTTL(t1);
      ghost var live := records;
      StoredAll(cfg, live, ns, items, t2);
      StoreItemsLogged(cfg, live, ns, items, t2);
      PutWellKeyed(cfg, live, ns, StoreItems(cfg, live, ns, items, t2).updated);
      var ok, updated := StoreBatch(ns, items, t2);
      if !ok {
        var rs := ListRecords();
        return Some(InvalidRequest), rs;
      }
      lastSeq := lastSeq + 1;
      AppendEntry(Upserted(lastSeq, ns, updated));
      assert View() == UpsertLine(cfg, old(View()), ns, items, t1, t2);
      var trimmed := Retain(ns);
      assert View() == Trimmed(cfg, UpsertLine(cfg, old(View()), ns, items, t1, t2), ns);
      WriteIndexState();
      listing := MaybeCompactNow();
      err := None;
    }

    method Retain(ns: string) returns (trimmed: set<string>)
      requires Valid() && Clean(cfg, ns)
      modifies this
      ensures Valid() && trimmed == Surplus(cfg, old(records), ns)
      ensures View() == TrimLine(cfg, old(View()), ns, trimmed)
    {
      DropNone(cfg, records, ns);
      trimmed := ApplyRetention(ns);
      if trimmed == {} { return; }
      lastSeq := lastSeq + 1;
      TrimLineIs(cfg, old(View()), ns, trimmed, View());
      AppendEntry(Deleted(lastSeq, ns, trimmed));
    }

    /** The upsert loop: it changes memory record by record and stops at a blank id. */
    method StoreBatch(ns: string, items: seq<Record>, now: Time) returns (ok: bool, updated: seq<Record>)
      requires Clean(cfg, ns)
      modifies this`records
      ensures Stored(records, updated, ok) == StoreItems(cfg, old(records), ns, items, now)
    {
      updated := [];
      for i := 0 to |items|
        invariant Stored(records, updated, true) == StoreItems(cfg, old(records), ns, items[..i], now)
      {
        assert items[..i + 1][..i] == items[..i];
        var id := cfg.trim(items[i].id);
        if id == "" {
          StoppedEarly(cfg, old(records), ns, items, now, i + 1);
          return false, updated;
        }
        var r := items[i].(id := id, namespace := ns);
        r := r.(sessionID := cfg.trim(r.sessionID), runID := cfg.trim(r.runID));
        if Key(ns, id) in records && records[Key(ns, id)].createdAt != 0 {
          r := r.(createdAt := records[Key(ns, id)].createdAt);
        }
        if r.createdAt == 0 { r := r.(createdAt := now); }
        r := r.(updatedAt := now);
        records := records[Key(ns, id) := r];
        updated := updated + [r];
      }
      assert items[..|items|] == items;
      ok := true;
    }

    method Delete(rawNs: string, ids: seq<string>, t: Time)
      returns (err: Option<Failure>, ghost listing: seq<Record>)
      requires Valid()
      modifies this
      ensures Valid() && IsListing(listing, records)
      ensures (View(), err) == MemoryModel.Delete(cfg, old(View()), rawNs, ids, t, listing)
    {
      var ns := cfg.trim(rawNs);
      if ns == "" || ids == [] {
        var rs := ListRecords();
        return Some(InvalidRequest), rs;
      }
      ApplyTTL(t);
      var clean := DropIds(ns, ids);
      lastSeq := lastSeq + 1;
      AppendEntry(Deleted(lastSeq, ns, clean));
      assert View() == DeleteLine(cfg, old(View()), ns, CleanIds(cfg, ids), t);
      WriteIndexState();
      listing := MaybeCompactNow();
      err := None;
    }

    method DropIds(ns: string, ids: seq<string>) returns (clean: set<string>)
      requires Valid() && Clean(cfg, ns)
      modifies this`records
      ensures Valid() && clean == CleanIds(cfg, ids) && records == Drop(cfg, old(records), ns, clean)
    {
      clean := {};
      DropNone(cfg, records, ns);
      for i := 0 to |ids|
        invariant clean == CleanIds(cfg, ids[..i])
        invariant records == map k | k in old(records) && !(k.ns == ns && k.id in clean) :: old(records)[k]
      {
        assert ids[..i + 1] == ids[..i] + [ids[i]];
        var id := cfg.trim(ids[i]);
        if id != "" && id !in clean {
          clean := clean + {id};
          records := records - {Key(ns, id)};
        }
      }
      assert ids[..|ids|] == ids;
      DropClean(cfg, old(records), ns, clean);
    }

    /** The records of a namespace that are not expired and match. */
    method QueryRecords(ns: string, matches: Record -> bool, now: Time) returns (items: seq<Record>)
      ensures (set r | r in items) == Query(cfg, records, ns, matches, now)
    {
      items := [];
      var todo := records.Keys;
      while todo != {}
        invariant todo <= records.Keys
        invariant forall r :: r in items <==>
          exists k :: k in records && k !in todo && k.ns == ns && !Expired(cfg, records[k], now) &&
                      matches(records[k]) && records[k] == r
        decreases |todo|
      {
        var k :| k in todo;
        todo := todo - {k};
        if k.ns == ns && !Expired(cfg, records[k], now) && matches(records[k]) { items := items + [records[k]]; }
      }
    }
  }

  // ----- small facts about the specification that the loops rely on -----

  /** Preparing the files does not depend on memory, and changes nothing that recovery reads. */
  lemma PreparedElsewhere(cfg: Config, p: Point, m: Machine)
    requires At(m) == p && m.trail == [] && m.pending == 0 && m.opsSince == 0
    ensures var s := Starting(cfg, p); var f := Prepared(m).files;
      Prepared(s) == Prepared(m).(records := s.records, lastSeq := s.lastSeq) &&
      Reload(cfg, f) == Reload(cfg, p.files) && f.index == p.files.index
  {
    assert Base(cfg, Prepared(m).files) == Base(cfg, p.files);
  }

  lemma {:induction false} ReplayFails(cfg: Config, b: Loaded, wal: seq<Entry>, i: nat)
    requires i <= |wal| && Replay(cfg, b, wal[..i]).None?
    ensures Replay(cfg, b, wal).None?
    decreases |wal|
  {
    if i < |wal| {
      var n := |wal| - 1;
      assert wal[..n][..i] == wal[..i];
      ReplayFails(cfg, b, wal[..n], i);
    } else {
      assert wal[..i] == wal;
    }
  }

  lemma {:induction false} StoppedEarly(cfg: Config, m: Records, ns: string, items: seq<Record>, now: Time, i: nat)
    requires i <= |items| && !StoreItems(cfg, m, ns, items[..i], now).ok
    ensures StoreItems(cfg, m, ns, items, now) == StoreItems(cfg, m, ns, items[..i], now)
    decreases |items|
  {
    if i < |items| {
      var n := |items| - 1;
      assert items[..n][..i] == items[..i];
      StoppedEarly(cfg, m, ns, items[..n], now, i);
    } else {
      assert items[..i] == items;
    }
  }

  lemma DropOneMore(cfg: Config, m: Records, ns: string, ids: set<string>, raw: string)
    ensures Drop(cfg, m, ns, ids + {raw}) ==
      (if cfg.trim(raw) == "" then Drop(cfg, m, ns, ids) else Drop(cfg, m, ns, ids) - {Key(ns, cfg.trim(raw))})
  {
    forall id ensures Names(cfg, ids + {raw}, id) <==> Names(cfg, ids, id) || (id != "" && cfg.trim(raw) == id) {
      if id != "" && cfg.trim(raw) == id { assert raw in ids + {raw}; }
      if Names(cfg, ids, id) { var x :| x in ids && cfg.trim(x) == id; assert x in ids + {raw}; }
    }
  }

  lemma TrimLineIs(cfg: Config, m: Machine, ns: string, ids: set<string>, n: Machine)
    requires ids != {} && n.records == Drop(cfg, m.records, ns, ids) && n.lastSeq == m.lastSeq + 1
    requires n.files == m.files && n.pending == m.pending && n.opsSince == m.opsSince && n.log == m.log
    requires n.trail == m.trail
    ensures TrimLine(cfg, m, ns, ids) == Append(cfg, n, Deleted(n.lastSeq, ns, ids))
  {
    assert n == m.(records := Drop(cfg, m.records, ns, ids), lastSeq := m.lastSeq + 1);
  }

  lemma DropNone(cfg: Config, m: Records, ns: string)
    ensures Drop(cfg, m, ns, {}) == m
  {
  }

  /** Ids that are already trimmed name themselves. */
  lemma DropClean(cfg: Config, m: Records, ns: string, ids: set<string>)
    requires forall id :: id in ids ==> Clean(cfg, id)
    ensures Drop(cfg, m, ns, ids) == map k | k in m && !(k.ns == ns && k.id in ids) :: m[k]
  {
    forall id ensures Names(cfg, ids, id) <==> id in ids { }
  }
}

/**
 * The memory engine on files: a map of records in memory, a write-ahead log
 * (WAL), a rotated snapshot and an index on disk. Operations are values that
 * list, in order, the directory left behind by every single file step, so that
 * a crash can be placed between any two of them.
 */
module MemoryModel {

  import opened Common
  import opened Text

  /** A clock reading; 0 is the zero time. */
  type Time = nat

  datatype Record = Record(
    id: string, namespace: string, sessionID: string, runID: string, content: string,
    createdAt: Time, updatedAt: Time)

  datatype Key = Key(ns: string, id: string)

  /** The engine's nested maps, flattened: a record is found by namespace and id. */
  type Records = map<Key, Record>

  /** One WAL line. The order of deleted ids has no effect and is dropped. */
  datatype Entry =
    | Upserted(sequence: nat, ns: string, records: seq<Record>)
    | Deleted(sequence: nat, ns: string, ids: set<string>)

  datatype Snap = Snap(lastSeq: nat, records: seq<Record>)

  /** Records together with the sequence number they stand for. */
  datatype Loaded = Loaded(records: Records, lastSeq: nat)

  /** A file that is truncated first and written afterwards; in between it is torn and cannot be decoded. */
  datatype File<T> = Absent | Torn | Whole(value: T)

  /**
   * The directory. The index holds a checksum of the records and the sequence
   * number it was written for, here those values themselves. `synced` counts
   * the WAL lines that a power loss cannot take away.
   */
  datatype Files = Files(
    snapshot: File<Snap>, next: File<Snap>, backup: File<Snap>, index: File<Loaded>, wal: seq<Entry>, synced: nat)

  const NoFiles: Files := Files(Absent, Absent, Absent, Absent, [], 0)

  /** `lineBytes` is the length of a WAL entry in its encoding, without the line end. */
  datatype Config = Config(
    ttlEnabled: bool, ttl: int, retention: int, compaction: bool, minOps: int, maxWALBytes: int,
    fsyncBatch: int, lineBytes: Entry -> nat, trim: string -> string)

  /** Trimming white space is idempotent; nothing else about it matters here. */
  ghost predicate ConfigOk(cfg: Config) {
    forall s :: cfg.trim(cfg.trim(s)) == cfg.trim(s)
  }

  /** Cutting white space off both ends is such a trimming. */
  lemma TrimSpaceOk(cfg: Config)
    requires cfg.trim == Text.Trim
    ensures ConfigOk(cfg)
  {
    forall s ensures cfg.trim(cfg.trim(s)) == cfg.trim(s) { Text.TrimTwice(s); }
  }

  /** The longest token that a line scanner with its default buffer accepts is one byte shorter. */
  const MaxLine: nat := 65536

  predicate ShortTo(cfg: Config, wal: seq<Entry>, n: nat)
    requires n <= |wal|
  {
    forall i :: 0 <= i < n ==> cfg.lineBytes(wal[i]) < MaxLine
  }

  function WalBytes(cfg: Config, wal: seq<Entry>): nat {
    if wal == [] then 0 else WalBytes(cfg, wal[..|wal| - 1]) + cfg.lineBytes(wal[|wal| - 1]) + 1
  }

  predicate Expired(cfg: Config, r: Record, now: Time) {
    cfg.ttlEnabled && cfg.ttl > 0 && r.updatedAt != 0 && r.updatedAt < now - cfg.ttl
  }

  // ----- effect of WAL entries and snapshots on the records -----

  function Put(cfg: Config, m: Records, ns: string, rs: seq<Record>): Records {
    if rs == [] then m
    else
      var n := |rs| - 1;
      var p := Put(cfg, m, ns, rs[..n]);
      if cfg.trim(rs[n].id) == "" then p else p[Key(ns, cfg.trim(rs[n].id)) := rs[n].(namespace := ns)]
  }

  predicate Names(cfg: Config, ids: set<string>,
                  id: string) { exists raw :: raw in ids && cfg.trim(raw) == id && id != "" }

  function Drop(cfg: Config, m: Records, ns: string, ids: set<string>): Records {
    map k | k in m && !(k.ns == ns && Names(cfg, ids, k.id)) :: m[k]
  }

  function Apply(cfg: Config, m: Records, e: Entry): Records {
    match e
    case Upserted(_, ns, rs) => Put(cfg, m, cfg.trim(ns), rs)
    case Deleted(_, ns, ids) => Drop(cfg, m, cfg.trim(ns), ids)
  }

  /** The plain map that the first `n` entries of the log stand for. */
  function FoldTo(cfg: Config, log: seq<Entry>, n: nat): Records
    requires n <= |log|
  {
    if n == 0 then map[] else Apply(cfg, FoldTo(cfg, log, n - 1), log[n - 1])
  }

  function Fold(cfg: Config, log: seq<Entry>): Records { FoldTo(cfg, log, |log|) }

  function Load(cfg: Config, rs: seq<Record>): Records {
    if rs == [] then map[]
    else
      var n := |rs| - 1;
      var r := rs[n];
      var p := Load(cfg, rs[..n]);
      if cfg.trim(r.namespace) == "" || cfg.trim(r.id) == "" then p
      else p[Key(cfg.trim(r.namespace), cfg.trim(r.id)) := r]
  }

  // ----- recovery -----

  /** `prepareSnapshotFiles`: which snapshot counts after a crash, and what is left in the directory. */
  function Prepare(f: Files): Files {
    if !f.snapshot.Absent? then f.(next := Absent, backup := Absent)
    else if !f.next.Absent? then f.(snapshot := f.next, next := Absent)
    else if !f.backup.Absent? then f.(snapshot := f.backup, backup := Absent)
    else f
  }

  /** What the snapshot that counts stands for, unless it cannot be decoded. */
  function Base(cfg: Config, f: Files): Option<Loaded> {
    match Prepare(f).snapshot
    case Absent => Some(Loaded(map[], 0))
    case Torn => None
    case Whole(s) => Some(Loaded(Load(cfg, s.records), s.lastSeq))
  }

  /**
   * Replays WAL lines newer than the snapshot. A line that the scanner cannot
   * hold makes recovery fail whatever its sequence, and so does a newer line
   * without a namespace.
   */
  function Replay(cfg: Config, b: Loaded, wal: seq<Entry>): Option<Loaded> {
    if wal == [] then Some(b)
    else
      var n := |wal| - 1;
      var p := Replay(cfg, b, wal[..n]);
      if p.None? || cfg.lineBytes(wal[n]) >= MaxLine then None
      else if wal[n].sequence <= p.value.lastSeq then p
      else if cfg.trim(wal[n].ns) == "" then None
      else Some(Loaded(Apply(cfg, p.value.records, wal[n]), wal[n].sequence))
  }

  /** The records that the snapshot and the WAL stand for. */
  function Reload(cfg: Config, f: Files): Option<Loaded> {
    var b := Base(cfg, f);
    if b.None? then None else Replay(cfg, b.value, f.wal)
  }

  /** `recover`: an index that cannot be decoded makes it fail, any other index changes nothing. */
  function Recover(cfg: Config, f: Files): Option<Loaded> {
    if f.index.Torn? then None else Reload(cfg, f)
  }

  /** Which directories open again: every line is short, and neither the index nor the snapshot that counts is torn. */
  predicate Readable(cfg: Config, f: Files) {
    ShortTo(cfg, f.wal, |f.wal|) && !f.index.Torn? && !Prepare(f).snapshot.Torn?
  }

  // ----- the running engine -----

  /** What a crash at this moment leaves: the directory, and the log of every entry ever appended. */
  datatype Point = Point(files: Files, log: seq<Entry>)

  /** The engine's fields; `log` and `trail` are history and are never read by it. */
  datatype Machine = Machine(
    files: Files, records: Records, lastSeq: nat, pending: nat, opsSince: nat,
    log: seq<Entry>, trail: seq<Point>)

  function At(m: Machine): Point { Point(m.files, m.log) }

  /** Records the directory after a file step. */
  function Tick(m: Machine): Machine { m.(trail := m.trail + [At(m)]) }

  function Sync(m: Machine): Machine {
    if m.pending == 0 then m else Tick(m.(files := m.files.(synced := |m.files.wal|), pending := 0))
  }

  function WriteLine(m: Machine, e: Entry): Machine {
    Tick(m.(files := m.files.(wal := m.files.wal + [e]), log := m.log + [e],
            opsSince := m.opsSince + 1, pending := m.pending + 1))
  }

  function Append(cfg: Config, m: Machine, e: Entry): Machine {
    var w := WriteLine(m, e);
    if cfg.fsyncBatch <= 1 || w.pending >= cfg.fsyncBatch then Sync(w) else w
  }

  /** `writeIndexState`: the file is truncated, then written. */
  function WriteIndex(m: Machine): Machine {
    var n := Tick(m.(files := m.files.(index := Torn)));
    Tick(n.(files := n.files.(index := Whole(Loaded(m.records, m.lastSeq)))))
  }

  function WriteNext(m: Machine, listing: seq<Record>): Machine {
    var n := Tick(m.(files := m.files.(next := Torn)));
    Tick(n.(files := n.files.(next := Whole(Snap(m.lastSeq, listing)))))
  }

  function RotateOut(m: Machine): Machine {
    if m.files.snapshot.Absent? then m
    else
      var n := Tick(m.(files := m.files.(backup := Absent)));
      Tick(n.(files := n.files.(backup := n.files.snapshot, snapshot := Absent)))
  }

  function Promote(m: Machine): Machine {
    var n := Tick(m.(files := m.files.(snapshot := m.files.next, next := Absent)));
    Tick(n.(files := n.files.(backup := Absent)))
  }

  function Truncate(m: Machine): Machine {
    Tick(m.(files := m.files.(wal := [], synced := 0))).(pending := 0, opsSince := 0)
  }

  /** `compactLocked`; `listing` is the order in which the records reach the snapshot file. */
  function Compact(m: Machine, listing: seq<Record>): Machine {
    WriteIndex(Truncate(Promote(RotateOut(WriteNext(m, listing)))))
  }

  function MaybeCompact(cfg: Config, m: Machine, listing: seq<Record>): Machine {
    if !cfg.compaction then m
    else if m.opsSince < cfg.minOps && WalBytes(cfg, m.files.wal) < cfg.maxWALBytes then m
    else Compact(m, listing)
  }

  function DropExpired(cfg: Config, m: Records, now: Time): Records {
    map k | k in m && !Expired(cfg, m[k], now) :: m[k]
  }

  /** The record that an upsert stores for `item`. */
  function Stamp(cfg: Config, m: Records, ns: string, item: Record, now: Time): Record {
    var id := cfg.trim(item.id);
    var key := Key(ns, id);
    var created := if key in m && m[key].createdAt != 0 then m[key].createdAt else item.createdAt;
    Record(id, ns, cfg.trim(item.sessionID), cfg.trim(item.runID), item.content,
           if created == 0 then now else created, now)
  }

  /** The upsert loop after `items`: it stops at the first blank id, keeping what it has stored. */
  datatype Stored = Stored(records: Records, updated: seq<Record>, ok: bool)

  function StoreItems(cfg: Config, m: Records, ns: string, items: seq<Record>, now: Time): Stored {
    if items == [] then Stored(m, [], true)
    else
      var n := |items| - 1;
      var p := StoreItems(cfg, m, ns, items[..n], now);
      if !p.ok then p
      else if cfg.trim(items[n].id) == "" then p.(ok := false)
      else
        var r := Stamp(cfg, p.records, ns, items[n], now);
        Stored(p.records[Key(ns, r.id) := r], p.updated + [r], true)
  }

  /** The order in which retention keeps records: newest first, then by id. */
  predicate Outranks(a: Record, b: Record) {
    a.updatedAt > b.updatedAt || (a.updatedAt == b.updatedAt && Before(a.id, b.id))
  }

  function Space(m: Records, ns: string): set<Key> { set k | k in m && k.ns == ns }

  function Better(m: Records, k: Key): set<Key>
    requires k in m
  {
    set j | j in m && j.ns == k.ns && Outranks(m[j], m[k])
  }

  /** The ids that exceed the retention bound of a namespace. */
  function Surplus(cfg: Config, m: Records, ns: string): set<string> {
    if cfg.retention <= 0 || |Space(m, ns)| <= cfg.retention then {}
    else set k | k in m && k.ns == ns && |Better(m, k)| >= cfg.retention :: k.id
  }

  datatype Failure = InvalidRequest

  function TrimLine(cfg: Config, m: Machine, ns: string, ids: set<string>): Machine {
    if ids == {} then m
    else
      var sequence := m.lastSeq + 1;
      Append(cfg, m.(records := Drop(cfg, m.records, ns, ids), lastSeq := sequence), Deleted(sequence, ns, ids))
  }

  function Trimmed(cfg: Config, m: Machine, ns: string): Machine {
    TrimLine(cfg, m, ns, Surplus(cfg, m.records, ns))
  }

  /** The upsert loop and its WAL line; without a line when the loop met a blank id. */
  function UpsertLine(cfg: Config, m: Machine, ns: string, items: seq<Record>, t1: Time, t2: Time): Machine {
    var s := StoreItems(cfg, DropExpired(cfg, m.records, t1), ns, items, t2);
    if !s.ok then m.(records := s.records)
    else
      var sequence := m.lastSeq + 1;
      Append(cfg, m.(records := s.records, lastSeq := sequence), Upserted(sequence, ns, s.updated))
  }

  predicate HasBlankId(cfg: Config, items: seq<Record>) {
    exists i :: 0 <= i < |items| && cfg.trim(items[i].id) == ""
  }

  /** `Upsert`, reading the clock at `t1` for expiry and at `t2` for the stamps. */
  function Upsert(cfg: Config, m: Machine, rawNs: string, items: seq<Record>, t1: Time, t2: Time,
                  listing: seq<Record>): (Machine, Option<Failure>) {
    var ns := cfg.trim(rawNs);
    if ns == "" || items == [] then (m, Some(InvalidRequest))
    else
      var a := UpsertLine(cfg, m, ns, items, t1, t2);
      if HasBlankId(cfg, items) then (a, Some(InvalidRequest))
      else (MaybeCompact(cfg, WriteIndex(Trimmed(cfg, a, ns)), listing), None)
  }

  function CleanIds(cfg: Config, ids: seq<string>): set<string> {
    set raw | raw in ids && cfg.trim(raw) != "" :: cfg.trim(raw)
  }

  function DeleteLine(cfg: Config, m: Machine, ns: string, ids: set<string>, t: Time): Machine {
    var sequence := m.lastSeq + 1;
    var records := Drop(cfg, DropExpired(cfg, m.records, t), ns, ids);
    Append(cfg, m.(records := records, lastSeq := sequence), Deleted(sequence, ns, ids))
  }

  function Delete(cfg: Config, m: Machine, rawNs: string, ids: seq<string>, t: Time,
                  listing: seq<Record>): (Machine, Option<Failure>) {
    var ns := cfg.trim(rawNs);
    if ns == "" || ids == [] then (m, Some(InvalidRequest))
    else (MaybeCompact(cfg, WriteIndex(DeleteLine(cfg, m, ns, CleanIds(cfg, ids), t)), listing), None)
  }

  function Prepared(m: Machine): Machine {
    if !m.files.snapshot.Absent? then
      var n := Tick(m.(files := m.files.(next := Absent)));
      Tick(n.(files := n.files.(backup := Absent)))
    else if m.files.next.Absent? && m.files.backup.Absent? then m
    else Tick(m.(files := Prepare(m.files)))
  }

  /** The engine while it recovers: memory as far as it can be read, nothing counted yet. */
  function Starting(cfg: Config, p: Point): Machine {
    var r := Reload(cfg, p.files);
    var l := if r.Some? then r.value else Loaded(map[], 0);
    Machine(p.files, l.records, l.lastSeq, 0, 0, p.log, [])
  }

  /**
   * Opening a directory: snapshot files are prepared step by step, the snapshot
   * and the WAL are read, and an index that is absent or does not fit is
   * written. The flag says whether an engine comes out; without one only the
   * directory counts.
   */
  function Open(cfg: Config, p: Point): (Machine, bool) {
    var m := Prepared(Starting(cfg, p));
    if Recover(cfg, p.files).None? then (m, false)
    else if m.files.index == Whole(Loaded(m.records, m.lastSeq)) then (m, true)
    else (WriteIndex(m), true)
  }

  // ----- what a reader sees -----

  function Visible(cfg: Config, m: Records, k: Key, now: Time): Option<Record> {
    if k in m && !Expired(cfg, m[k], now) then Some(m[k]) else None
  }

  /** The unordered answer of a query in namespace `ns`. */
  ghost function Query(cfg: Config, m: Records, ns: string, matches: Record -> bool, now: Time): set<Record> {
    set k | k in m && k.ns == ns && !Expired(cfg, m[k], now) && matches(m[k]) :: m[k]
  }
}

/** Retention keeps the newest records of a namespace, and exactly as many as the bound allows. */
module MemoryRetention {

  import opened Text
  import opened MemoryModel

  lemma OutranksTotal(a: Record, b: Record)
    requires a.id != b.id
    ensures Outranks(a, b) <==> !Outranks(b, a)
  {
    BeforeTotal(a.id, b.id);
  }

  lemma OutranksTrans(a: Record, b: Record, c: Record)
    requires Outranks(a, b) && Outranks(b, c)
    ensures Outranks(a, c)
  {
    if a.updatedAt == b.updatedAt == c.updatedAt { BeforeTrans(a.id, b.id, c.id); }
  }

  /** The records of `m` carry the id they are stored under. */
  ghost predicate OwnIds(m: Records) { forall k :: k in m ==> m[k].id == k.id }

  /** `ks` are distinct keys of one namespace of `m`, best first. */
  ghost predicate Ordered(m: Records, ns: string, ks: seq<Key>) {
    (forall i :: 0 <= i < |ks| ==> ks[i] in m && ks[i].ns == ns) &&
    (forall i, j :: 0 <= i < j < |ks| ==> ks[i] != ks[j] && Outranks(m[ks[i]], m[ks[j]]))
  }

  /** Insertion into an ordered list. */
  function Insert(m: Records, ks: seq<Key>, k: Key): (r: seq<Key>)
    requires k in m && forall i :: 0 <= i < |ks| ==> ks[i] in m
    ensures multiset(r) == multiset(ks) + multiset{k}
  {
    if ks == [] then [k]
    else if Outranks(m[k], m[ks[0]]) then [k] + ks
    else
      assert ks == [ks[0]] + ks[1..];
      [ks[0]] + Insert(m, ks[1..], k)
  }

  lemma ConsOrdered(m: Records, ns: string, k: Key, ks: seq<Key>)
    requires Ordered(m, ns, ks) && k in m && k.ns == ns
    requires forall j :: 0 <= j < |ks| ==> k != ks[j] && Outranks(m[k], m[ks[j]])
    ensures Ordered(m, ns, [k] + ks)
  {
  }

  lemma {:induction false} InsertOrdered(m: Records, ns: string, ks: seq<Key>, k: Key)
    requires OwnIds(m) && Ordered(m, ns, ks) && k in m && k.ns == ns && k !in ks
    ensures Ordered(m, ns, Insert(m, ks, k))
    decreases |ks|
  {
    if ks != [] {
      if Outranks(m[k], m[ks[0]]) {
        forall j | 0 < j < |ks| ensures Outranks(m[k], m[ks[j]]) { OutranksTrans(m[k], m[ks[0]], m[ks[j]]); }
        ConsOrdered(m, ns, k, ks);
      } else {
        var t := Insert(m, ks[1..], k);
        InsertOrdered(m, ns, ks[1..], k);
        OutranksTotal(m[k], m[ks[0]]);
        forall j | 0 <= j < |t| ensures ks[0] != t[j] && Outranks(m[ks[0]], m[t[j]]) {
          assert t[j] in multiset(t);
          if t[j] != k {
            assert t[j] in ks[1..];
            var i :| 0 < i < |ks| && ks[i] == t[j];
          }
        }
        ConsOrdered(m, ns, ks[0], t);
      }
    }
  }

  /** In an ordered listing of the whole namespace, the records that outrank an entry are those before it. */
  lemma PositionIsRank(m: Records, ns: string, ks: seq<Key>, i: nat)
    requires OwnIds(m) && Ordered(m, ns, ks) && i < |ks| && (set k | k in ks) == Space(m, ns)
    ensures |Better(m, ks[i])| == i
  {
    forall k ensures k in Better(m, ks[i]) <==> k in ks[..i] {
      if k in Better(m, ks[i]) {
        assert k in Space(m, ns);
        var j :| 0 <= j < |ks| && ks[j] == k;
        BeforeTotal(m[k].id, m[k].id);
        if j > i { OutranksTotal(m[ks[i]], m[ks[j]]); }
        assert j < i && ks[..i][j] == k;
      }
      if k in ks[..i] { var j :| 0 <= j < i && ks[j] == k; }
    }
    assert Better(m, ks[i]) == set k | k in ks[..i];
    DistinctCount(ks[..i]);
  }

  lemma {:induction false} DistinctCount(ks: seq<Key>)
    requires forall a, b :: 0 <= a < b < |ks| ==> ks[a] != ks[b]
    ensures |set k | k in ks| == |ks|
    decreases |ks|
  {
    if ks != [] {
      var n := |ks| - 1;
      DistinctCount(ks[..n]);
      assert (set k | k in ks) == (set k | k in ks[..n]) + {ks[n]};
    }
  }

  lemma {:induction false} SortKeys(m: Records, ns: string, s: set<Key>) returns (ks: seq<Key>)
    requires OwnIds(m) && s <= Space(m, ns)
    ensures Ordered(m, ns, ks) && (set k | k in ks) == s
    decreases |s|
  {
    if s == {} {
      ks := [];
    } else {
      var k :| k in s;
      var rest := SortKeys(m, ns, s - {k});
      ks := Insert(m, rest, k);
      InsertOrdered(m, ns, rest, k);
      InsertedKeys(m, rest, k);
    }
  }

  lemma InsertedKeys(m: Records, ks: seq<Key>, k: Key)
    requires k in m && forall i :: 0 <= i < |ks| ==> ks[i] in m
    ensures (set j | j in Insert(m, ks, k)) == (set j | j in ks) + {k}
  {
    var r := Insert(m, ks, k);
    forall j ensures j in r <==> j in ks || j == k {
      assert j in r <==> j in multiset(r);
      assert j in ks <==> j in multiset(ks);
    }
  }

  /** The surplus of a namespace is the tail of its ordered listing. */
  lemma SurplusIsTail(cfg: Config, m: Records, ns: string, ks: seq<Key>)
    requires OwnIds(m) && Ordered(m, ns, ks) && (set k | k in ks) == Space(m, ns)
    requires cfg.retention > 0 && |ks| > cfg.retention
    ensures Surplus(cfg, m, ns) == set i | cfg.retention <= i < |ks| :: ks[i].id
  {
    SpaceSize(m, ns, ks);
    forall i | 0 <= i < |ks| ensures |Better(m, ks[i])| == i { PositionIsRank(m, ns, ks, i); }
    forall k | k in m && k.ns == ns ensures exists i :: 0 <= i < |ks| && ks[i] == k { assert k in Space(m, ns); }
  }

  lemma SpaceSize(m: Records, ns: string, ks: seq<Key>)
    requires Ordered(m, ns, ks) && (set k | k in ks) == Space(m, ns)
    ensures |Space(m, ns)| == |ks|
  {
    DistinctCount(ks);
  }

  /**
   * Dropping the surplus leaves exactly min(bound, size) records in the
   * namespace, and every record kept there outranks every record dropped.
   */
  lemma RetentionKeepsNewest(cfg: Config, m: Records, ns: string)
    requires OwnIds(m) && cfg.retention > 0
    ensures var kept := set k | k in Space(m, ns) && k.id !in Surplus(cfg, m, ns);
      |kept| == (if |Space(m, ns)| <= cfg.retention then |Space(m, ns)| else cfg.retention) &&
      forall a, b :: a in kept && b in Space(m, ns) - kept ==> Outranks(m[a], m[b]) && m[a].updatedAt >= m[b].updatedAt
  {
    var kept := set k | k in Space(m, ns) && k.id !in Surplus(cfg, m, ns);
    if |Space(m, ns)| <= cfg.retention {
      assert kept == Space(m, ns);
    } else {
      var ks := SortKeys(m, ns, Space(m, ns));
      SpaceSize(m, ns, ks);
      SurplusIsTail(cfg, m, ns, ks);
      KeptIsHead(cfg, m, ns, ks, kept);
    }
  }

  lemma KeptIsHead(cfg: Config, m: Records, ns: string, ks: seq<Key>, kept: set<Key>)
    requires Ordered(m, ns, ks) && (set k | k in ks) == Space(m, ns)
    requires 0 < cfg.retention < |ks|
    requires Surplus(cfg, m, ns) == set i | cfg.retention <= i < |ks| :: ks[i].id
    requires kept == set k | k in Space(m, ns) && k.id !in Surplus(cfg, m, ns)
    ensures |kept| == cfg.retention
    ensures forall a, b :: a in kept && b in Space(m, ns) - kept ==> Outranks(m[a], m[b])
  {
    var n := cfg.retention;
    forall k | k in Space(m, ns) ensures k in ks { assert k in set j | j in ks; }
    forall k ensures k in kept <==> k in ks[..n] {
      if k in Space(m, ns) {
        var i :| 0 <= i < |ks| && ks[i] == k;
        if i < n { assert ks[..n][i] == k; }
        assert k.id in Surplus(cfg, m, ns) <==> i >= n by {
          if k.id in Surplus(cfg, m, ns) {
            var j :| n <= j < |ks| && ks[j].id == k.id;
            assert ks[j] == k;
          }
        }
      }
      if k in ks[..n] { assert k in set j | j in ks; }
    }
    assert kept == set k | k in ks[..n];
    DistinctCount(ks[..n]);
    forall a, b | a in kept && b in Space(m, ns) - kept ensures Outranks(m[a], m[b]) {
      var i :| 0 <= i < n && ks[i] == a;
      var j :| 0 <= j < |ks| && ks[j] == b;
      assert b !in ks[..n];
    }
  }
}

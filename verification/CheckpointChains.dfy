/**
 * Committed results link a checkpoint to its successor. Over every run these
 * links form disjoint finite chains along which the run's identity is constant.
 */
module CheckpointChains {

  import opened CheckpointModel
  import opened CheckpointSafety
  import opened CheckpointRuns

  ghost predicate Linked(d: Records, a: string, b: string) {
    HasSuccessor(d, a) && SuccessorID(d, a) == b
  }

  ghost predicate IsChain(d: Records, c: seq<string>) {
    |c| > 0 && c[0] in d && forall i :: 0 < i < |c| ==> Linked(d, c[i - 1], c[i])
  }

  /** A rank below `n` for every checkpoint that grows along every link. */
  ghost predicate Ranked(d: Records, rank: map<string, nat>, n: nat) {
    (forall k :: k in d ==> k in rank && rank[k] < n) &&
    (forall k :: HasSuccessor(d, k) ==> SuccessorID(d, k) in d && rank[k] < rank[SuccessorID(d, k)])
  }

  lemma RankStep(d: Records, d': Records, rank: map<string, nat>, n: nat) returns (rank': map<string, nat>)
    requires LinksOk(d) && LinksOk(d') && StepMoves(d, d') && Ranked(d, rank, n)
    ensures Ranked(d', rank', n + 1)
  {
    rank' := map k | k in d' :: if k in d then rank[k] else n;
    forall k | HasSuccessor(d', k) ensures SuccessorID(d', k) in d' && rank'[k] < rank'[SuccessorID(d', k)] {
      assert LinkOk(d', k);
      if HasSuccessor(d, k) { assert LinkOk(d, k); }
    }
  }

  lemma {:induction false} RunRanked(env: Env, ws: seq<World>, ops: seq<Op>, i: nat) returns (rank: map<string, nat>)
    requires IsRun(env, ws, ops) && i < |ws|
    ensures Ranked(Durable(ws[i]), rank, i)
  {
    if i == 0 {
      rank := map[];
    } else {
      rank := RunRanked(env, ws, ops, i - 1);
      RunInv(env, ws, ops, i - 1);
      assert StepAt(env, ws, ops, i - 1);
      StepKeepsInv(env, ws[i - 1], ops[i - 1]);
      rank := RankStep(Durable(ws[i - 1]), Durable(ws[i]), rank, i - 1);
    }
  }

  lemma ChainStored(d: Records, c: seq<string>, i: nat)
    requires LinksOk(d) && IsChain(d, c) && i < |c|
    ensures c[i] in d
  {
    if i > 0 { assert Linked(d, c[i - 1], c[i]); assert LinkOk(d, c[i - 1]); }
  }

  lemma {:induction false} ChainAscends(d: Records, c: seq<string>, rank: map<string, nat>, n: nat, i: nat, j: nat)
    requires LinksOk(d) && IsChain(d, c) && Ranked(d, rank, n) && i < j < |c|
    ensures c[i] in rank && c[j] in rank && rank[c[i]] < rank[c[j]]
    decreases j
  {
    ChainStored(d, c, i);
    ChainStored(d, c, j);
    assert Linked(d, c[j - 1], c[j]);
    if i < j - 1 { ChainAscends(d, c, rank, n, i, j - 1); }
  }

  lemma {:induction false} DistinctFits(c: seq<string>, s: set<string>)
    requires forall i :: 0 <= i < |c| ==> c[i] in s
    requires forall i, j :: 0 <= i < j < |c| ==> c[i] != c[j]
    ensures |c| <= |s|
    decreases |c|
  {
    if |c| > 0 {
      var n := |c| - 1;
      DistinctFits(c[..n], s - {c[n]});
    }
  }

  /** No chain of any reachable store revisits a checkpoint, so every chain is bounded by the capacity. */
  lemma ChainsAreFinite(env: Env, ws: seq<World>, ops: seq<Op>, i: nat, c: seq<string>)
    requires IsRun(env, ws, ops) && i < |ws| && IsChain(Durable(ws[i]), c)
    ensures forall a, b :: 0 <= a < b < |c| ==> c[a] != c[b]
    ensures |c| <= |Durable(ws[i])| <= env.capacity
  {
    var d := Durable(ws[i]);
    RunInv(env, ws, ops, i);
    var rank := RunRanked(env, ws, ops, i);
    forall a, b | 0 <= a < b < |c| ensures c[a] != c[b] { ChainAscends(d, c, rank, i, a, b); }
    forall a | 0 <= a < |c| ensures c[a] in d.Keys { ChainStored(d, c, a); }
    DistinctFits(c, d.Keys);
  }

  /** Two chains that meet anywhere agree link by link in both directions as far as both reach. */
  lemma {:induction false} ChainsNeverMerge(d: Records, c: seq<string>, e: seq<string>, i: nat, j: nat, n: nat)
    requires LinksOk(d) && IsChain(d, c) && IsChain(d, e) && i < |c| && j < |e| && c[i] == e[j]
    ensures i + n < |c| && j + n < |e| ==> c[i + n] == e[j + n]
    ensures n <= i && n <= j ==> c[i - n] == e[j - n]
    decreases n
  {
    if n > 0 {
      ChainsNeverMerge(d, c, e, i, j, n - 1);
      if i + n < |c| && j + n < |e| {
        assert Linked(d, c[i + n - 1], c[i + n]) && Linked(d, e[j + n - 1], e[j + n]);
      }
      if n <= i && n <= j {
        assert Linked(d, c[i - n], c[i - n + 1]) && Linked(d, e[j - n], e[j - n + 1]);
        assert LinkOk(d, c[i - n]) && LinkOk(d, e[j - n]);
      }
    }
  }

  lemma ChainsAreDisjoint(env: Env, ws: seq<World>, ops: seq<Op>, l: nat, c: seq<string>, e: seq<string>, i: nat,
                          j: nat, n: nat)
    requires IsRun(env, ws, ops) && l < |ws| && IsChain(Durable(ws[l]), c) && IsChain(Durable(ws[l]), e)
    requires i < |c| && j < |e| && c[i] == e[j]
    ensures i + n < |c| && j + n < |e| ==> c[i + n] == e[j + n]
    ensures n <= i && n <= j ==> c[i - n] == e[j - n]
  {
    RunInv(env, ws, ops, l);
    ChainsNeverMerge(Durable(ws[l]), c, e, i, j, n);
  }

  /** Every link names its predecessor and attempt, and the lineage is constant along a chain. */
  lemma {:induction false} ChainKeepsLineage(env: Env, ws: seq<World>, ops: seq<Op>, l: nat, c: seq<string>, i: nat)
    requires IsRun(env, ws, ops) && l < |ws| && IsChain(Durable(ws[l]), c) && i < |c|
    ensures var d := Durable(ws[l]);
      c[i] in d && d[c[i]].checkpoint.ref.lineage == d[c[0]].checkpoint.ref.lineage &&
      (i > 0 ==> c[i - 1] in d && d[c[i - 1]].claim.Some? &&
                 d[c[i]].checkpoint.ref.predecessor == c[i - 1] &&
                 d[c[i]].checkpoint.ref.resumeAttempt == d[c[i - 1]].claim.value.attemptID)
  {
    if i > 0 {
      ChainKeepsLineage(env, ws, ops, l, c, i - 1);
      RunInv(env, ws, ops, l);
      assert Linked(Durable(ws[l]), c[i - 1], c[i]);
      assert LinkOk(Durable(ws[l]), c[i - 1]);
    }
  }

  /** A link, once committed, is permanent. */
  lemma LinksArePermanent(env: Env, ws: seq<World>, ops: seq<Op>, i: nat, j: nat, a: string, b: string)
    requires IsRun(env, ws, ops) && i <= j < |ws| && Linked(Durable(ws[i]), a, b)
    ensures Linked(Durable(ws[j]), a, b) && Successor(Durable(ws[j]), a) == Successor(Durable(ws[i]), a)
  {
    RunInv(env, ws, ops, i);
    RunEvolves(env, ws, ops, i, j);
    assert RecordInv(env, a, Durable(ws[i])[a]);
    FinalStays(Durable(ws[i])[a], Durable(ws[j])[a]);
  }
}

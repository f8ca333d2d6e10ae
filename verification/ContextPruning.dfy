/**
 * Pruning of context messages under token pressure. Messages are removed one at
 * a time, cheapest first, while evidence is counted by a running counter and
 * the window of recent messages slides with every removal.
 */
module ContextPruning {

  datatype Message = Message(role: string, content: string)

  datatype Spill = Spill(originRef: string, content: string)

  /**
   * Configuration and run state. Text matching, role tests, digests, access
   * counts and the token estimate are arbitrary pure functions; `contains` is
   * the case-insensitive search for a trimmed keyword, which every text passes
   * for a blank one.
   */
  datatype Rules = Rules(
    targetPercent: int, goldilocksMaxPercent: int, maxContextTokens: int,
    keywordPriority: seq<string>, criticalKeywords: seq<string>, immutableKeywords: seq<string>,
    evidenceKeywords: seq<string>, recentWindow: int, minRetainedEvidence: int, allowOldestToolResult: bool,
    tokens: seq<Message> -> int, isSystem: Message -> bool, isToolResult: Message -> bool,
    blank: string -> bool, contains: (string, string) -> bool, frequency: string -> int, digest: Message -> string)

  /** Integer division that truncates toward zero. */
  function Quotient(a: int, b: int): int
    requires b > 0
  {
    if a >= 0 then a / b else -(-a / b)
  }

  function TargetTokens(c: Rules): int {
    Quotient(c.maxContextTokens * (if c.targetPercent <= 0 then c.goldilocksMaxPercent else c.targetPercent), 100)
  }

  predicate Mentions(c: Rules, content: string, keyword: string) { c.blank(keyword) || c.contains(content, keyword) }

  predicate Protected(c: Rules, content: string) {
    (exists i :: 0 <= i < |c.criticalKeywords| && Mentions(c, content, c.criticalKeywords[i])) ||
    (exists i :: 0 <= i < |c.immutableKeywords| && Mentions(c, content, c.immutableKeywords[i]))
  }

  predicate InWindow(c: Rules, i: int, total: int) {
    c.recentWindow > 0 && i >= (if total > c.recentWindow then total - c.recentWindow else 0)
  }

  /** `shouldRetainEvidence`: by keyword, or by standing among the most recent messages. */
  predicate IsEvidence(c: Rules, i: int, total: int, content: string) {
    (exists k :: 0 <= k < |c.evidenceKeywords| && !c.blank(c.evidenceKeywords[k]) &&
                 c.contains(content, c.evidenceKeywords[k])) ||
    InWindow(c, i, total)
  }

  predicate Counted(c: Rules, ms: seq<Message>, i: int)
    requires 0 <= i < |ms|
  {
    !c.isSystem(ms[i]) && IsEvidence(c, i, |ms|, ms[i].content)
  }

  /** The evidence messages among the first `k`. */
  function EvidenceTo(c: Rules, ms: seq<Message>, k: nat): nat
    requires k <= |ms|
  {
    if k == 0 then 0 else EvidenceTo(c, ms, k - 1) + (if Counted(c, ms, k - 1) then 1 else 0)
  }

  function Evidence(c: Rules, ms: seq<Message>): nat { EvidenceTo(c, ms, |ms|) }

  /** `i` is the first tool result. */
  predicate IsOldestToolResult(c: Rules, ms: seq<Message>, i: int)
    requires 0 <= i < |ms|
  {
    c.isToolResult(ms[i]) && forall j :: 0 <= j < i ==> !c.isToolResult(ms[j])
  }

  predicate Eligible(c: Rules, ms: seq<Message>, i: int, retained: int)
    requires 0 <= i < |ms|
  {
    !c.isSystem(ms[i]) && !Protected(c, ms[i].content) &&
    !(IsEvidence(c, i, |ms|, ms[i].content) && retained <= c.minRetainedEvidence) &&
    (c.allowOldestToolResult || !IsOldestToolResult(c, ms, i))
  }

  function KeywordHits(c: Rules, content: string, k: nat): nat
    requires k <= |c.keywordPriority|
  {
    if k == 0 then 0
    else KeywordHits(c, content, k - 1) + (if Mentions(c, content, c.keywordPriority[k - 1]) then 1 else 0)
  }

  function Score(c: Rules, ms: seq<Message>, i: int): int
    requires 0 <= i < |ms|
  {
    i + 200 * KeywordHits(c, ms[i].content, |c.keywordPriority|) +
    (if IsEvidence(c, i, |ms|, ms[i].content) then 300 else 0) + c.frequency(ms[i].content)
  }

  /** The order of candidates: lower score first, then lower index. */
  predicate Preferred(c: Rules, ms: seq<Message>, i: int, j: int)
    requires 0 <= i < |ms| && 0 <= j < |ms|
  {
    Score(c, ms, i) < Score(c, ms, j) || (Score(c, ms, i) == Score(c, ms, j) && i <= j)
  }

  /** The preferred eligible message among the first `k`, or -1. */
  function BestTo(c: Rules, ms: seq<Message>, retained: int, k: nat): (b: int)
    requires k <= |ms|
    ensures -1 <= b < k
  {
    if k == 0 then -1
    else
      var b := BestTo(c, ms, retained, k - 1);
      if Eligible(c, ms, k - 1, retained) && (b == -1 || Score(c, ms, k - 1) < Score(c, ms, b)) then k - 1 else b
  }

  function Without(ms: seq<Message>, i: nat): seq<Message>
    requires i < |ms|
  {
    ms[..i] + ms[i + 1..]
  }

  /** The counter after removing message `i`. */
  function Uncount(c: Rules, ms: seq<Message>, i: nat, retained: int): int
    requires i < |ms|
  {
    if IsEvidence(c, i, |ms|, ms[i].content) && retained > 0 then retained - 1 else retained
  }

  /** Removing the preferred message over and over, from a given counter. */
  function Remaining(c: Rules, ms: seq<Message>, retained: int): (seq<Message>, int)
    decreases |ms|
  {
    var b := BestTo(c, ms, retained, |ms|);
    if c.tokens(ms) <= TargetTokens(c) || b == -1 then (ms, retained)
    else Remaining(c, Without(ms, b), Uncount(c, ms, b, retained))
  }

  // ----- the loops -----

  method ShouldRetainEvidence(c: Rules, i: int, total: int, content: string) returns (r: bool)
    ensures r == IsEvidence(c, i, total, content)
  {
    for k := 0 to |c.evidenceKeywords|
      invariant forall l :: 0 <= l < k ==> c.blank(c.evidenceKeywords[l]) || !c.contains(content, c.evidenceKeywords[l])
    {
      if !c.blank(c.evidenceKeywords[k]) && c.contains(content, c.evidenceKeywords[k]) { return true; }
    }
    r := c.recentWindow > 0 && i >= (if total - c.recentWindow > 0 then total - c.recentWindow else 0);
  }

  method RetainedEvidenceCount(c: Rules, ms: seq<Message>) returns (count: int)
    ensures count == Evidence(c, ms)
  {
    count := 0;
    for i := 0 to |ms|
      invariant count == EvidenceTo(c, ms, i)
    {
      if !c.isSystem(ms[i]) {
        var evident := ShouldRetainEvidence(c, i, |ms|, ms[i].content);
        if evident { count := count + 1; }
      }
    }
  }

  method IsProtected(c: Rules, content: string) returns (r: bool)
    ensures r == Protected(c, content)
  {
    for i := 0 to |c.criticalKeywords|
      invariant forall j :: 0 <= j < i ==> !Mentions(c, content, c.criticalKeywords[j])
    {
      if Mentions(c, content, c.criticalKeywords[i]) { return true; }
    }
    for i := 0 to |c.immutableKeywords|
      invariant forall j :: 0 <= j < i ==> !Mentions(c, content, c.immutableKeywords[j])
    {
      if Mentions(c, content, c.immutableKeywords[i]) { return true; }
    }
    r := false;
  }

  method OldestToolResult(c: Rules, ms: seq<Message>) returns (oldest: int)
    ensures oldest == -1 <==> forall j :: 0 <= j < |ms| ==> !c.isToolResult(ms[j])
    ensures oldest != -1 ==> 0 <= oldest < |ms| && IsOldestToolResult(c, ms, oldest)
  {
    for i := 0 to |ms|
      invariant forall j :: 0 <= j < i ==> !c.isToolResult(ms[j])
    {
      if c.isToolResult(ms[i]) { return i; }
    }
    oldest := -1;
  }

  method ScoreOf(c: Rules, ms: seq<Message>, i: nat, evident: bool) returns (score: int)
    requires i < |ms| && evident == IsEvidence(c, i, |ms|, ms[i].content)
    ensures score == Score(c, ms, i)
  {
    score := i;
    for k := 0 to |c.keywordPriority|
      invariant score == i + 200 * KeywordHits(c, ms[i].content, k)
    {
      if Mentions(c, ms[i].content, c.keywordPriority[k]) { score := score + 200; }
    }
    if evident { score := score + 300; }
    score := score + c.frequency(ms[i].content);
  }

  /** The eligible message that the order prefers to every other one, or -1 when none is eligible. */
  method SelectPruneCandidate(c: Rules, ms: seq<Message>, retained: int) returns (idx: int)
    ensures idx == -1 <==> forall j :: 0 <= j < |ms| ==> !Eligible(c, ms, j, retained)
    ensures idx != -1 ==> 0 <= idx < |ms| && Eligible(c, ms, idx, retained)
    ensures idx != -1 ==> forall j :: 0 <= j < |ms| && Eligible(c, ms, j, retained) ==> Preferred(c, ms, idx, j)
    ensures idx == BestTo(c, ms, retained, |ms|)
  {
    idx := -1;
    var best := 0;
    var oldest := OldestToolResult(c, ms);
    for i := 0 to |ms|
      invariant idx == BestTo(c, ms, retained, i)
      invariant idx == -1 ==> forall j :: 0 <= j < i ==> !Eligible(c, ms, j, retained)
      invariant idx != -1 ==> 0 <= idx < i && Eligible(c, ms, idx, retained) && best == Score(c, ms, idx)
      invariant idx != -1 ==> forall j :: 0 <= j < i && Eligible(c, ms, j, retained) ==> Preferred(c, ms, idx, j)
    {
      if c.isSystem(ms[i]) { continue; }
      var shielded := IsProtected(c, ms[i].content);
      if shielded { continue; }
      var evident := ShouldRetainEvidence(c, i, |ms|, ms[i].content);
      if evident && retained <= c.minRetainedEvidence { continue; }
      assert IsOldestToolResult(c, ms, i) <==> i == oldest;
      if !c.allowOldestToolResult && i == oldest { continue; }
      var score := ScoreOf(c, ms, i, evident);
      if idx == -1 || score < best { idx, best := i, score; }
    }
  }

  // ----- what a removal does to the evidence -----

  /** A message left of the removed one stays evidence, and so does one right of it at its new index. */
  lemma StaysCounted(c: Rules, ms: seq<Message>, idx: nat, i: nat)
    requires idx < |ms| && i < |ms| && i != idx && Counted(c, ms, i)
    ensures var j := if i < idx then i else i - 1; Counted(c, Without(ms, idx), j)
  {
  }

  lemma {:induction false} RemovalKeepsEvidence(c: Rules, ms: seq<Message>, idx: nat, k: nat)
    requires idx < |ms| && k <= |ms|
    ensures if k <= idx then EvidenceTo(c, Without(ms, idx), k) >= EvidenceTo(c, ms, k)
            else EvidenceTo(c, Without(ms, idx), k - 1) >= EvidenceTo(c, ms, k) - (if Counted(c, ms, idx) then 1 else 0)
    decreases k
  {
    if k > 0 {
      RemovalKeepsEvidence(c, ms, idx, k - 1);
      if k - 1 != idx && Counted(c, ms, k - 1) { StaysCounted(c, ms, idx, k - 1); }
    }
  }

  // ----- pruning -----

  predicate Increasing(s: seq<nat>) { forall i, j :: 0 <= i < j < |s| ==> s[i] < s[j] }

  ghost predicate PicksOut(ms: seq<Message>, kept: seq<nat>, part: seq<Message>) {
    |part| == |kept| && forall i :: 0 <= i < |kept| ==> kept[i] < |ms| && part[i] == ms[kept[i]]
  }

  ghost predicate Spills(c: Rules, ms: seq<Message>, gone: seq<nat>, removed: seq<Spill>) {
    |removed| == |gone| &&
    forall i :: 0 <= i < |gone| ==> gone[i] < |ms| && removed[i] == Spill(c.digest(ms[gone[i]]), ms[gone[i]].content)
  }

  /** Every index is either kept or gone, not both, and gone once. */
  ghost predicate Splits(n: nat, kept: seq<nat>, gone: seq<nat>) {
    |kept| + |gone| == n && (forall i: nat :: i < n ==> (i in kept) != (i in gone)) &&
    (forall i, j :: 0 <= i < j < |gone| ==> gone[i] != gone[j])
  }

  /** Only messages that are neither system messages nor protected are gone. */
  ghost predicate OnlyOrdinary(c: Rules, ms: seq<Message>, gone: seq<nat>) {
    forall k :: 0 <= k < |gone| ==> gone[k] < |ms| && !c.isSystem(ms[gone[k]]) && !Protected(c, ms[gone[k]].content)
  }

  /** What is left is a subsequence of the original, and its complement is what was removed. */
  ghost predicate Pruned(c: Rules, ms: seq<Message>, working: seq<Message>, removed: seq<Spill>, kept: seq<nat>,
                         gone: seq<nat>) {
    Increasing(kept) && PicksOut(ms, kept, working) && Spills(c, ms, gone, removed) &&
    Splits(|ms|, kept, gone) && OnlyOrdinary(c, ms, gone)
  }

  function Floor(c: Rules, ms: seq<Message>): int {
    if Evidence(c, ms) < c.minRetainedEvidence then Evidence(c, ms) else c.minRetainedEvidence
  }

  /**
   * The counter is a lower bound of the evidence that is really left, and
   * removal stops before the counter falls below its floor.
   */
  lemma {:induction false} RemainingKeepsEvidence(c: Rules, ms: seq<Message>, retained: int)
    requires 0 <= retained <= Evidence(c, ms)
    ensures var (rest, left) := Remaining(c, ms, retained);
      Evidence(c, rest) >= left >= (if retained < c.minRetainedEvidence then retained else c.minRetainedEvidence)
    decreases |ms|
  {
    var b := BestTo(c, ms, retained, |ms|);
    if !(c.tokens(ms) <= TargetTokens(c) || b == -1) {
      BestIsEligible(c, ms, retained, |ms|);
      RemovalKeepsEvidence(c, ms, b, |ms|);
      RemainingKeepsEvidence(c, Without(ms, b), Uncount(c, ms, b, retained));
    }
  }

  lemma {:induction false} BestIsEligible(c: Rules, ms: seq<Message>, retained: int, k: nat)
    requires k <= |ms|
    ensures var b := BestTo(c, ms, retained, k);
      if b == -1 then forall j :: 0 <= j < k ==> !Eligible(c, ms, j, retained) else Eligible(c, ms, b, retained)
  {
    if k > 0 { BestIsEligible(c, ms, retained, k - 1); }
  }

  lemma RemainingStep(c: Rules, ms: seq<Message>, retained: int)
    requires c.tokens(ms) > TargetTokens(c) && BestTo(c, ms, retained, |ms|) != -1
    ensures var b := BestTo(c, ms, retained, |ms|);
      Remaining(c, ms, retained) == Remaining(c, Without(ms, b), Uncount(c, ms, b, retained))
  {
  }

  /** Pruning stops only on target or when no message is eligible any more. */
  lemma {:induction false} RemainingIsFinal(c: Rules, ms: seq<Message>, retained: int)
    ensures var (rest, left) := Remaining(c, ms, retained);
      c.tokens(rest) <= TargetTokens(c) || forall j :: 0 <= j < |rest| ==> !Eligible(c, rest, j, left)
    decreases |ms|
  {
    var b := BestTo(c, ms, retained, |ms|);
    BestIsEligible(c, ms, retained, |ms|);
    if !(c.tokens(ms) <= TargetTokens(c) || b == -1) {
      RemainingIsFinal(c, Without(ms, b), Uncount(c, ms, b, retained));
    }
  }

  /**
   * Removes messages until the estimate is on target or nothing is eligible.
   * `kept` and `gone` are the original indices of what stays and what leaves.
   */
  method PruneMessages(c: Rules, messages: seq<Message>)
    returns (working: seq<Message>, removed: seq<Spill>, retained: int, ghost kept: seq<nat>, ghost gone: seq<nat>)
    ensures Pruned(c, messages, working, removed, kept, gone)
    ensures messages != [] ==> (working, retained) == Remaining(c, messages, Evidence(c, messages))
    ensures messages != [] ==>
      c.tokens(working) <= TargetTokens(c) || forall j :: 0 <= j < |working| ==> !Eligible(c, working, j, retained)
    ensures messages != [] ==> Evidence(c, working) >= retained >= Floor(c, messages)
  {
    working, removed, retained := messages, [], 0;
    kept, gone := Indices(|messages|), [];
    if |messages| == 0 { return; }
    retained := RetainedEvidenceCount(c, working);
    RemainingKeepsEvidence(c, messages, retained);
    RemainingIsFinal(c, messages, retained);
    ghost var goal := Remaining(c, messages, retained);
    while c.tokens(working) > TargetTokens(c)
      invariant Pruned(c, messages, working, removed, kept, gone)
      invariant Remaining(c, working, retained) == goal
      decreases |working|
    {
      var idx := SelectPruneCandidate(c, working, retained);
      if idx < 0 { break; }
      PrunesOne(c, messages, working, removed, kept, gone, idx);
      RemainingStep(c, working, retained);
      removed := removed + [Spill(c.digest(working[idx]), working[idx].content)];
      gone := gone + [kept[idx]];
      kept := kept[..idx] + kept[idx + 1..];
      working, retained := RemoveAt(c, working, idx, retained);
    }
  }

  /** Takes one message out, and counts it off when it was evidence. */
  method RemoveAt(c: Rules, ms: seq<Message>, idx: nat, retained: int) returns (rest: seq<Message>, left: int)
    requires idx < |ms|
    ensures rest == Without(ms, idx) && left == Uncount(c, ms, idx, retained)
  {
    var evident := ShouldRetainEvidence(c, idx, |ms|, ms[idx].content);
    left := retained;
    if evident && left > 0 { left := left - 1; }
    rest := ms[..idx] + ms[idx + 1..];
  }

  function Indices(n: nat): (s: seq<nat>)
    ensures |s| == n && forall i :: 0 <= i < n ==> s[i] == i
    ensures forall i: nat :: i in s <==> i < n
  {
    if n == 0 then [] else Indices(n - 1) + [n - 1]
  }

  lemma PrunesOne(c: Rules, ms: seq<Message>, working: seq<Message>, removed: seq<Spill>, kept: seq<nat>,
                  gone: seq<nat>, idx: nat)
    requires Pruned(c, ms, working, removed, kept, gone) && idx < |working|
    requires !c.isSystem(working[idx]) && !Protected(c, working[idx].content)
    ensures Pruned(c, ms, Without(working, idx), removed + [Spill(c.digest(working[idx]), working[idx].content)],
                   kept[..idx] + kept[idx + 1..], gone + [kept[idx]])
  {
    SplitsMore(|ms|, kept, gone, idx);
    PicksLess(ms, kept, working, idx);
  }

  lemma SplitsMore(n: nat, kept: seq<nat>, gone: seq<nat>, idx: nat)
    requires Splits(n, kept, gone) && Increasing(kept) && idx < |kept| && kept[idx] < n
    ensures Splits(n, kept[..idx] + kept[idx + 1..], gone + [kept[idx]])
    ensures Increasing(kept[..idx] + kept[idx + 1..])
  {
    var k := kept[..idx] + kept[idx + 1..];
    forall i: nat | i < n ensures (i in k) != (i in gone + [kept[idx]]) {
      if i in kept && i != kept[idx] {
        var j :| 0 <= j < |kept| && kept[j] == i;
        assert k[if j < idx then j else j - 1] == i;
      }
      if i in k { assert i in kept; }
    }
    assert kept[idx] in kept;
  }

  lemma PicksLess(ms: seq<Message>, kept: seq<nat>, part: seq<Message>, idx: nat)
    requires PicksOut(ms, kept, part) && idx < |part|
    ensures PicksOut(ms, kept[..idx] + kept[idx + 1..], part[..idx] + part[idx + 1..])
  {
  }

  // ----- the cold store's quota -----

  function Total(sizes: seq<nat>): nat { if sizes == [] then 0 else sizes[0] + Total(sizes[1..]) }

  /** Drops the oldest records until the rest fits: what stays is the longest suffix within the quota. */
  method ApplyColdStoreQuota(sizes: seq<nat>, maxBytes: int) returns (start: nat)
    ensures start <= |sizes|
    ensures maxBytes > 0 ==> Total(sizes[start..]) <= maxBytes
    ensures maxBytes > 0 && start > 0 ==> Total(sizes[start - 1..]) > maxBytes
    ensures maxBytes <= 0 ==> start == |sizes|
  {
    start := 0;
    if |sizes| == 0 { return; }
    if maxBytes <= 0 { return |sizes|; }
    var total := SumSizes(sizes);
    assert sizes[0..] == sizes;
    while total > maxBytes && start < |sizes|
      invariant start <= |sizes| && total == Total(sizes[start..])
      invariant start > 0 ==> Total(sizes[start - 1..]) > maxBytes
    {
      assert sizes[start..][1..] == sizes[start + 1..];
      total := total - sizes[start];
      start := start + 1;
    }
  }

  method SumSizes(sizes: seq<nat>) returns (total: nat)
    ensures total == Total(sizes)
  {
    total := 0;
    for i := 0 to |sizes|
      invariant total + Total(sizes[i..]) == Total(sizes)
    {
      assert sizes[i..][1..] == sizes[i + 1..];
      total := total + sizes[i];
    }
  }
}

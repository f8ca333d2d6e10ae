/**
 * Version precedence and version ranges of adapter manifests: the comparison
 * loop, the precedence rules of section 11 of Semantic Versioning 2.0.0 as an
 * independent relation, and the order laws that make every range an interval.
 */
module SemverOrder {

  import opened Text

  /** A dot-separated pre-release identifier: digits only, or text. */
  datatype Token = Numeric(value: nat) | Textual(text: string)

  datatype Version = Version(major: nat, minor: nat, patch: nat, pre: seq<Token>)

  datatype Op = Greater | GreaterOrEqual | Less | LessOrEqual | Equal | Unknown

  datatype Comparator = Comparator(op: Op, version: Version)

  // ----- comparison -----

  function CompareInts(a: int, b: int): int { if a > b then 1 else if a < b then -1 else 0 }

  function CompareTokens(a: Token, b: Token): int {
    if a.Numeric? && b.Numeric? then CompareInts(a.value, b.value)
    else if a.Numeric? then -1
    else if b.Numeric? then 1
    else if a.text == b.text then 0
    else if Before(b.text, a.text) then 1 else -1
  }

  function ComparePre(a: seq<Token>, b: seq<Token>): int {
    if a == [] && b == [] then 0
    else if a == [] then -1
    else if b == [] then 1
    else if CompareTokens(a[0], b[0]) != 0 then CompareTokens(a[0], b[0])
    else ComparePre(a[1..], b[1..])
  }

  function Compare(a: Version, b: Version): int {
    if a.major != b.major then CompareInts(a.major, b.major)
    else if a.minor != b.minor then CompareInts(a.minor, b.minor)
    else if a.patch != b.patch then CompareInts(a.patch, b.patch)
    else if a.pre == [] || b.pre == [] then CompareInts(if a.pre == [] then 1 else 0, if b.pre == [] then 1 else 0)
    else ComparePre(a.pre, b.pre)
  }

  /** `compareSemver`: an index loop over both pre-release lists. */
  method CompareSemver(a: Version, b: Version) returns (r: int)
    ensures r == Compare(a, b)
  {
    if a.major != b.major { return if a.major > b.major then 1 else -1; }
    if a.minor != b.minor { return if a.minor > b.minor then 1 else -1; }
    if a.patch != b.patch { return if a.patch > b.patch then 1 else -1; }
    if |a.pre| == 0 && |b.pre| == 0 { return 0; }
    if |a.pre| == 0 { return 1; }
    if |b.pre| == 0 { return -1; }
    var max := if |b.pre| > |a.pre| then |b.pre| else |a.pre|;
    var i := 0;
    while i < max
      invariant 0 <= i <= max && i <= |a.pre| && i <= |b.pre|
      invariant ComparePre(a.pre[i..], b.pre[i..]) == ComparePre(a.pre, b.pre)
    {
      if i >= |a.pre| { return -1; }
      if i >= |b.pre| { return 1; }
      assert a.pre[i..][1..] == a.pre[i + 1..] && b.pre[i..][1..] == b.pre[i + 1..];
      var x, y := a.pre[i], b.pre[i];
      if x.Numeric? && y.Numeric? {
        if x.value != y.value { return if x.value > y.value then 1 else -1; }
      } else if x.Numeric? != y.Numeric? {
        return if x.Numeric? then -1 else 1;
      } else if x.text != y.text {
        return if Before(y.text, x.text) then 1 else -1;
      }
      i := i + 1;
    }
    r := 0;
  }

  // ----- precedence as the specification words it -----

  predicate TokenPrecedes(a: Token, b: Token) {
    (a.Numeric? && b.Numeric? && a.value < b.value) || (a.Numeric? && b.Textual?) ||
    (a.Textual? && b.Textual? && Before(a.text, b.text))
  }

  /** The identifiers agree before position `i`. */
  predicate AgreeTo(a: seq<Token>, b: seq<Token>, i: nat) {
    i <= |a| && i <= |b| && forall j :: 0 <= j < i ==> a[j] == b[j]
  }

  /** At the first difference `i`, `a` has the lower identifier or has run out of identifiers. */
  predicate LowerAt(a: seq<Token>, b: seq<Token>, i: nat) {
    AgreeTo(a, b, i) && i < |b| && (i == |a| || TokenPrecedes(a[i], b[i]))
  }

  ghost predicate PrePrecedes(a: seq<Token>, b: seq<Token>) { exists i: nat :: LowerAt(a, b, i) }

  /** `a` has lower precedence than `b`. */
  ghost predicate Precedes(a: Version, b: Version) {
    a.major < b.major ||
    (a.major == b.major && a.minor < b.minor) ||
    (a.major == b.major && a.minor == b.minor && a.patch < b.patch) ||
    (a.major == b.major && a.minor == b.minor && a.patch == b.patch &&
     a.pre != [] && (b.pre == [] || PrePrecedes(a.pre, b.pre)))
  }

  lemma TokensAgree(a: Token, b: Token)
    ensures CompareTokens(a, b) < 0 <==> TokenPrecedes(a, b)
    ensures CompareTokens(a, b) == 0 <==> a == b
    ensures CompareTokens(b, a) == -CompareTokens(a, b)
  {
    if a.Textual? && b.Textual? { BeforeTotal(a.text, b.text); }
  }

  lemma {:induction false} PreAgrees(a: seq<Token>, b: seq<Token>)
    ensures ComparePre(a, b) < 0 <==> PrePrecedes(a, b)
    ensures ComparePre(a, b) == 0 <==> a == b
    ensures ComparePre(b, a) == -ComparePre(a, b)
    decreases |a| + |b|
  {
    if a != [] && b != [] {
      TokensAgree(a[0], b[0]);
      if a[0] == b[0] {
        PreAgrees(a[1..], b[1..]);
        assert a == [a[0]] + a[1..] && b == [b[0]] + b[1..];
        HeadsEqual(a, b);
      } else {
        if TokenPrecedes(a[0], b[0]) { assert LowerAt(a, b, 0); }
        assert forall i: nat :: LowerAt(a, b, i) ==> i == 0;
      }
    } else if b != [] {
      assert LowerAt(a, b, 0);
    }
  }

  /** Equal heads do not decide: precedence is that of the tails. */
  lemma HeadsEqual(a: seq<Token>, b: seq<Token>)
    requires a != [] && b != [] && a[0] == b[0]
    ensures PrePrecedes(a, b) <==> PrePrecedes(a[1..], b[1..])
  {
    if PrePrecedes(a, b) {
      var i: nat :| LowerAt(a, b, i);
      TokensAgree(a[0], b[0]);
      assert i > 0 && LowerAt(a[1..], b[1..], i - 1);
    }
    if PrePrecedes(a[1..], b[1..]) {
      var i: nat :| LowerAt(a[1..], b[1..], i);
      forall j | 0 <= j < i + 1 ensures a[j] == b[j] { if j > 0 { assert a[1..][j - 1] == b[1..][j - 1]; } }
      assert LowerAt(a, b, i + 1);
    }
  }

  /** The comparison computes exactly the precedence of the specification, in both directions. */
  lemma CompareIsPrecedence(a: Version, b: Version)
    ensures Compare(a, b) < 0 <==> Precedes(a, b)
    ensures Compare(a, b) > 0 <==> Precedes(b, a)
    ensures Compare(a, b) == 0 <==> a == b
    ensures Compare(b, a) == -Compare(a, b) && -1 <= Compare(a, b) <= 1
  {
    PreAgrees(a.pre, b.pre);
    PreAgrees(b.pre, a.pre);
    PreRange(a.pre, b.pre);
  }

  lemma {:induction false} PreRange(a: seq<Token>, b: seq<Token>)
    ensures -1 <= ComparePre(a, b) <= 1
    decreases |a|
  {
    if a != [] && b != [] { PreRange(a[1..], b[1..]); }
  }

  // ----- order laws -----

  lemma TokenTrans(a: Token, b: Token, c: Token)
    requires CompareTokens(a, b) <= 0 && CompareTokens(b, c) <= 0
    ensures CompareTokens(a, c) <= 0
    ensures CompareTokens(a, c) == 0 ==> CompareTokens(a, b) == 0 && CompareTokens(b, c) == 0
  {
    TokensAgree(a, b);
    TokensAgree(b, c);
    TokensAgree(a, c);
    if a.Textual? && b.Textual? && c.Textual? && a != b && b != c {
      BeforeTrans(a.text, b.text, c.text);
      BeforeTotal(a.text, a.text);
    }
  }

  lemma {:induction false} PreTrans(a: seq<Token>, b: seq<Token>, c: seq<Token>)
    requires ComparePre(a, b) <= 0 && ComparePre(b, c) <= 0
    ensures ComparePre(a, c) <= 0
    decreases |a|
  {
    if a != [] && b != [] && c != [] {
      TokenTrans(a[0], b[0], c[0]);
      if CompareTokens(a[0], c[0]) == 0 { PreTrans(a[1..], b[1..], c[1..]); }
    }
  }

  /** Precedence is transitive for pre-release lists of any lengths. */
  lemma CompareTransitive(a: Version, b: Version, c: Version)
    requires Compare(a, b) <= 0 && Compare(b, c) <= 0
    ensures Compare(a, c) <= 0
    ensures Compare(a, b) < 0 || Compare(b, c) < 0 ==> Compare(a, c) < 0
  {
    if a.pre != [] && b.pre != [] && c.pre != [] && ComparePre(a.pre, b.pre) <= 0 && ComparePre(b.pre, c.pre) <= 0 {
      PreTrans(a.pre, b.pre, c.pre);
    }
    CompareIsPrecedence(a, b);
    CompareIsPrecedence(b, c);
    CompareIsPrecedence(a, c);
  }

  // ----- ranges -----

  predicate Matches(c: Comparator, v: Version) {
    match c.op
    case Greater => Compare(v, c.version) > 0
    case GreaterOrEqual => Compare(v, c.version) >= 0
    case Less => Compare(v, c.version) < 0
    case LessOrEqual => Compare(v, c.version) <= 0
    case Equal => Compare(v, c.version) == 0
    case Unknown => false
  }

  ghost predicate InRange(cs: seq<Comparator>, v: Version) { forall i :: 0 <= i < |cs| ==> Matches(cs[i], v) }

  method EvaluateRange(cs: seq<Comparator>, v: Version) returns (ok: bool)
    ensures ok == InRange(cs, v)
  {
    for i := 0 to |cs|
      invariant forall j :: 0 <= j < i ==> Matches(cs[j], v)
    {
      var diff := CompareSemver(v, cs[i].version);
      var hit := match cs[i].op
        case Greater => diff > 0
        case GreaterOrEqual => diff >= 0
        case Less => diff < 0
        case LessOrEqual => diff <= 0
        case Equal => diff == 0
        case Unknown => false;
      if !hit { return false; }
    }
    ok := true;
  }

  lemma ComparatorConvex(c: Comparator, x: Version, y: Version, z: Version)
    requires Matches(c, x) && Matches(c, z) && Compare(x, y) <= 0 && Compare(y, z) <= 0
    ensures Matches(c, y)
  {
    CompareIsPrecedence(c.version, x);
    CompareIsPrecedence(c.version, y);
    CompareIsPrecedence(c.version, z);
    if c.op.Greater? || c.op.GreaterOrEqual? || c.op.Equal? { CompareTransitive(c.version, x, y); }
    if c.op.Less? || c.op.LessOrEqual? || c.op.Equal? { CompareTransitive(y, z, c.version); }
  }

  /** Every range is an interval: between two accepted versions all versions are accepted. */
  lemma RangesAreConvex(cs: seq<Comparator>, x: Version, y: Version, z: Version)
    requires InRange(cs, x) && InRange(cs, z) && Compare(x, y) <= 0 && Compare(y, z) <= 0
    ensures InRange(cs, y)
  {
    forall i | 0 <= i < |cs| ensures Matches(cs[i], y) { ComparatorConvex(cs[i], x, y, z); }
  }
}

/** Scope canonicalization (backend/internal/consent/grants.go and the catalog
    check of resolution.go). The characters of a scope token stand for the bytes
    of the Go string, so the order below is the one sort.Strings uses. */
module Scopes {
  import opened Outcomes

  const MAX_SCOPE_COUNT := 32
  const MAX_SCOPE_TOKEN_LEN := 128

  datatype ScopeError = TooManyScopes | EmptyToken | WhitespaceInToken | TokenTooLong

  /** Bytewise lexicographic order. */
  predicate Less(a: string, b: string) {
    b != [] && (a == [] || a[0] < b[0] || (a[0] == b[0] && Less(a[1..], b[1..])))
  }

  ghost predicate StrictlyIncreasing(s: seq<string>) {
    forall i, j :: 0 <= i < j < |s| ==> Less(s[i], s[j])
  }

  ghost function Elements(s: seq<string>): set<string> {
    set x | x in s
  }

  predicate IsWhitespace(c: char) {
    c == ' ' || c == '\t' || c == '\n' || c == '\r' || c == 11 as char || c == 12 as char
  }

  predicate HasWhitespace(token: string) {
    exists i :: 0 <= i < |token| && IsWhitespace(token[i])
  }

  /** The check of one token, in the order the source applies its tests. */
  function TokenError(token: string): Option<ScopeError> {
    if token == "" then Some(EmptyToken)
    else if HasWhitespace(token) then Some(WhitespaceInToken)
    else if |token| > MAX_SCOPE_TOKEN_LEN then Some(TokenTooLong)
    else None
  }

  predicate ValidToken(token: string) {
    TokenError(token).None?
  }

  /** A token is one to 128 characters without any of the six white ones. */
  lemma ValidTokens(token: string)
    ensures ValidToken(token) <==>
      && 1 <= |token| <= 128
      && forall i :: 0 <= i < |token| ==> token[i] !in [' ', '\t', '\n', '\r', '\U{b}', '\U{c}']
  {
    assert 11 as char == '\U{b}' && 12 as char == '\U{c}';
  }

  predicate AllValid(s: seq<string>) {
    forall i :: 0 <= i < |s| ==> ValidToken(s[i])
  }

  function Insert(sorted: seq<string>, x: string): seq<string> {
    if sorted == [] then [x]
    else if Less(x, sorted[0]) then [x] + sorted
    else [sorted[0]] + Insert(sorted[1..], x)
  }

  /** What sort.Strings returns: the tokens in bytewise order. */
  function SortTokens(s: seq<string>): seq<string> {
    if s == [] then [] else Insert(SortTokens(s[..|s| - 1]), s[|s| - 1])
  }

  function Dedup(s: seq<string>): seq<string> {
    if s == [] then []
    else
      var front := Dedup(s[..|s| - 1]);
      if s[|s| - 1] in front then front else front + [s[|s| - 1]]
  }

  /** The error of the first token that has one. */
  function FirstError(s: seq<string>): Option<ScopeError> {
    if s == [] then None
    else if !ValidToken(s[0]) then TokenError(s[0])
    else FirstError(s[1..])
  }

  function Normalize(scopes: seq<string>): Result<seq<string>, ScopeError> {
    if |scopes| > MAX_SCOPE_COUNT then Failure(TooManyScopes)
    else if FirstError(scopes).Some? then Failure(FirstError(scopes).value)
    else Success(SortTokens(Dedup(scopes)))
  }

  /** The canonical form, stated without the algorithm. */
  ghost predicate Canonical(s: seq<string>) {
    |s| <= MAX_SCOPE_COUNT && AllValid(s) && StrictlyIncreasing(s)
  }

  // ---- The order ----

  lemma {:induction false} LessIrreflexive(a: string)
    ensures !Less(a, a)
  {
    if a != [] { LessIrreflexive(a[1..]); }
  }

  lemma {:induction false} LessTransitive(a: string, b: string, c: string)
    requires Less(a, b) && Less(b, c)
    ensures Less(a, c)
  {
    if a != [] && a[0] == b[0] && b[0] == c[0] { LessTransitive(a[1..], b[1..], c[1..]); }
  }

  lemma {:induction false} LessAsymmetric(a: string, b: string)
    ensures !(Less(a, b) && Less(b, a))
  {
    if a != [] && b != [] { LessAsymmetric(a[1..], b[1..]); }
  }

  lemma {:induction false} LessTotal(a: string, b: string)
    ensures a == b || Less(a, b) || Less(b, a)
  {
    if a != [] && b != [] && a[0] == b[0] {
      LessTotal(a[1..], b[1..]);
      assert a == [a[0]] + a[1..] && b == [b[0]] + b[1..];
    }
  }

  // ---- Sorting and duplicate removal ----

  lemma {:induction false} InsertSpec(s: seq<string>, x: string)
    requires StrictlyIncreasing(s) && x !in s
    ensures StrictlyIncreasing(Insert(s, x))
    ensures Elements(Insert(s, x)) == Elements(s) + {x}
    ensures |Insert(s, x)| == |s| + 1
  {
    if s == [] {
    } else if Less(x, s[0]) {
      forall j | 0 < j < |s| ensures Less(x, s[j]) { LessTransitive(x, s[0], s[j]); }
    } else {
      var t := Insert(s[1..], x);
      InsertSpec(s[1..], x);
      LessTotal(x, s[0]);
      forall j | 0 <= j < |t| ensures Less(s[0], t[j]) {
        assert t[j] in Elements(t);
        if t[j] != x {
          var k :| 0 <= k < |s[1..]| && s[1..][k] == t[j];
          assert s[k + 1] == t[j];
        }
      }
      assert s == [s[0]] + s[1..];
      assert Elements(s) == {s[0]} + Elements(s[1..]);
      assert Elements([s[0]] + t) == {s[0]} + Elements(t);
    }
  }

  ghost predicate Distinct(s: seq<string>) {
    forall i, j :: 0 <= i < j < |s| ==> s[i] != s[j]
  }

  lemma {:induction false} SortSpec(s: seq<string>)
    requires Distinct(s)
    ensures StrictlyIncreasing(SortTokens(s)) && Elements(SortTokens(s)) == Elements(s)
    ensures |SortTokens(s)| == |s|
  {
    if s != [] {
      var front := s[..|s| - 1];
      SortSpec(front);
      assert s[|s| - 1] !in front;
      assert s[|s| - 1] !in Elements(SortTokens(front));
      InsertSpec(SortTokens(front), s[|s| - 1]);
      assert s == front + [s[|s| - 1]];
    }
  }

  lemma {:induction false} DedupSpec(s: seq<string>)
    ensures Distinct(Dedup(s)) && Elements(Dedup(s)) == Elements(s) && |Dedup(s)| <= |s|
  {
    if s != [] {
      DedupSpec(s[..|s| - 1]);
      assert s == s[..|s| - 1] + [s[|s| - 1]];
      assert Elements(s) == Elements(s[..|s| - 1]) + {s[|s| - 1]};
      assert s[|s| - 1] in Dedup(s[..|s| - 1]) <==> s[|s| - 1] in Elements(Dedup(s[..|s| - 1]));
    }
  }

  lemma {:induction false} FirstErrorSpec(s: seq<string>)
    ensures FirstError(s).None? <==> AllValid(s)
  {
    if s != [] {
      FirstErrorSpec(s[1..]);
      assert s == [s[0]] + s[1..];
    }
  }

  /** Two strictly increasing lists of the same tokens are the same list. */
  lemma {:induction false} IncreasingUnique(a: seq<string>, b: seq<string>)
    requires StrictlyIncreasing(a) && StrictlyIncreasing(b) && Elements(a) == Elements(b)
    ensures a == b
  {
    assert b != [] ==> b[0] in Elements(b);
    if a != [] {
      assert a[0] in Elements(b);
      assert b != [];
      HeadIsLeast(a, b);
      HeadIsLeast(b, a);
      LessAsymmetric(a[0], b[0]);
      TailElements(a);
      TailElements(b);
      IncreasingUnique(a[1..], b[1..]);
      assert a == [a[0]] + a[1..] && b == [b[0]] + b[1..];
    }
  }

  lemma HeadIsLeast(a: seq<string>, b: seq<string>)
    requires a != [] && b != [] && StrictlyIncreasing(a) && Elements(a) == Elements(b)
    ensures a[0] == b[0] || Less(a[0], b[0])
  {
    assert b[0] in Elements(a);
    var k :| 0 <= k < |a| && a[k] == b[0];
  }

  lemma TailElements(a: seq<string>)
    requires a != [] && StrictlyIncreasing(a)
    ensures StrictlyIncreasing(a[1..]) && Elements(a[1..]) == Elements(a) - {a[0]}
  {
    LessIrreflexive(a[0]);
    forall x | x in Elements(a) - {a[0]} ensures x in a[1..] {
      var k :| 0 <= k < |a| && a[k] == x;
      assert a[1..][k - 1] == x;
    }
    forall x | x in a[1..] ensures x in a && x != a[0] {
      var k :| 0 <= k < |a[1..]| && a[1..][k] == x;
      assert a[k + 1] == x && Less(a[0], a[k + 1]);
    }
  }

  // ---- Main results ----

  /** A scope list is accepted exactly when it has at most 32 tokens, all valid;
      the result is then the strictly increasing list of its set of tokens. */
  lemma NormalizeSpec(scopes: seq<string>)
    ensures Normalize(scopes).Success? <==> |scopes| <= MAX_SCOPE_COUNT && AllValid(scopes)
    ensures Normalize(scopes).Success? ==>
      Canonical(Normalize(scopes).value) && Elements(Normalize(scopes).value) == Elements(scopes)
  {
    FirstErrorSpec(scopes);
    if Normalize(scopes).Success? {
      DedupSpec(scopes);
      SortSpec(Dedup(scopes));
      var r := Normalize(scopes).value;
      forall i | 0 <= i < |r| ensures ValidToken(r[i]) {
        assert r[i] in Elements(scopes);
      }
    }
  }

  /** Order and repetition of the input never matter: equal sets, equal results. */
  lemma NormalizeDependsOnSet(a: seq<string>, b: seq<string>)
    requires |a| <= MAX_SCOPE_COUNT && |b| <= MAX_SCOPE_COUNT && Elements(a) == Elements(b)
    ensures Normalize(a).Success? <==> Normalize(b).Success?
    ensures Normalize(a).Success? ==> Normalize(a) == Normalize(b)
  {
    NormalizeSpec(a);
    NormalizeSpec(b);
    forall x, y: seq<string> | Elements(x) == Elements(y) && AllValid(x) ensures AllValid(y) {
      forall i | 0 <= i < |y| ensures ValidToken(y[i]) {
        assert y[i] in Elements(x);
      }
    }
    if Normalize(a).Success? {
      IncreasingUnique(Normalize(a).value, Normalize(b).value);
    }
  }

  /** The canonical lists are exactly the fixed points, and every result is one. */
  lemma CanonicalIsFixedPoint(s: seq<string>)
    ensures Canonical(s) <==> Normalize(s) == Success(s)
    ensures Normalize(s).Success? ==> Normalize(Normalize(s).value) == Normalize(s)
  {
    NormalizeSpec(s);
    if Canonical(s) {
      IncreasingUnique(Normalize(s).value, s);
    }
    if Normalize(s).Success? {
      var r := Normalize(s).value;
      NormalizeSpec(r);
      IncreasingUnique(Normalize(r).value, r);
    }
  }

  // ---- The source's loops ----

  /** NormalizeScopes: one pass over the input with a seen set, then the sort. */
  method NormalizeScopes(scopes: seq<string>) returns (r: Result<seq<string>, ScopeError>)
    ensures r == Normalize(scopes)
    ensures r.Success? <==> |scopes| <= MAX_SCOPE_COUNT && AllValid(scopes)
    ensures r.Success? ==> Canonical(r.value) && Elements(r.value) == Elements(scopes)
  {
    NormalizeSpec(scopes);
    if |scopes| > MAX_SCOPE_COUNT { return Failure(TooManyScopes); }
    var seen: set<string>, out := {}, [];
    assert scopes[0..] == scopes;
    for i := 0 to |scopes|
      invariant out == Dedup(scopes[..i])
      invariant forall x :: x in seen <==> x in out
      invariant FirstError(scopes) == FirstError(scopes[i..])
    {
      var scope := scopes[i];
      assert scopes[i..][0] == scope && scopes[i..][1..] == scopes[i + 1..];
      if TokenError(scope).Some? { return Failure(TokenError(scope).value); }
      assert scopes[..i + 1][..i] == scopes[..i];
      if scope !in seen {
        seen := seen + {scope};
        out := out + [scope];
      }
    }
    assert scopes[..|scopes|] == scopes;
    r := Success(SortTokens(out));
  }

  /** ScopesAreCanonical: normalize again and compare position by position. */
  method ScopesAreCanonical(scopes: seq<string>) returns (canonical: bool)
    ensures canonical <==> Canonical(scopes)
  {
    var normalized := NormalizeScopes(scopes);
    assert Canonical(scopes) <==> normalized == Success(scopes) by { CanonicalIsFixedPoint(scopes); }
    if normalized.Failure? { return false; }
    var out := normalized.value;
    if |out| != |scopes| { return false; }
    for i := 0 to |scopes|
      invariant forall k :: 0 <= k < i ==> out[k] == scopes[k]
    {
      if out[i] != scopes[i] { return false; }
    }
    assert out == scopes;
    return true;
  }

  /** disallowedScopes: the requested tokens missing from the catalog, without
      repetition and sorted. */
  method DisallowedScopes(requested: seq<string>, allowed: seq<string>) returns (out: seq<string>)
    ensures StrictlyIncreasing(out)
    ensures Elements(out) == Elements(requested) - Elements(allowed)
  {
    var catalog: set<string> := {};
    for i := 0 to |allowed|
      invariant catalog == Elements(allowed[..i])
    {
      catalog := catalog + {allowed[i]};
      assert allowed[..i + 1] == allowed[..i] + [allowed[i]];
    }
    assert allowed[..|allowed|] == allowed;
    var seen: set<string> := {};
    var kept: seq<string> := [];
    for i := 0 to |requested|
      invariant Distinct(kept) && Elements(kept) == seen
      invariant seen == Elements(requested[..i]) - catalog
    {
      var scope := requested[i];
      assert requested[..i + 1] == requested[..i] + [scope];
      if scope !in catalog && scope !in seen {
        assert forall k :: 0 <= k < |kept| ==> kept[k] in Elements(kept);
        seen := seen + {scope};
        kept := kept + [scope];
      }
    }
    assert requested[..|requested|] == requested;
    SortSpec(kept);
    out := SortTokens(kept);
  }
}

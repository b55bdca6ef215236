/**
 * The inline markup `[__DC__("QUERY") --> "CLAIM"]` of the RIG flow (`_DC_PATTERN` in rig.py):
 * a scanner that finds the spans the way `re.findall` does, and the grouping of the claims
 * by query into an insertion-ordered multimap.
 */
module Markup {
  import opened Wrappers
  import opened Text
  import opened OrderedDict

  /** The span opens with `[__DC__("` ... */
  const Open: string := "[__DC__(\""
  /** ... the quoted query is followed by `") --> "` ... */
  const Arrow: string := "\") --> \""

  predicate NoQuote(s: string)
  {
    forall k :: 0 <= k < |s| ==> s[k] != '"'
  }

  /** What the pattern accepts: a non-empty query and a possibly empty claim, neither holding `"`. */
  predicate WellFormed(query: string, claim: string)
  {
    query != [] && NoQuote(query) && NoQuote(claim)
  }

  /** A span without its optional closing bracket. */
  function Unclosed(query: string, claim: string): string
  {
    Open + query + Arrow + claim + "\""
  }

  /** The text `_evaluate` searches for to rewrite one claim: always with the closing `]`. */
  function Target(query: string, claim: string): string
  {
    Unclosed(query, claim) + "]"
  }

  /** One match of the pattern: its two groups and where it lies in the text. */
  datatype Span = Span(query: string, claim: string, start: nat, end: nat, closed: bool)

  /** The bracket that may close a span at `e` is there. */
  predicate ClosedAt(t: string, e: nat)
  {
    e < |t| && t[e] == ']'
  }

  /** Where the run of non-`"` characters starting at `j` ends: at the next `"`, or at the end of the text. */
  function QuoteEnd(t: string, j: nat): (k: nat)
    requires j <= |t|
    ensures j <= k <= |t|
    ensures forall x :: j <= x < k ==> t[x] != '"'
    ensures k < |t| ==> t[k] == '"'
    decreases |t| - j
  {
    if j == |t| || t[j] == '"' then j else QuoteEnd(t, j + 1)
  }

  /** The pattern tried at position `i`, as the regular expression engine does it. */
  function MatchAt(t: string, i: nat): (r: Option<Span>)
    requires i <= |t|
    ensures r.Some? ==> r.value.start == i && i < r.value.end <= |t|
  {
    if !OccursAt(t, Open, i) then None
    else
      var j := i + |Open|;
      var k := QuoteEnd(t, j);
      if k == j || !OccursAt(t, Arrow, k) then None
      else
        var m := k + |Arrow|;
        var l := QuoteEnd(t, m);
        if l == |t| then None
        else
          var closed := ClosedAt(t, l + 1);
          Some(Span(t[j..k], t[m..l], i, if closed then l + 2 else l + 1, closed))
  }

  lemma SliceCat(t: string, a: nat, b: nat, c: nat)
    requires a <= b <= c <= |t|
    ensures t[a..c] == t[a..b] + t[b..c]
  {
    assert forall x :: 0 <= x < c - a ==> t[a..c][x] == (t[a..b] + t[b..c])[x];
  }

  lemma SliceSplit(t: string, a: nat, b: nat, c: nat, d: nat, e: nat, f: nat)
    requires a <= b <= c <= d <= e <= f <= |t|
    ensures t[a..f] == t[a..b] + t[b..c] + t[c..d] + t[d..e] + t[e..f]
  {
    SliceCat(t, a, e, f);
    SliceCat(t, a, d, e);
    SliceCat(t, a, c, d);
    SliceCat(t, a, b, c);
  }

  /** Five slices one after another spell their concatenation. */
  lemma Glue(t: string, i: nat, j: nat, k: nat, m: nat, l: nat, n: nat, a: string, b: string, c: string, d: string, e: string)
    requires i <= j <= k <= m <= l <= n <= |t|
    requires t[i..j] == a && t[j..k] == b && t[k..m] == c && t[m..l] == d && t[l..n] == e
    ensures OccursAt(t, a + b + c + d + e, i)
  {
    SliceSplit(t, i, j, k, m, l, n);
  }

  /** The run `QuoteEnd` skips holds no `"`. */
  lemma QuoteRun(t: string, j: nat)
    requires j <= |t|
    ensures NoQuote(t[j..QuoteEnd(t, j)])
  {
    var k := QuoteEnd(t, j);
    forall x | 0 <= x < k - j
      ensures t[j..k][x] != '"'
    {
      assert t[j..k][x] == t[j + x];
    }
  }

  lemma MatchAtWellFormed(t: string, i: nat)
    requires i <= |t| && MatchAt(t, i).Some?
    ensures WellFormed(MatchAt(t, i).value.query, MatchAt(t, i).value.claim)
  {
    QuoteRun(t, i + |Open|);
    QuoteRun(t, QuoteEnd(t, i + |Open|) + |Arrow|);
  }

  lemma MatchAtStands(t: string, i: nat)
    requires i <= |t| && MatchAt(t, i).Some?
    ensures var s := MatchAt(t, i).value;
      OccursAt(t, Unclosed(s.query, s.claim), i)
  {
    var j := i + |Open|;
    var k := QuoteEnd(t, j);
    var m := k + |Arrow|;
    var l := QuoteEnd(t, m);
    var s := MatchAt(t, i).value;
    assert OccursAt(t, Open, i) && OccursAt(t, Arrow, k) && l < |t|;
    assert s.query == t[j..k] && s.claim == t[m..l];
    assert t[l..l + 1] == "\"" by {
      assert t[l..l + 1][0] == t[l];
    }
    Glue(t, i, j, k, m, l, l + 1, Open, s.query, Arrow, s.claim, "\"");
  }

  lemma MatchAtEnd(t: string, i: nat)
    requires i <= |t| && MatchAt(t, i).Some?
    ensures var s := MatchAt(t, i).value;
      && s.closed == ClosedAt(t, i + |Unclosed(s.query, s.claim)|)
      && s.end == i + |Unclosed(s.query, s.claim)| + (if s.closed then 1 else 0)
  {
  }

  /** A match is a well-formed span standing in the text, closed exactly when `]` follows it. */
  lemma MatchAtSound(t: string, i: nat)
    requires i <= |t| && MatchAt(t, i).Some?
    ensures var s := MatchAt(t, i).value;
      && WellFormed(s.query, s.claim)
      && OccursAt(t, Unclosed(s.query, s.claim), i)
      && s.closed == ClosedAt(t, i + |Unclosed(s.query, s.claim)|)
      && s.end == i + |Unclosed(s.query, s.claim)| + (if s.closed then 1 else 0)
  {
    MatchAtWellFormed(t, i);
    MatchAtStands(t, i);
    MatchAtEnd(t, i);
  }

  /** The run from `j` ends at `j + n` when its `n` characters hold no `"` and a `"` follows. */
  lemma QuoteEndAt(t: string, j: nat, n: nat)
    requires j + n < |t| && t[j + n] == '"'
    requires forall x :: j <= x < j + n ==> t[x] != '"'
    ensures QuoteEnd(t, j) == j + n
  {
  }

  /** Five strings standing one after another at `i`, each at its own offset. */
  lemma Pieces(t: string, i: nat, a: string, b: string, c: string, d: string, e: string)
    requires OccursAt(t, a + b + c + d + e, i)
    ensures var j := i + |a|;
      var k := j + |b|;
      var m := k + |c|;
      var l := m + |d|;
      && l + |e| <= |t|
      && t[i..j] == a && t[j..k] == b && t[k..m] == c && t[m..l] == d && t[l..l + |e|] == e
  {
    var u := a + b + c + d + e;
    var n := i + |u|;
    var j := i + |a|;
    var k := j + |b|;
    var m := k + |c|;
    var l := m + |d|;
    assert forall x :: 0 <= x < |u| ==> t[i + x] == u[x] by {
      forall x | 0 <= x < |u| ensures t[i + x] == u[x] {
        assert t[i..n][x] == t[i + x];
      }
    }
    assert t[i..j] == a by {
      forall x | 0 <= x < |a| ensures t[i..j][x] == a[x] { assert u[x] == a[x]; }
    }
    assert t[j..k] == b by {
      forall x | 0 <= x < |b| ensures t[j..k][x] == b[x] { assert u[|a| + x] == b[x]; }
    }
    assert t[k..m] == c by {
      forall x | 0 <= x < |c| ensures t[k..m][x] == c[x] { assert u[|a| + |b| + x] == c[x]; }
    }
    assert t[m..l] == d by {
      forall x | 0 <= x < |d| ensures t[m..l][x] == d[x] { assert u[|a| + |b| + |c| + x] == d[x]; }
    }
    assert t[l..l + |e|] == e by {
      forall x | 0 <= x < |e| ensures t[l..l + |e|][x] == e[x] { assert u[|a| + |b| + |c| + |d| + x] == e[x]; }
    }
  }

  /** A span standing at `i` in the text, cut into its pieces. */
  lemma SpanPieces(t: string, i: nat, query: string, claim: string)
    requires OccursAt(t, Unclosed(query, claim), i)
    ensures var j := i + |Open|;
      var k := j + |query|;
      var m := k + |Arrow|;
      var l := m + |claim|;
      && l < |t|
      && OccursAt(t, Open, i) && t[j..k] == query && OccursAt(t, Arrow, k) && t[m..l] == claim && t[l] == '"'
  {
    Pieces(t, i, Open, query, Arrow, claim, "\"");
    var l := i + |Open| + |query| + |Arrow| + |claim|;
    assert t[l..l + 1][0] == t[l];
  }

  /** Conversely, every well-formed span in the text is matched at its position, with the same groups. */
  lemma MatchAtComplete(t: string, i: nat, query: string, claim: string)
    requires WellFormed(query, claim) && OccursAt(t, Unclosed(query, claim), i)
    ensures MatchAt(t, i).Some?
    ensures MatchAt(t, i).value.query == query && MatchAt(t, i).value.claim == claim
  {
    SpanPieces(t, i, query, claim);
    var j := i + |Open|;
    var k := j + |query|;
    var m := k + |Arrow|;
    var l := m + |claim|;
    forall x | j <= x < k ensures t[x] != '"' { assert t[x] == t[j..k][x - j]; }
    QuoteEndAt(t, j, |query|);
    forall x | m <= x < l ensures t[x] != '"' { assert t[x] == t[m..l][x - m]; }
    QuoteEndAt(t, m, |claim|);
  }

  /** Rendering a claim as markup and scanning it back gives the same query and claim. */
  lemma TargetRoundTrip(query: string, claim: string, rest: string)
    requires WellFormed(query, claim)
    ensures var t := Target(query, claim) + rest;
      MatchAt(t, 0) == Some(Span(query, claim, 0, |Target(query, claim)|, true))
  {
    var t := Target(query, claim) + rest;
    var u := Unclosed(query, claim);
    assert t[..|u|] == u;
    MatchAtComplete(t, 0, query, claim);
    assert t[|u|] == ']';
  }

  /** A span matched without its `]` is not an occurrence of the text `_evaluate` replaces for it. */
  lemma UnclosedSpanNotTarget(t: string, i: nat)
    requires i <= |t| && MatchAt(t, i).Some? && !MatchAt(t, i).value.closed
    ensures var s := MatchAt(t, i).value; !OccursAt(t, Target(s.query, s.claim), i)
  {
    MatchAtSound(t, i);
  }

  /** No match of the pattern starts anywhere in `[a, b)`. */
  predicate NoMatchIn(t: string, a: nat, b: nat)
    requires a <= b <= |t|
    decreases b - a
  {
    a == b || (MatchAt(t, a).None? && NoMatchIn(t, a + 1, b))
  }

  lemma {:induction false} NoMatchInAt(t: string, a: nat, b: nat, p: nat)
    requires a <= p < b <= |t| && NoMatchIn(t, a, b)
    ensures MatchAt(t, p).None?
    decreases p - a
  {
    if a < p {
      NoMatchInAt(t, a + 1, b, p);
    }
  }

  /** Scanning from `i`, the matches `r` leave no match behind in any gap before, between or after them. */
  predicate Gapless(t: string, i: nat, r: seq<Span>)
    requires i <= |t|
    decreases |r|
  {
    if r == [] then NoMatchIn(t, i, |t|)
    else i <= r[0].start <= r[0].end <= |t| && NoMatchIn(t, i, r[0].start) && Gapless(t, r[0].end, r[1..])
  }

  /**
   * `re.findall(_DC_PATTERN, t[i..])`: left to right, each match resuming where the last one
   * ended, every position in the gaps tried and rejected.
   */
  function FindAllFrom(t: string, i: nat): (r: seq<Span>)
    requires i <= |t|
    ensures forall k :: 0 <= k < |r| ==> i <= r[k].start < r[k].end <= |t| && MatchAt(t, r[k].start) == Some(r[k])
    ensures forall k :: 0 < k < |r| ==> r[k - 1].end <= r[k].start
    decreases |t| - i
  {
    if i == |t| then []
    else
      match MatchAt(t, i)
      case Some(s) => [s] + FindAllFrom(t, s.end)
      case None => FindAllFrom(t, i + 1)
  }

  /** Between the matches `findall` reports, no position starts a match: none is skipped. */
  lemma {:induction false} FindAllFromGapless(t: string, i: nat)
    requires i <= |t|
    ensures Gapless(t, i, FindAllFrom(t, i))
    decreases |t| - i
  {
    var r := FindAllFrom(t, i);
    if i < |t| {
      match MatchAt(t, i)
      case Some(s) =>
        FindAllFromGapless(t, s.end);
        assert r[1..] == FindAllFrom(t, s.end);
      case None =>
        FindAllFromGapless(t, i + 1);
    }
  }

  function FindAll(t: string): seq<Span>
  {
    FindAllFrom(t, 0)
  }

  /** The queries of the spans, in text order. */
  function Queries(spans: seq<Span>): (qs: seq<string>)
    ensures |qs| == |spans| && forall k :: 0 <= k < |spans| ==> qs[k] == spans[k].query
  {
    seq(|spans|, k requires 0 <= k < |spans| => spans[k].query)
  }

  /** The distinct queries in order of first appearance. */
  function FirstSeen(qs: seq<string>): seq<string>
  {
    if qs == [] then []
    else
      var f := FirstSeen(qs[..|qs| - 1]);
      if qs[|qs| - 1] in f then f else f + [qs[|qs| - 1]]
  }

  /** The claims made for `query`, in text order. */
  function ClaimsOf(spans: seq<Span>, query: string): seq<string>
  {
    if spans == [] then []
    else ClaimsOf(spans[..|spans| - 1], query)
         + (if spans[|spans| - 1].query == query then [spans[|spans| - 1].claim] else [])
  }

  /** The claim list a query has in `d` so far (`setdefault(q, [])`). */
  function ClaimsSoFar(d: Dict<seq<string>>, query: string): seq<string>
  {
    if query in d.vals then d.vals[query] else []
  }

  /** `q2llmval.setdefault(query, []).append(claim)` for each span in turn. */
  function Grouped(spans: seq<Span>): (d: Dict<seq<string>>)
    ensures Valid(d)
  {
    if spans == [] then Empty()
    else
      var g := Grouped(spans[..|spans| - 1]);
      var s := spans[|spans| - 1];
      Put(g, s.query, ClaimsSoFar(g, s.query) + [s.claim])
  }

  /**
   * Grouping keeps every claim: the keys are the distinct queries in order of first
   * appearance, and each query lists all its claims, duplicates included, in text order.
   */
  lemma {:induction false} GroupedContents(spans: seq<Span>)
    ensures Grouped(spans).keys == FirstSeen(Queries(spans))
    ensures forall q :: q in Grouped(spans).vals ==> Grouped(spans).vals[q] == ClaimsOf(spans, q)
    ensures forall q :: q !in Grouped(spans).vals ==> ClaimsOf(spans, q) == []
  {
    if spans != [] {
      var pre := spans[..|spans| - 1];
      GroupedContents(pre);
      assert Queries(spans)[..|spans| - 1] == Queries(pre);
    }
  }

  /** The number of claims listed under `keys`. */
  function ClaimCount(keys: seq<string>, vals: map<string, seq<string>>): nat
    requires forall k :: k in keys ==> k in vals
  {
    if keys == [] then 0
    else ClaimCount(keys[..|keys| - 1], vals) + |vals[keys[|keys| - 1]]|
  }

  lemma {:induction false} ClaimCountFrame(keys: seq<string>, a: map<string, seq<string>>, b: map<string, seq<string>>)
    requires forall k :: k in keys ==> k in a && k in b && |a[k]| == |b[k]|
    ensures ClaimCount(keys, a) == ClaimCount(keys, b)
  {
    if keys != [] {
      ClaimCountFrame(keys[..|keys| - 1], a, b);
    }
  }

  lemma {:induction false} ClaimCountGrow(keys: seq<string>, vals: map<string, seq<string>>, q: string, claim: string)
    requires forall k :: k in keys ==> k in vals
    requires forall i, j :: 0 <= i < j < |keys| ==> keys[i] != keys[j]
    requires q in keys
    ensures ClaimCount(keys, vals[q := vals[q] + [claim]]) == ClaimCount(keys, vals) + 1
  {
    var pre := keys[..|keys| - 1];
    var last := keys[|keys| - 1];
    if last == q {
      assert q !in pre;
      ClaimCountFrame(pre, vals, vals[q := vals[q] + [claim]]);
    } else {
      ClaimCountGrow(pre, vals, q, claim);
    }
  }

  /** Grouping loses no claim: the lists of all the queries hold as many claims as there were spans. */
  lemma {:induction false} GroupedCount(spans: seq<Span>)
    ensures ClaimCount(Grouped(spans).keys, Grouped(spans).vals) == |spans|
  {
    if spans != [] {
      var pre := spans[..|spans| - 1];
      var g := Grouped(pre);
      var s := spans[|spans| - 1];
      GroupedCount(pre);
      if s.query in g.vals {
        ClaimCountGrow(g.keys, g.vals, s.query, s.claim);
      } else {
        var vals := g.vals[s.query := [s.claim]];
        var d := Grouped(spans);
        assert ClaimsSoFar(g, s.query) + [s.claim] == [s.claim];
        assert d.keys == g.keys + [s.query] && d.vals == vals;
        ClaimCountFrame(g.keys, g.vals, vals);
        assert d.keys[..|g.keys|] == g.keys;
      }
    }
  }
}

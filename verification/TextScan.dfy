/** Finding a query in a text that is at hand: the simple scan every faster search has to agree with. */
module TextScan {

  /** Where a hit is shown: its line, and its column on it, both from 1. */
  datatype Hit = Hit(line: int, column: int)

  predicate OccursAt(text: string, q: string, i: nat) {
    i + |q| <= |text| && text[i..i + |q|] == q
  }

  /** The first occurrence at or after `from`; -1 where there is none. */
  function Find(text: string, q: string, from: nat): (i: int)
    ensures i < 0 || from <= i <= |text| - |q|
    decreases |text| - from
  {
    if from + |q| > |text| then -1 else if OccursAt(text, q, from) then from else Find(text, q, from + 1)
  }

  lemma {:induction false} FindIsFirst(text: string, q: string, from: nat)
    ensures var i := Find(text, q, from);
            && (i >= 0 ==> OccursAt(text, q, i))
            && forall j: nat :: from <= j && (i < 0 || j < i) ==> !OccursAt(text, q, j)
    decreases |text| - from
  {
    if from + |q| <= |text| && !OccursAt(text, q, from) { FindIsFirst(text, q, from + 1); }
  }

  function Step(q: string): nat { if |q| > 1 then |q| else 1 }

  /** The occurrences, each after the end of the one before. */
  function Greedy(text: string, q: string, from: nat): (hits: seq<nat>)
    ensures forall k :: 0 <= k < |hits| ==> from <= hits[k] <= |text|
    decreases |text| + 1 - from
  {
    var i := Find(text, q, from);
    if i < 0 || from > |text| then [] else [i] + Greedy(text, q, i + Step(q))
  }

  function Newlines(text: string): nat {
    if text == "" then 0 else Newlines(text[..|text| - 1]) + if text[|text| - 1] == '\n' then 1 else 0
  }

  /** Where the line that text[..i] ends on starts. */
  function LineStart(text: string, i: nat): (s: nat)
    requires i <= |text|
    ensures s <= i && (s > 0 ==> text[s - 1] == '\n') && forall k :: s <= k < i ==> text[k] != '\n'
  {
    if i == 0 || text[i - 1] == '\n' then i else LineStart(text, i - 1)
  }

  function Place(text: string, i: nat): Hit
    requires i <= |text|
  {
    Hit(1 + Newlines(text[..i]), i - LineStart(text, i) + 1)
  }

  function Shift(h: Hit, lines: int): Hit { Hit(h.line + lines, h.column) }

  function Places(text: string, hits: seq<nat>, lines: int): (r: seq<Hit>)
    requires forall k :: 0 <= k < |hits| ==> hits[k] <= |text|
    ensures |r| == |hits|
  {
    seq(|hits|, k requires 0 <= k < |hits| => Shift(Place(text, hits[k]), lines))
  }

  /** Every hit of the scan of a text. */
  function Scan(text: string, q: string, lines: int): seq<Hit> {
    Places(text, Greedy(text, q, 0), lines)
  }

  function UpTo<T>(s: seq<T>, n: int): seq<T> { if n <= 0 then [] else if n < |s| then s[..n] else s }

  // ---- the scan as it runs ----

  lemma NewlinesUpTo(text: string, i: nat)
    requires i < |text|
    ensures Newlines(text[..i + 1]) == Newlines(text[..i]) + if text[i] == '\n' then 1 else 0
  {
    assert text[..i + 1][..i] == text[..i];
  }

  /** The line and line start kept so far are those of text[..i]. */
  ghost predicate Tracks(text: string, i: nat, line: int, lineStart: int) {
    i <= |text| && line == 1 + Newlines(text[..i]) && lineStart == LineStart(text, i)
  }

  /** Counts the newlines of text[from..to). */
  method CountLines(text: string, from: nat, to: nat, line0: int, lineStart0: nat) returns (line: int, lineStart: nat)
    requires from <= to <= |text|
    requires Tracks(text, from, line0, lineStart0)
    ensures Tracks(text, to, line, lineStart)
  {
    line, lineStart := line0, lineStart0;
    for k := from to to
      invariant Tracks(text, k, line, lineStart)
    {
      NewlinesUpTo(text, k);
      if text[k] == '\n' { line, lineStart := line + 1, k + 1; }
    }
  }

  method IndexOf(text: string, q: string, from: nat) returns (i: int)
    requires from <= |text|
    ensures i == Find(text, q, from)
  {
    i := from;
    while i + |q| <= |text|
      invariant from <= i && Find(text, q, i) == Find(text, q, from)
      decreases |text| - i
    {
      if text[i..i + |q|] == q { return; }
      i := i + 1;
    }
    i := -1;
  }

  /** What a scan may add to a list that is already this long: it stops when the limit is reached, but only after a
      hit. */
  function Room(count: int, maxResults: int): int { if maxResults - count > 1 then maxResults - count else 1 }

  /** Part of the way through a scan: found are the hits up to `scanned`, and they are on the list. */
  ghost predicate Midway(text: string, q: string, results: seq<Hit>, all: seq<Hit>, lines: int, found: seq<nat>,
      scanned: nat) {
    && (forall k :: 0 <= k < |found| ==> found[k] <= |text|)
    && Greedy(text, q, 0) == found + Greedy(text, q, scanned)
    && all == results + Places(text, found, lines)
  }

  lemma OneMoreHit(text: string, q: string, results: seq<Hit>, all: seq<Hit>, lines: int, found: seq<nat>, scanned: nat,
                   idx: nat, line: int, lineStart: int)
    requires scanned <= |text| && Midway(text, q, results, all, lines, found, scanned) && Find(text, q, scanned) == idx
    requires Tracks(text, idx, line, lineStart)
    ensures Midway(text, q, results, all + [Hit(line + lines, idx - lineStart + 1)], lines, found + [idx],
            idx + Step(q))
  {
    var rest := Greedy(text, q, idx + Step(q));
    hide Places;
    assert Greedy(text, q, scanned) == [idx] + rest;
    assert found + ([idx] + rest) == (found + [idx]) + rest;
    PlacesOneMore(text, found, idx, lines);
  }

  lemma PlacesOneMore(text: string, found: seq<nat>, idx: nat, lines: int)
    requires idx <= |text| && forall k :: 0 <= k < |found| ==> found[k] <= |text|
    ensures Places(text, found + [idx], lines) == Places(text, found, lines) + [Shift(Place(text, idx), lines)]
  {
    hide Place, Shift;
  }

  lemma ScanStops(text: string, q: string, results: seq<Hit>, all: seq<Hit>, lines: int, found: seq<nat>, scanned: nat)
    requires Midway(text, q, results, all, lines, found, scanned)
    ensures all == results + UpTo(Scan(text, q, lines), |found|)
    ensures Greedy(text, q, scanned) == [] ==> all == results + Scan(text, q, lines)
  {
    var hits := Greedy(text, q, 0);
    assert Places(text, hits, lines)[..|found|] == Places(text, found, lines);
    assert found + [] == found;
  }

  method ScanText(text: string, q: string, results: seq<Hit>, maxResults: int, lineOffset: int) returns (all: seq<Hit>)
    requires q != ""
    ensures all == results + UpTo(Scan(text, q, lineOffset), Room(|results|, maxResults))
  {
    hide Midway, Scan, Tracks;
    all := results;
    var line, lineStart: nat, scanned: nat := 1, 0, 0;
    ghost var found: seq<nat> := [];
    ScanStart(text, q, results, lineOffset);
    var idx := IndexOf(text, q, 0);
    while idx >= 0
      invariant scanned <= |text| && idx == Find(text, q, scanned)
      invariant Tracks(text, scanned, line, lineStart)
      invariant Midway(text, q, results, all, lineOffset, found, scanned)
      invariant |found| == |all| - |results| && (found == [] || |all| < maxResults)
      decreases |text| - scanned
    {
      line, lineStart := CountLines(text, scanned, idx, line, lineStart);
      OneMoreHit(text, q, results, all, lineOffset, found, scanned, idx, line, lineStart);
      found := found + [idx];
      all := all + [Hit(line + lineOffset, idx - lineStart + 1)];
      if |all| >= maxResults {
        ScanStops(text, q, results, all, lineOffset, found, idx + Step(q));
        return;
      }
      scanned := idx + Step(q);
      line, lineStart := CountLines(text, idx, scanned, line, lineStart);
      idx := IndexOf(text, q, scanned);
    }
    ScanEnds(text, q, results, all, lineOffset, found, scanned);
  }

  lemma ScanStart(text: string, q: string, results: seq<Hit>, lines: int)
    ensures Midway(text, q, results, results, lines, [], 0) && Tracks(text, 0, 1, 0)
  {}

  lemma ScanEnds(text: string, q: string, results: seq<Hit>, all: seq<Hit>, lines: int, found: seq<nat>, scanned: nat)
    requires Midway(text, q, results, all, lines, found, scanned) && Find(text, q, scanned) < 0
    ensures all == results + Scan(text, q, lines) && |Scan(text, q, lines)| == |found|
  {
    ScanStops(text, q, results, all, lines, found, scanned);
  }
}

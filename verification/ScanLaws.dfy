/** Laws of the simple scan: scanning two texts one after the other, and which occurrences a scan shows. */
module ScanLaws {
  import opened TextScan

  predicate OneLine(q: string) { q != "" && '\n' !in q }

  /** A text that ends where a line does. */
  predicate EndsLine(a: string) { a == "" || a[|a| - 1] == '\n' }

  lemma OccursLater(a: string, b: string, q: string, k: nat)
    ensures OccursAt(a + b, q, |a| + k) <==> OccursAt(b, q, k)
  {
    if k + |q| <= |b| { assert (a + b)[|a| + k..|a| + k + |q|] == b[k..k + |q|]; }
  }

  lemma OccursEarlier(a: string, b: string, q: string, i: nat)
    requires OneLine(q) && EndsLine(a) && i < |a|
    ensures OccursAt(a + b, q, i) <==> OccursAt(a, q, i)
  {
    if i + |q| <= |a| {
      assert (a + b)[i..i + |q|] == a[i..i + |q|];
    } else if i + |q| <= |a + b| {
      assert (a + b)[i..i + |q|][|a| - 1 - i] == '\n';
    }
  }

  lemma {:induction false} FindLater(a: string, b: string, q: string, k: nat)
    ensures Find(a + b, q, |a| + k) == if Find(b, q, k) < 0 then -1 else |a| + Find(b, q, k)
    decreases |b| - k
  {
    OccursLater(a, b, q, k);
    if k + |q| <= |b| && !OccursAt(b, q, k) { FindLater(a, b, q, k + 1); }
  }

  lemma {:induction false} FindEarlier(a: string, b: string, q: string, i: nat)
    requires OneLine(q) && EndsLine(a) && i <= |a|
    ensures Find(a + b, q, i) == if Find(a, q, i) >= 0 then Find(a, q, i) else Find(a + b, q, |a|)
    decreases |a| - i
  {
    if i < |a| {
      OccursEarlier(a, b, q, i);
      if i + |q| > |a| { NoneInEnd(a, q, i); }
      FindEarlier(a, b, q, i + 1);
      if i + |q| > |a + b| { NoneInEnd(a + b, q, |a|); }
    } else {
      NoneInEnd(a, q, i);
    }
  }

  lemma NoneInEnd(a: string, q: string, i: nat)
    requires q != "" && i + |q| > |a|
    ensures forall j: nat :: j >= i ==> Find(a, q, j) < 0
  {}

  function Later(hits: seq<nat>, n: nat): (r: seq<nat>)
    ensures |r| == |hits| && forall k :: 0 <= k < |r| ==> r[k] == n + hits[k]
  {
    seq(|hits|, k requires 0 <= k < |hits| => n + hits[k])
  }

  lemma LaterMore(i: nat, hits: seq<nat>, n: nat)
    ensures Later([i] + hits, n) == [n + i] + Later(hits, n)
  {}

  lemma {:induction false} GreedyLater(a: string, b: string, q: string, k: nat)
    requires q != ""
    ensures Greedy(a + b, q, |a| + k) == Later(Greedy(b, q, k), |a|)
    decreases |b| + 1 - k
  {
    hide OccursAt, Later, Step;
    FindLater(a, b, q, k);
    var i := Find(b, q, k);
    if i >= 0 {
      StepInside(b, q, k);
      GreedyStep(b, q, k, i);
      GreedyStep(a + b, q, |a| + k, |a| + i);
      GreedyLater(a, b, q, i + Step(q));
      LaterMore(i, Greedy(b, q, i + Step(q)), |a|);
    } else {
      LaterNone(|a|);
    }
  }

  lemma LaterNone(n: nat)
    ensures Later([], n) == []
  {}

  lemma GreedyStep(text: string, q: string, from: nat, i: nat)
    requires q != "" && Find(text, q, from) == i
    ensures Greedy(text, q, from) == [i] + Greedy(text, q, i + Step(q))
  {}

  lemma GreedyNone(a: string, b: string, q: string, from: nat)
    requires OneLine(q) && EndsLine(a) && from <= |a| && Find(a, q, from) < 0
    ensures Greedy(a, q, from) == [] && Greedy(a + b, q, from) == Later(Greedy(b, q, 0), |a|)
  {
    FindEarlier(a, b, q, from);
    GreedyLater(a, b, q, 0);
    SameFind(a + b, q, from, |a|);
  }

  lemma {:induction false} GreedyAppend(a: string, b: string, q: string, from: nat)
    requires OneLine(q) && EndsLine(a) && from <= |a|
    ensures Greedy(a + b, q, from) == Greedy(a, q, from) + Later(Greedy(b, q, 0), |a|)
    decreases |a| + 1 - from
  {
    hide OccursAt, Later, Step;
    var i := Find(a, q, from);
    if i < 0 {
      GreedyNone(a, b, q, from);
      assert [] + Later(Greedy(b, q, 0), |a|) == Later(Greedy(b, q, 0), |a|);
    } else {
      FindEarlier(a, b, q, from);
      GreedyStep(a, q, from, i);
      GreedyStep(a + b, q, from, i);
      StepInside(a, q, from);
      GreedyAppend(a, b, q, i + Step(q));
      Associates(i, Greedy(a, q, i + Step(q)), Later(Greedy(b, q, 0), |a|));
    }
  }

  lemma StepInside(a: string, q: string, from: nat)
    requires q != "" && Find(a, q, from) >= 0
    ensures Find(a, q, from) + Step(q) <= |a| && from < Find(a, q, from) + Step(q)
  {}

  lemma Associates(i: nat, x: seq<nat>, y: seq<nat>)
    ensures [i] + (x + y) == ([i] + x) + y
  {}

  lemma SameFind(text: string, q: string, i: nat, j: nat)
    requires i <= |text| && j <= |text| && Find(text, q, i) == Find(text, q, j)
    ensures Greedy(text, q, i) == Greedy(text, q, j)
  {}

  // ---- lines ----

  lemma {:induction false} NewlinesAppend(a: string, b: string)
    ensures Newlines(a + b) == Newlines(a) + Newlines(b)
    decreases |b|
  {
    if b == "" {
      assert a + b == a;
    } else {
      assert (a + b)[..|a + b| - 1] == a + b[..|b| - 1];
      NewlinesAppend(a, b[..|b| - 1]);
    }
  }

  lemma {:induction false} LineStartLater(a: string, b: string, j: nat)
    requires EndsLine(a) && j <= |b|
    ensures LineStart(a + b, |a| + j) == |a| + LineStart(b, j)
    decreases j
  {
    if j > 0 && b[j - 1] != '\n' { LineStartLater(a, b, j - 1); }
  }

  lemma {:induction false} LineStartEarlier(a: string, b: string, i: nat)
    requires i <= |a|
    ensures LineStart(a + b, i) == LineStart(a, i)
    decreases i
  {
    if i > 0 && a[i - 1] != '\n' { LineStartEarlier(a, b, i - 1); }
  }

  lemma PlaceLater(a: string, b: string, j: nat)
    requires EndsLine(a) && j <= |b|
    ensures Place(a + b, |a| + j) == Shift(Place(b, j), Newlines(a))
  {
    assert (a + b)[..|a| + j] == a + b[..j];
    NewlinesAppend(a, b[..j]);
    LineStartLater(a, b, j);
  }

  lemma PlaceEarlier(a: string, b: string, i: nat)
    requires i <= |a|
    ensures Place(a + b, i) == Place(a, i)
  {
    assert (a + b)[..i] == a[..i];
    LineStartEarlier(a, b, i);
  }

  /** Scanning a text that ends where a line does, and then what follows it, is scanning both at once. */
  lemma ScanAppend(a: string, b: string, q: string, lines: int)
    requires OneLine(q) && EndsLine(a)
    ensures Scan(a + b, q, lines) == Scan(a, q, lines) + Scan(b, q, lines + Newlines(a))
  {
    var x, y := Greedy(a, q, 0), Greedy(b, q, 0);
    GreedyAppend(a, b, q, 0);
    PlacesAppend(a, b, x, y, lines);
  }

  lemma PlacesAppend(a: string, b: string, x: seq<nat>, y: seq<nat>, lines: int)
    requires EndsLine(a)
    requires (forall k :: 0 <= k < |x| ==> x[k] <= |a|) && forall k :: 0 <= k < |y| ==> y[k] <= |b|
    ensures Places(a + b, x + Later(y, |a|), lines) == Places(a, x, lines) + Places(b, y, lines + Newlines(a))
  {
    PlacesEarlier(a, b, x, lines);
    PlacesLater(a, b, y, lines);
    PlacesOf(a + b, x, Later(y, |a|), lines);
  }

  lemma PlacesOf(text: string, x: seq<nat>, y: seq<nat>, lines: int)
    requires (forall k :: 0 <= k < |x| ==> x[k] <= |text|) && forall k :: 0 <= k < |y| ==> y[k] <= |text|
    ensures Places(text, x + y, lines) == Places(text, x, lines) + Places(text, y, lines)
  {
    hide Place, Shift;
  }

  lemma PlacesEarlier(a: string, b: string, x: seq<nat>, lines: int)
    requires forall k :: 0 <= k < |x| ==> x[k] <= |a|
    ensures Places(a + b, x, lines) == Places(a, x, lines)
  {
    hide Place, Shift;
    forall k | 0 <= k < |x| ensures Place(a + b, x[k]) == Place(a, x[k]) { PlaceEarlier(a, b, x[k]); }
  }

  lemma PlacesLater(a: string, b: string, y: seq<nat>, lines: int)
    requires EndsLine(a) && forall k :: 0 <= k < |y| ==> y[k] <= |b|
    ensures Places(a + b, Later(y, |a|), lines) == Places(b, y, lines + Newlines(a))
  {
    hide Place;
    forall k | 0 <= k < |y| ensures Place(a + b, |a| + y[k]) == Shift(Place(b, y[k]), Newlines(a)) {
      PlaceLater(a, b, y[k]);
    }
  }

  // ---- which occurrences a scan shows ----

  lemma {:induction false} GreedyOccurs(text: string, q: string, from: nat, k: nat)
    requires q != "" && k < |Greedy(text, q, from)|
    ensures OccursAt(text, q, Greedy(text, q, from)[k])
    decreases k
  {
    FindIsFirst(text, q, from);
    var i := Find(text, q, from);
    if k > 0 { GreedyOccurs(text, q, i + Step(q), k - 1); }
  }

  lemma NoHits(text: string, q: string, lines: int)
    requires q != "" && forall i: nat :: !OccursAt(text, q, i)
    ensures Scan(text, q, lines) == []
  {
    FindIsFirst(text, q, 0);
  }

  /** Every occurrence is a hit, or is overlapped by one that starts before it. */
  lemma {:induction false} Covered(text: string, q: string, from: nat, j: nat) returns (k: nat)
    requires q != "" && from <= j && OccursAt(text, q, j)
    ensures k < |Greedy(text, q, from)|
    ensures var i := Greedy(text, q, from)[k]; OccursAt(text, q, i) && i <= j < i + |q|
    decreases |text| + 1 - from
  {
    FindIsFirst(text, q, from);
    var i := Find(text, q, from);
    GreedyStep(text, q, from, i);
    if j < i + |q| {
      k := 0;
    } else {
      k := Covered(text, q, i + Step(q), j);
      k := k + 1;
    }
  }

  lemma {:induction false} NoNewlines(s: string)
    requires '\n' !in s
    ensures Newlines(s) == 0
  {
    if s != "" { NoNewlines(s[..|s| - 1]); }
  }

  /** Nothing between the start of an occurrence and its end is on another line. */
  lemma SameLine(text: string, q: string, i: nat, j: nat)
    requires OneLine(q) && OccursAt(text, q, i) && i <= j <= i + |q|
    ensures Newlines(text[..j]) == Newlines(text[..i])
  {
    assert text[..j] == text[..i] + text[i..j];
    NewlinesAppend(text[..i], text[i..j]);
    forall k | i <= k < j ensures text[k] != '\n' { assert text[k] == text[i..i + |q|][k - i]; }
    NoNewlines(text[i..j]);
  }
}

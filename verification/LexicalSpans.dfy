/** The C-family scanner as it runs - jumping from one character that matters to the next - and the question it answers:
    does a place lie in a comment or a literal? */
module LexicalSpans {
  import opened Common
  import opened CFamilyTokens
  import TextScan

  const CODE_STOPS := {'/', '"', '\'', '\n'}

  method IndexOfAny(text: string, from0: nat, stops: set<char>) returns (j: nat)
    requires from0 <= |text|
    ensures from0 <= j <= |text| && (j < |text| ==> text[j] in stops)
    ensures forall k :: from0 <= k < j ==> text[k] !in stops
  {
    j := from0;
    while j < |text| && text[j] !in stops
      invariant from0 <= j <= |text| && forall k :: from0 <= k < j ==> text[k] !in stops
    {
      j := j + 1;
    }
  }

  lemma {:induction false} LineEndIs(text: string, i: nat, j: nat)
    requires i <= j <= |text| && (j < |text| ==> text[j] == '\n' || text[j] == '\r')
    requires forall k :: i <= k < j ==> text[k] != '\n' && text[k] != '\r'
    ensures LineEnd(text, i) == j && LinesBetween(text, i, j) == 0
    decreases |text| - i
  {
    if i < j { LineEndIs(text, i + 1, j); }
  }

  method IndexOfClose(text: string, i: nat) returns (j: nat)
    requires i <= |text|
    ensures j == BlockClose(text, i)
  {
    j := i;
    while j < |text| && !(j + 1 < |text| && text[j] == '*' && text[j + 1] == '/')
      invariant i <= j <= |text| && BlockClose(text, j) == BlockClose(text, i)
    {
      j := j + 1;
    }
  }

  /** A newline starts the column over; the last one says where. */
  lemma {:induction false} MoveIs(text: string, p: Pos, i: nat, to: nat, lf: int)
    requires i <= to <= |text| && i - 1 <= lf < to && forall k :: lf < k < to ==> text[k] != '\n'
    requires lf >= i ==> text[lf] == '\n'
    ensures Move(text, p, i, to) ==
            if lf < i then Pos(p.line, p.col + (to - i)) else Pos(p.line + LinesBetween(text, i, to), to - lf - 1)
    ensures lf < i ==> LinesBetween(text, i, to) == 0
    decreases |text| - i
  {
    if i < to {
      if lf == i {
        MoveIs(text, After(p, text[i]), i + 1, to, i);
      } else {
        MoveIs(text, After(p, text[i]), i + 1, to, if lf < i then i else lf);
      }
    }
  }

  /** Moves over text[from..to) in one step. */
  method Advance(text: string, i: nat, to: nat, p: Pos) returns (q: Pos)
    requires i <= to <= |text|
    ensures q == Move(text, p, i, to)
  {
    var lf: int, count := to - 1, 0;
    while lf >= i && text[lf] != '\n'
      invariant i - 1 <= lf < to && forall k :: lf < k < to ==> text[k] != '\n'
      decreases lf
    {
      lf := lf - 1;
    }
    MoveIs(text, p, i, to, lf);
    if lf < i { return Pos(p.line, p.col + (to - i)); }
    var k := to;
    while k > i
      invariant i <= k <= to && count == LinesBetween(text, k, to)
    {
      k := k - 1;
      if text[k] == '\n' { count := count + 1; }
    }
    q := Pos(p.line + count, to - lf - 1);
  }

  lemma MoveTwo(text: string, p: Pos, i: nat)
    requires i + 2 <= |text|
    ensures Move(text, p, i, i + 2) == After(After(p, text[i]), text[i + 1])
  {
    MoveOne(text, After(p, text[i]), i + 1);
  }

  // ---- literals ----

  method ScanString(text: string, i: nat, p: Pos) returns (e: Option<nat>, q: Pos)
    requires i < |text| && text[i] == '"'
    ensures e == StringEnd(text, i + 1)
    ensures e.Some? ==> q == Move(text, p, i, e.value)
  {
    var j := i + 1;
    q := Pos(p.line, p.col + 1);
    MoveTwice(text, p, i, i, i + 1);
    while j < |text|
      invariant i < j <= |text| && StringEnd(text, j) == StringEnd(text, i + 1) && q == Move(text, p, i, j)
    {
      var t := text[j];
      if t == '\\' && j + 1 < |text| {
        MoveTwice(text, p, i, j, j + 2);
        MoveTwo(text, q, j);
        if text[j + 1] == '\n' {
          j, q := j + 2, Pos(q.line + 1, 0);
        } else if text[j + 1] == '\r' && j + 2 < |text| && text[j + 2] == '\n' {
          MoveTwice(text, p, i, j + 2, j + 3);
          j, q := j + 3, Pos(q.line + 1, 0);
        } else {
          j, q := j + 2, Pos(q.line, q.col + 2);
        }
      } else if t == '"' {
        MoveTwice(text, p, i, j, j + 1);
        return Some(j + 1), Pos(q.line, q.col + 1);
      } else if t == '\n' || t == '\r' {
        return None, q;
      } else {
        MoveTwice(text, p, i, j, j + 1);
        j, q := j + 1, Pos(q.line, q.col + 1);
      }
    }
    e := None;
  }

  method ScanChar(text: string, i: nat, col: nat) returns (e: Option<nat>, endCol: nat)
    requires i < |text|
    ensures e == CharEnd(text, i + 1, 0)
    ensures e.Some? ==> endCol == col + (e.value - i)
  {
    var j, scanned := i + 1, 0;
    endCol := col + 1;
    while j < |text| && text[j] != '\n' && text[j] != '\r' && scanned < MAX_CHAR
      invariant i < j <= |text| && CharEnd(text, j, scanned) == CharEnd(text, i + 1, 0) && endCol == col + (j - i)
    {
      if text[j] == '\\' && j + 1 < |text| {
        j, endCol, scanned := j + 2, endCol + 2, scanned + 2;
      } else if text[j] == '\'' {
        return Some(j + 1), endCol + 1;
      } else {
        j, endCol, scanned := j + 1, endCol + 1, scanned + 1;
      }
    }
    e := None;
  }

  method ScanDelimiter(text: string, start: nat, p: Pos) returns (i: nat, q: Pos)
    requires start <= |text|
    ensures i == DelimiterEnd(text, start, start) && q == Move(text, p, start, i)
  {
    i, q := start, p;
    while i < |text| && text[i] != '(' && text[i] != '\n' && i - start <= MAX_DELIMITER
      invariant start <= i <= |text| && DelimiterEnd(text, start, i) == DelimiterEnd(text, start, start)
      invariant q == Move(text, p, start, i)
    {
      MoveTwice(text, p, start, i, i + 1);
      i, q := i + 1, Pos(q.line, q.col + 1);
    }
  }

  method ScanRawString(text: string, quote: nat, p: Pos) returns (i: nat, q: Pos)
    requires quote < |text| && text[quote] == '"'
    ensures i == RawEnd(text, quote) && q == Move(text, p, quote, i)
  {
    i, q := quote + 1, Pos(p.line, p.col + 1);
    MoveTwice(text, p, quote, quote + 1, quote + 1);
    var delimStart := i;
    i, q := ScanDelimiter(text, delimStart, q);
    MoveTwice(text, p, quote, quote + 1, i);
    if i >= |text| || text[i] != '(' { return; }
    var close := ")" + text[delimStart..i] + "\"";
    NoNewlineIn(text, delimStart, i, close);
    MoveTwice(text, p, quote, i, i + 1);
    ghost var body := i + 1;
    q := Pos(q.line, q.col + 1);
    i, q := ScanRawBody(text, i + 1, q, close);
    MoveTwice(text, p, quote, body, i);
  }

  method ScanRawBody(text: string, start: nat, p: Pos, close: string) returns (i: nat, q: Pos)
    requires start <= |text| && '\n' !in close
    ensures i == RawClose(text, close, start) && q == Move(text, p, start, i)
  {
    i, q := start, p;
    while i < |text|
      invariant start <= i <= |text| && RawClose(text, close, i) == RawClose(text, close, start)
                && q == Move(text, p, start, i)
    {
      if i + |close| <= |text| && text[i..i + |close|] == close {
        CloseMove(text, q, close, i);
        MoveTwice(text, p, start, i, i + |close|);
        i, q := i + |close|, Pos(q.line, q.col + |close|);
        return;
      }
      MoveTwice(text, p, start, i, i + 1);
      q := if text[i] == '\n' then Pos(q.line + 1, 0) else Pos(q.line, q.col + 1);
      i := i + 1;
    }
  }

  lemma NoNewlineIn(text: string, start: nat, e: nat, close: string)
    requires start <= e <= |text| && e == DelimiterEnd(text, start, start) && close == ")" + text[start..e] + "\""
    ensures '\n' !in close
  {
    forall k | 0 <= k < |close| ensures close[k] != '\n' {
      if 0 < k < |close| - 1 { assert close[k] == text[start + k - 1]; }
    }
  }

  lemma {:induction false} CloseMove(text: string, p: Pos, close: string, i: nat)
    requires '\n' !in close && ClosesRaw(text, close, i)
    ensures Move(text, p, i, i + |close|) == Pos(p.line, p.col + |close|)
    decreases |close|
  {
    forall k | i <= k < i + |close|
      ensures text[k] != '\n'
    {
      assert text[k] == text[i..i + |close|][k - i] == close[k - i];
    }
    MoveIs(text, p, i, i + |close|, i - 1);
  }

  // ---- the scanner ----

  /** Plain code: nothing happens until the next character that matters. */
  lemma {:induction false} SkipCode(isIdent: IsIdent, text: string, i: nat, to: nat, p: Pos)
    requires i <= to <= |text| && forall k :: i <= k < to ==> text[k] !in CODE_STOPS
    ensures Spans(isIdent, text, i, p) == Spans(isIdent, text, to, Pos(p.line, p.col + (to - i)))
    decreases |text| - i
  {
    hide IsRawStringOpen, CharOpens;
    if i < to {
      assert text[i] !in CODE_STOPS;
      SkipCode(isIdent, text, i + 1, to, After(p, text[i]));
    }
  }

  lemma TokenSpans(isIdent: IsIdent, text: string, i: nat, p: Pos, t: Token, q: Pos)
    requires i < |text| && TokenAt(isIdent, text, i) == Some(t) && q == TokenEnd(text, p, t)
    ensures Spans(isIdent, text, i, p) == [Span(p, q)] + Spans(isIdent, text, t.end, q)
  {
    hide TokenAt, TokenEnd;
  }

  lemma CodeSpans(isIdent: IsIdent, text: string, i: nat, p: Pos)
    requires i < |text| && TokenAt(isIdent, text, i) == None
    ensures Spans(isIdent, text, i, p) == Spans(isIdent, text, i + 1, After(p, text[i]))
  {
    hide TokenAt;
  }

  /** The token at i, if there is one, and where it ends. */
  method ScanToken(isIdent: IsIdent, text: string, i: nat, p: Pos) returns (t: Option<nat>, q: Pos)
    requires i < |text|
    ensures t.Some? == TokenAt(isIdent, text, i).Some?
    ensures t.Some? ==>
            i < t.value == TokenAt(isIdent, text, i).value.end
            && q == TokenEnd(text, p, TokenAt(isIdent, text, i).value)
  {
    hide Move, StringEnd, CharEnd, RawEnd, BlockClose, LineEnd, IsRawStringOpen, CharOpens;
    q := p;
    var c := text[i];
    var d := if i + 1 < |text| then text[i + 1] else '\0';
    if c == '/' && d == '/' {
      var stop := IndexOfAny(text, i, {'\n', '\r'});
      LineEndIs(text, i, stop);
      NoNewlineMove(text, p, i, stop);
      return Some(stop), Pos(p.line, p.col + (stop - i));
    }
    if c == '/' && d == '*' {
      var end := IndexOfClose(text, i + 2);
      q := BlockMove(text, i, end, p);
      return Some(BlockEnd(text, i + 2)), q;
    }
    if c == '"' {
      if IsRawStringOpen(isIdent, text, i) {
        var e;
        e, q := ScanRawString(text, i, p);
        return Some(e), q;
      }
      t, q := ScanString(text, i, p);
      return;
    }
    if c == '\'' && CharOpens(isIdent, text, i) {
      var endCol;
      t, endCol := ScanChar(text, i, p.col);
      return t, Pos(p.line, endCol);
    }
    t := None;
  }

  method BlockMove(text: string, i: nat, close: nat, p: Pos) returns (q: Pos)
    requires i + 2 <= |text| && text[i] == '/' && text[i + 1] == '*' && close == BlockClose(text, i + 2)
    ensures q == Move(text, p, i, BlockEnd(text, i + 2))
  {
    MoveTwo(text, p, i);
    MoveTwice(text, p, i, i + 2, close);
    q := Advance(text, i + 2, close, Pos(p.line, p.col + 2));
    if close < |text| {
      CloseIsThere(text, i + 2);
      MoveTwice(text, p, i, close, close + 2);
      MoveTwo(text, q, close);
      q := Pos(q.line, q.col + 2);
    }
  }

  lemma {:induction false} CloseIsThere(text: string, i: nat)
    requires i <= |text| && BlockClose(text, i) < |text|
    ensures ClosesBlock(text, BlockClose(text, i))
    decreases |text| - i
  {
    if !ClosesBlock(text, i) { CloseIsThere(text, i + 1); }
  }

  /** The spans of the comments and literals of a text: those of the scanner that looks at every character. */
  method CFamilySpans(isIdent: IsIdent, text: string) returns (list: seq<Span>)
    ensures list == Spans(isIdent, text, 0, Pos(0, 0))
    ensures Sorted(list)
  {
    hide Spans, TokenAt, TokenEnd, Sorted;
    var i, p: Pos := 0, Pos(0, 0);
    list := [];
    while i < |text|
      invariant i <= |text| && list + Spans(isIdent, text, i, p) == Spans(isIdent, text, 0, Pos(0, 0))
    {
      var t, q := ScanToken(isIdent, text, i, p);
      if t.Some? {
        TokenSpans(isIdent, text, i, p, TokenAt(isIdent, text, i).value, q);
        assert list + ([Span(p, q)] + Spans(isIdent, text, t.value, q)) ==
               list + [Span(p, q)] + Spans(isIdent, text, t.value, q);
        list, i, p := list + [Span(p, q)], t.value, q;
      } else {
        CodeSpans(isIdent, text, i, p);
        if text[i] == '\n' {
          i, p := i + 1, Pos(p.line + 1, 0);
        } else {
          var to := IndexOfAny(text, i + 1, CODE_STOPS);
          if text[i] == '"' || text[i] == '\'' { to := i + 1; }
          SkipCode(isIdent, text, i + 1, to, Pos(p.line, p.col + 1));
          p := Pos(p.line, p.col + (to - i));
          i := to;
        }
      }
    }
    SpansEnd(isIdent, text, p);
    assert list + [] == list;
    SpansSorted(isIdent, text, 0, Pos(0, 0));
  }

  lemma SpansEnd(isIdent: IsIdent, text: string, p: Pos)
    ensures Spans(isIdent, text, |text|, p) == []
  {}

  // ---- is a place in a comment or a literal? ----

  predicate Holds(s: Span, p: Pos) { NotAfter(s.start, p) && Before(p, s.end) }

  /** Some span of the list holds the place: told by a binary search for the last one that starts at it or before. */
  method IsInSpan(spans: seq<Span>, p: Pos) returns (inside: bool)
    requires Sorted(spans)
    ensures inside <==> exists s <- spans :: Holds(s, p)
  {
    var lo, hi, found: int := 0, |spans| - 1, -1;
    while lo <= hi
      invariant 0 <= lo <= hi + 1 <= |spans| && found == lo - 1
      invariant forall k :: 0 <= k < lo ==> NotAfter(spans[k].start, p)
      invariant forall k :: hi < k < |spans| ==> !NotAfter(spans[k].start, p)
    {
      var mid := (lo + hi) / 2;
      if spans[mid].start.line < p.line || (spans[mid].start.line == p.line && spans[mid].start.col <= p.col) {
        forall k | 0 <= k <= mid ensures NotAfter(spans[k].start, p) { if k < mid { EarlierStarts(spans, k, mid, p); } }
        found, lo := mid, mid + 1;
      } else {
        forall k | mid <= k < |spans| ensures !NotAfter(spans[k].start, p) {
          if k > mid && NotAfter(spans[k].start, p) { EarlierStarts(spans, mid, k, p); }
        }
        hi := mid - 1;
      }
    }
    if found < 0 { return false; }
    inside := Before(p, spans[found].end);
    OnlyLast(spans, found, p);
  }

  lemma EarlierStarts(spans: seq<Span>, k: nat, m: nat, p: Pos)
    requires Sorted(spans) && k < m < |spans| && NotAfter(spans[m].start, p)
    ensures NotAfter(spans[k].start, p)
  {
    assert Before(spans[k].start, spans[k].end) && NotAfter(spans[k].end, spans[m].start);
  }

  lemma OnlyLast(spans: seq<Span>, found: nat, p: Pos)
    requires Sorted(spans) && found < |spans|
    requires forall k :: 0 <= k <= found ==> NotAfter(spans[k].start, p)
    requires forall k :: found < k < |spans| ==> !NotAfter(spans[k].start, p)
    ensures Before(p, spans[found].end) <==> exists s <- spans :: Holds(s, p)
  {
    assert spans[found] in spans;
    forall k | 0 <= k < found ensures !Holds(spans[k], p) {
      assert NotAfter(spans[k].end, spans[found].start);
    }
  }

  /** Where no character literal holds a newline: a place is held by a span exactly when the character there is in a
      comment or a literal. */
  lemma InsideTokens(isIdent: IsIdent, text: string, i: nat)
    requires i < |text|
    requires forall t <- Tokens(isIdent, text, 0) :: t.start <= t.end <= |text|
    requires Lost(text, Tokens(isIdent, text, 0)) == 0
    ensures (exists s <- Spans(isIdent, text, 0, Pos(0, 0)) :: Holds(s, Place(text, i))) <==>
            (exists t <- Tokens(isIdent, text, 0) :: t.start <= i < t.end)
  {
    hide Spans, Tokens, Lost, Place;
    SpansTrue(isIdent, text, 0);
    StartPlace(text);
    var tokens, spans := Tokens(isIdent, text, 0), Spans(isIdent, text, 0, Pos(0, 0));
    forall k | 0 <= k < |tokens| ensures Holds(spans[k], Place(text, i)) <==> tokens[k].start <= i < tokens[k].end {
      PlaceOrder(text, tokens[k].start, i);
      PlaceOrder(text, tokens[k].end, i);
    }
    forall s <- spans | Holds(s, Place(text, i)) ensures exists t <- tokens :: t.start <= i < t.end {
      var k :| 0 <= k < |spans| && spans[k] == s;
      assert tokens[k] in tokens;
    }
    forall t <- tokens | t.start <= i < t.end ensures exists s <- spans :: Holds(s, Place(text, i)) {
      var k :| 0 <= k < |tokens| && tokens[k] == t;
      assert spans[k] in spans;
    }
  }

  lemma StartPlace(text: string)
    ensures Place(text, 0) == Pos(0, 0)
  {}

  lemma PlaceOrder(text: string, i: nat, j: nat)
    requires i <= |text| && j <= |text|
    ensures NotAfter(Place(text, i), Place(text, j)) <==> i <= j
    ensures Before(Place(text, i), Place(text, j)) <==> i < j
  {
    if i <= j {
      PlaceMore(text, i, j);
      MoveForward(text, Place(text, i), i, j);
    } else {
      PlaceMore(text, j, i);
      MoveForward(text, Place(text, j), j, i);
    }
  }

  // ---- where a name occurs ----

  /** The places of the occurrences before an offset. */
  ghost predicate Listed(text: string, token: string, upto: nat, places: set<Pos>)
    requires upto <= |text| + 1
  {
    forall q :: q in places <==>
      exists i :: 0 <= i < upto && i <= |text| && TextScan.OccursAt(text, token, i) && Place(text, i) == q
  }

  lemma ListedMore(text: string, token: string, scanned: nat, idx: nat, places: set<Pos>)
    requires scanned <= idx < |text| && Listed(text, token, scanned, places)
             && TextScan.Find(text, token, scanned) == idx
    ensures Listed(text, token, idx + 1, places + {Place(text, idx)})
  {
    hide Place, TextScan.OccursAt;
    TextScan.FindIsFirst(text, token, scanned);
  }

  lemma ListedAll(text: string, token: string, scanned: nat, places: set<Pos>)
    requires scanned <= |text| && Listed(text, token, scanned, places) && TextScan.Find(text, token, scanned) < 0
    ensures Listed(text, token, |text| + 1, places)
  {
    hide Place, TextScan.OccursAt;
    TextScan.FindIsFirst(text, token, scanned);
  }

  /** The places of all occurrences of a name, those that overlap among them. (The character an occurrence starts with
      is not looked at again: were it a newline, the places after it would be on the wrong line.) */
  method Occurrences(text: string, token: string) returns (places: set<Pos>)
    requires token != ""
    ensures token[0] != '\n' ==> Listed(text, token, |text| + 1, places)
  {
    hide Place, Listed;
    places := {};
    var p, scanned: nat := Pos(0, 0), 0;
    StartPlace(text);
    NoneListed(text, token);
    var idx := TextScan.IndexOf(text, token, 0);
    while idx >= 0
      invariant scanned <= |text| && idx == TextScan.Find(text, token, scanned)
      invariant token[0] != '\n' ==> p == Place(text, scanned) && Listed(text, token, scanned, places)
      decreases |text| - scanned
    {
      var at := Advance(text, scanned, idx, p);
      PlaceMore(text, scanned, idx);
      if token[0] != '\n' { ListedMore(text, token, scanned, idx, places); }
      places := places + {at};
      OccurrenceStarts(text, token, scanned, idx);
      PlaceMore(text, idx, idx + 1);
      MoveOne(text, at, idx);
      p, scanned := Pos(at.line, at.col + 1), idx + 1;
      idx := TextScan.IndexOf(text, token, scanned);
    }
    if token[0] != '\n' { ListedAll(text, token, scanned, places); }
  }

  lemma OccurrenceStarts(text: string, token: string, scanned: nat, idx: nat)
    requires token != "" && TextScan.Find(text, token, scanned) == idx
    ensures idx < |text| && text[idx] == token[0]
  {
    TextScan.FindIsFirst(text, token, scanned);
    assert text[idx..idx + |token|][0] == text[idx];
  }

  lemma NoneListed(text: string, token: string)
    ensures Listed(text, token, 0, {})
  {}
}

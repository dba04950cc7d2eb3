/** Comments and literals of C-family text, as a scanner that looks at one character after the other finds them: where
    each ends, and where it is, by line and column. */
module CFamilyTokens {
  import opened Common

  /** A place: line and column, both from 0. */
  datatype Pos = Pos(line: nat, col: nat)

  datatype Span = Span(start: Pos, end: Pos)

  datatype Kind = LineComment | BlockComment | StringLiteral | RawString | CharLiteral

  datatype Token = Token(kind: Kind, start: nat, end: nat)

  type IsIdent = char -> bool

  const MAX_CHAR := 16
  const MAX_DELIMITER := 16

  // ---- where a token ends ----

  function LineEnd(text: string, i: nat): (e: nat)
    requires i <= |text|
    ensures i <= e <= |text|
    decreases |text| - i
  {
    if i == |text| || text[i] == '\n' || text[i] == '\r' then i else LineEnd(text, i + 1)
  }

  predicate ClosesBlock(text: string, i: nat) { i + 1 < |text| && text[i] == '*' && text[i + 1] == '/' }

  /** Where the close of a block comment starts; the end of the text where it has none. */
  function BlockClose(text: string, i: nat): (e: nat)
    requires i <= |text|
    ensures i <= e <= |text| && (e < |text| ==> e + 2 <= |text|)
    decreases |text| - i
  {
    if i == |text| || ClosesBlock(text, i) then i else BlockClose(text, i + 1)
  }

  function BlockEnd(text: string, i: nat): (e: nat)
    requires i <= |text|
    ensures i <= e <= |text|
  {
    var close := BlockClose(text, i);
    if close < |text| then close + 2 else close
  }

  /** The end of a string literal; none where it is not closed on its line (or on the lines it is continued on). */
  function StringEnd(text: string, j: nat): (e: Option<nat>)
    requires j <= |text|
    ensures e.Some? ==> j < e.value <= |text|
    decreases |text| - j
  {
    if j == |text| then None
    else if text[j] == '\\' && j + 1 < |text| then
      if text[j + 1] == '\r' && j + 2 < |text| && text[j + 2] == '\n' then StringEnd(text, j + 3)
      else StringEnd(text, j + 2)
    else if text[j] == '"' then Some(j + 1)
    else if text[j] == '\n' || text[j] == '\r' then None
    else StringEnd(text, j + 1)
  }

  /** The end of a character literal; none where it is not closed within a few characters, and before the line ends.
      What a backslash escapes is not looked at. */
  function CharEnd(text: string, j: nat, scanned: nat): (e: Option<nat>)
    requires j <= |text|
    ensures e.Some? ==> j < e.value <= |text|
    decreases |text| - j
  {
    if j == |text| || text[j] == '\n' || text[j] == '\r' || scanned >= MAX_CHAR then None
    else if text[j] == '\\' && j + 1 < |text| then CharEnd(text, j + 2, scanned + 2)
    else if text[j] == '\'' then Some(j + 1)
    else CharEnd(text, j + 1, scanned + 1)
  }

  /** Where the identifier that ends at p starts. */
  function RunStart(isIdent: IsIdent, text: string, p: nat): (s: nat)
    requires p <= |text|
    ensures s <= p
  {
    if p == 0 || !isIdent(text[p - 1]) then p else RunStart(isIdent, text, p - 1)
  }

  predicate HasEncodingPrefix(isIdent: IsIdent, text: string, quote: nat)
    requires quote <= |text|
  {
    text[RunStart(isIdent, text, quote)..quote] in {"L", "u", "U", "u8"}
  }

  predicate IsRawStringOpen(isIdent: IsIdent, text: string, quote: nat)
    requires quote <= |text|
  {
    && quote > 0 && text[quote - 1] == 'R'
    && text[RunStart(isIdent, text, quote - 1)..quote - 1] in {"", "u8", "u", "U", "L"}
  }

  predicate CharOpens(isIdent: IsIdent, text: string, i: nat)
    requires i <= |text|
  {
    !(i > 0 && isIdent(text[i - 1]) && !HasEncodingPrefix(isIdent, text, i))
  }

  /** Where the delimiter of a raw string ends. */
  function DelimiterEnd(text: string, start: nat, k: nat): (e: nat)
    requires start <= k <= |text|
    ensures k <= e <= |text|
    ensures forall m :: k <= m < e ==> text[m] != '\n'
    decreases |text| - k
  {
    if k < |text| && text[k] != '(' && text[k] != '\n' && k - start <= MAX_DELIMITER
      then DelimiterEnd(text, start, k + 1) else k
  }

  predicate ClosesRaw(text: string, close: string, i: nat) { i + |close| <= |text| && text[i..i + |close|] == close }

  function RawClose(text: string, close: string, i: nat): (e: nat)
    requires i <= |text|
    ensures i <= e <= |text|
    decreases |text| - i
  {
    if i == |text| then i else if ClosesRaw(text, close, i) then i + |close| else RawClose(text, close, i + 1)
  }

  /** The end of a raw string that opens with the quote at i: after its close - at the end of its delimiter, where no
      parenthesis follows. */
  function RawEnd(text: string, i: nat): (e: nat)
    requires i < |text|
    ensures i < e <= |text|
  {
    var d := DelimiterEnd(text, i + 1, i + 1);
    if d < |text| && text[d] == '(' then RawClose(text, ")" + text[i + 1..d] + "\"", d + 1) else d
  }

  // ---- one character after the other ----

  function TokenAt(isIdent: IsIdent, text: string, i: nat): (t: Option<Token>)
    requires i < |text|
    ensures t.Some? ==> t.value.start == i < t.value.end <= |text|
  {
    var d := if i + 1 < |text| then text[i + 1] else '\0';
    if text[i] == '/' && d == '/' then AfterSlashes(text, i)
    else if text[i] == '/' && d == '*' then Some(Token(BlockComment, i, BlockEnd(text, i + 2)))
    else if text[i] == '"' then
      if IsRawStringOpen(isIdent, text, i) then Some(Token(RawString, i, RawEnd(text, i)))
      else match StringEnd(text, i + 1) case Some(e) => Some(Token(StringLiteral, i, e)) case None => None
    else if text[i] == '\'' && CharOpens(isIdent, text, i) then
      match CharEnd(text, i + 1, 0) case Some(e) => Some(Token(CharLiteral, i, e)) case None => None
    else None
  }

  function AfterSlashes(text: string, i: nat): (t: Option<Token>)
    requires i < |text| && text[i] == '/'
    ensures t.Some? && t.value.start == i < t.value.end <= |text|
  {
    Some(Token(LineComment, i, LineEnd(text, i)))
  }

  /** The tokens from i on. */
  function Tokens(isIdent: IsIdent, text: string, i: nat): seq<Token>
    requires i <= |text|
    decreases |text| - i
  {
    if i == |text| then []
    else
      match TokenAt(isIdent, text, i)
      case None => Tokens(isIdent, text, i + 1)
      case Some(t) => [t] + Tokens(isIdent, text, t.end)
  }

  // ---- what opens a literal, and what closes a comment, told by the text alone ----

  /** text[s..p) is the whole run of identifier characters that ends at p. */
  predicate IsWord(isIdent: IsIdent, text: string, s: nat, p: nat) {
    && s <= p <= |text| && (forall k :: s <= k < p ==> isIdent(text[k]))
    && (s == 0 || !isIdent(text[s - 1]))
  }

  lemma {:induction false} WordStart(isIdent: IsIdent, text: string, s: nat, p: nat)
    requires IsWord(isIdent, text, s, p)
    ensures RunStart(isIdent, text, p) == s
    decreases p
  {
    if s < p { WordStart(isIdent, text, s, p - 1); }
  }

  /** A quote opens a character literal where no identifier ends at it, or one that is an encoding prefix. */
  lemma CharOpensAfter(isIdent: IsIdent, text: string, s: nat, i: nat)
    requires IsWord(isIdent, text, s, i)
    ensures var word := text[s..i];
            CharOpens(isIdent, text, i) <==> word == "" || word == "L" || word == "u" || word == "U" || word == "u8"
  {
    WordStart(isIdent, text, s, i);
  }

  lemma SameWord(a: string, b: string, end: string)
    ensures a + end == b + end <==> a == b
  {
    assert (a + end)[..|a + end| - |end|] == a && (b + end)[..|b + end| - |end|] == b;
  }

  /** A double quote opens a raw string where the identifier that ends at it is R, after an encoding prefix or none. */
  lemma RawOpensAfter(isIdent: IsIdent, text: string, s: nat, i: nat)
    requires IsWord(isIdent, text, s, i) && isIdent('R')
    ensures var word := text[s..i];
            IsRawStringOpen(isIdent, text, i) <==>
            word == "R" || word == "u8R" || word == "uR" || word == "UR" || word == "LR"
  {
    var word := text[s..i];
    if i > 0 && text[i - 1] == 'R' {
      assert isIdent(text[i - 1]);
      assert IsWord(isIdent, text, s, i - 1);
      WordStart(isIdent, text, s, i - 1);
      assert word == text[s..i - 1] + "R";
      SameWord(text[s..i - 1], "u8", "R");
      SameWord(text[s..i - 1], "u", "R");
      SameWord(text[s..i - 1], "U", "R");
      SameWord(text[s..i - 1], "L", "R");
      assert "u8R" == "u8" + "R" && "uR" == "u" + "R" && "UR" == "U" + "R" && "LR" == "L" + "R";
    } else if s < i {
      assert word[|word| - 1] == text[i - 1];
    }
  }

  /** A block comment is open until the first place that closes one. */
  lemma {:induction false} BlockCloseIsFirst(text: string, i: nat)
    requires i <= |text|
    ensures var e := BlockClose(text, i);
            (e < |text| ==> ClosesBlock(text, e)) && forall k :: i <= k < e ==> !ClosesBlock(text, k)
    decreases |text| - i
  {
    if i < |text| && !ClosesBlock(text, i) { BlockCloseIsFirst(text, i + 1); }
  }

  lemma {:induction false} DelimiterIs(text: string, start: nat, k: nat, e: nat)
    requires start <= k <= e < |text| && e - start <= MAX_DELIMITER && text[e] == '('
    requires forall m :: k <= m < e ==> text[m] != '(' && text[m] != '\n'
    ensures DelimiterEnd(text, start, k) == e
    decreases e - k
  {
    if k < e { DelimiterIs(text, start, k + 1, e); }
  }

  lemma {:induction false} RawCloseIs(text: string, close: string, i: nat, e: nat)
    requires i <= e < |text| && ClosesRaw(text, close, e)
    requires forall k :: i <= k < e ==> !ClosesRaw(text, close, k)
    ensures RawClose(text, close, i) == e + |close|
    decreases e - i
  {
    if i < e { RawCloseIs(text, close, i + 1, e); }
  }

  /** A raw string ends at the first place that closes it with the delimiter it opened with. */
  lemma RawEndsAtItsClose(text: string, i: nat, d: string, e: nat)
    requires |d| <= MAX_DELIMITER && '(' !in d && '\n' !in d && i + 1 + |d| < e < |text|
    requires text[i + 1..i + 1 + |d|] == d && text[i + 1 + |d|] == '('
    requires var close := ")" + d + "\"";
             ClosesRaw(text, close, e) && forall k :: i + 2 + |d| <= k < e ==> !ClosesRaw(text, close, k)
    ensures RawEnd(text, i) == e + |d| + 2
  {
    var open := i + 1 + |d|;
    forall m | i + 1 <= m < open ensures text[m] != '(' && text[m] != '\n' {
      assert text[m] == text[i + 1..open][m - i - 1];
      assert text[m] in d;
    }
    DelimiterIs(text, i + 1, i + 1, open);
    RawCloseIs(text, ")" + d + "\"", open + 1, e);
  }

  /** A line comment ends with its line. */
  lemma {:induction false} LineEndIsFirst(text: string, i: nat)
    requires i <= |text|
    ensures var e := LineEnd(text, i);
            && (e < |text| ==> text[e] == '\n' || text[e] == '\r')
            && forall k :: i <= k < e ==> text[k] != '\n' && text[k] != '\r'
    decreases |text| - i
  {
    if i < |text| && text[i] != '\n' && text[i] != '\r' { LineEndIsFirst(text, i + 1); }
  }

  /** A quoted text, with a backslash before each quote and each backslash. */
  function Quoted(chars: string): string {
    if chars == "" then ""
    else (if chars[0] == '"' || chars[0] == '\\' then ['\\', chars[0]] else [chars[0]]) + Quoted(chars[1..])
  }

  /** A string literal ends at the quote that was not escaped. */
  lemma {:induction false} QuotedEnds(text: string, j: nat, chars: string)
    requires '\n' !in chars && '\r' !in chars
    requires j + |Quoted(chars)| < |text| && text[j..j + |Quoted(chars)|] == Quoted(chars)
    requires text[j + |Quoted(chars)|] == '"'
    ensures StringEnd(text, j) == Some(j + |Quoted(chars)| + 1)
    decreases |chars|
  {
    if chars != "" {
      var w := Quoted(chars);
      var n := |w| - |Quoted(chars[1..])|;
      assert text[j] == w[0] && (n == 2 ==> text[j + 1] == w[1]);
      assert chars[0] in chars;
      assert text[j + n..j + |w|] == w[n..] == Quoted(chars[1..]);
      QuotedEnds(text, j + n, chars[1..]);
    }
  }

  /** The digit separator of 1'000 opens nothing; the same quote after a space does. */
  lemma SeparatorOpensNothing(isIdent: IsIdent)
    requires isIdent('1') && isIdent('0') && !isIdent(' ') && !isIdent('\'')
    ensures TokenAt(isIdent, "1'000'", 1) == None
    ensures TokenAt(isIdent, " '000'", 1) == Some(Token(CharLiteral, 1, 6))
  {
    assert IsWord(isIdent, "1'000'", 0, 1) && IsWord(isIdent, " '000'", 1, 1);
    CharOpensAfter(isIdent, "1'000'", 0, 1);
    CharOpensAfter(isIdent, " '000'", 1, 1);
    assert CharEnd(" '000'", 5, 3) == Some(6);
    assert CharEnd(" '000'", 4, 2) == Some(6);
    assert CharEnd(" '000'", 3, 1) == Some(6);
  }

  // ---- places ----

  function After(p: Pos, c: char): Pos { if c == '\n' then Pos(p.line + 1, 0) else Pos(p.line, p.col + 1) }

  /** The place after stepping over text[from..to), from place p. */
  function Move(text: string, p: Pos, i: nat, to: nat): Pos
    requires i <= to <= |text|
    decreases |text| - i
  {
    if i == to then p else Move(text, After(p, text[i]), i + 1, to)
  }

  /** Where offset i of the text is. */
  function Place(text: string, i: nat): Pos
    requires i <= |text|
  {
    Move(text, Pos(0, 0), 0, i)
  }

  /** Where a token is taken to end: a character literal, on the line it starts on. */
  function TokenEnd(text: string, p: Pos, t: Token): Pos
    requires t.start <= t.end <= |text|
  {
    if t.kind == CharLiteral then Pos(p.line, p.col + (t.end - t.start)) else Move(text, p, t.start, t.end)
  }

  /** The spans of the tokens from offset i on, which is taken to be at p. */
  function Spans(isIdent: IsIdent, text: string, i: nat, p: Pos): seq<Span>
    requires i <= |text|
    decreases |text| - i
  {
    if i == |text| then []
    else
      match TokenAt(isIdent, text, i)
      case None => Spans(isIdent, text, i + 1, After(p, text[i]))
      case Some(t) => [Span(p, TokenEnd(text, p, t))] + Spans(isIdent, text, t.end, TokenEnd(text, p, t))
  }

  // ---- order ----

  predicate Before(p: Pos, q: Pos) { p.line < q.line || (p.line == q.line && p.col < q.col) }

  predicate NotAfter(p: Pos, q: Pos) { p == q || Before(p, q) }

  lemma {:induction false} MoveForward(text: string, p: Pos, i: nat, to: nat)
    requires i <= to <= |text|
    ensures i == to ==> Move(text, p, i, to) == p
    ensures i < to ==> Before(p, Move(text, p, i, to))
    decreases |text| - i
  {
    if i < to { MoveForward(text, After(p, text[i]), i + 1, to); }
  }

  lemma {:induction false} MoveTwice(text: string, p: Pos, i: nat, m: nat, to: nat)
    requires i <= m <= to <= |text|
    ensures Move(text, Move(text, p, i, m), m, to) == Move(text, p, i, to)
    decreases |text| - i
  {
    if i < m { MoveTwice(text, After(p, text[i]), i + 1, m, to); }
  }

  lemma TokenForward(text: string, p: Pos, t: Token)
    requires t.start < t.end <= |text|
    ensures Before(p, TokenEnd(text, p, t))
  {
    MoveForward(text, p, t.start, t.end);
  }

  /** Not empty, in order, and apart. */
  ghost predicate Sorted(spans: seq<Span>) {
    && (forall k :: 0 <= k < |spans| ==> Before(spans[k].start, spans[k].end))
    && forall k, m :: 0 <= k < m < |spans| ==> NotAfter(spans[k].end, spans[m].start)
  }

  lemma SortedOneMore(s: Span, rest: seq<Span>)
    requires Sorted(rest) && Before(s.start, s.end) && forall k :: 0 <= k < |rest| ==> NotAfter(s.end, rest[k].start)
    ensures Sorted([s] + rest)
  {}

  /** The spans are not empty, in order, and apart, wherever they are taken to start. */
  lemma {:induction false} SpansSorted(isIdent: IsIdent, text: string, i: nat, p: Pos)
    requires i <= |text|
    ensures Sorted(Spans(isIdent, text, i, p))
    ensures forall k :: 0 <= k < |Spans(isIdent, text, i, p)| ==> NotAfter(p, Spans(isIdent, text, i, p)[k].start)
    decreases |text| - i
  {
    hide TokenAt, TokenEnd, Sorted;
    if i == |text| {
      NoSpans();
    } else {
      match TokenAt(isIdent, text, i) {
        case None => SpansSorted(isIdent, text, i + 1, After(p, text[i]));
        case Some(t) =>
          TokenForward(text, p, t);
          SpansSorted(isIdent, text, t.end, TokenEnd(text, p, t));
          SortedOneMore(Span(p, TokenEnd(text, p, t)), Spans(isIdent, text, t.end, TokenEnd(text, p, t)));
      }
    }
  }

  lemma NoSpans()
    ensures Sorted([])
  {}

  // ---- true places ----

  function LinesBetween(text: string, i: nat, to: nat): nat
    requires i <= to <= |text|
    decreases |text| - i
  {
    if i == to then 0 else (if text[i] == '\n' then 1 else 0) + LinesBetween(text, i + 1, to)
  }

  lemma {:induction false} NoNewlineMove(text: string, p: Pos, i: nat, to: nat)
    requires i <= to <= |text| && LinesBetween(text, i, to) == 0
    ensures Move(text, p, i, to) == Pos(p.line, p.col + (to - i))
    decreases |text| - i
  {
    if i < to { NoNewlineMove(text, After(p, text[i]), i + 1, to); }
  }

  lemma {:induction false} MoveLines(text: string, p: Pos, i: nat, to: nat)
    requires i <= to <= |text|
    ensures Move(text, p, i, to).line == p.line + LinesBetween(text, i, to)
    decreases |text| - i
  {
    if i < to { MoveLines(text, After(p, text[i]), i + 1, to); }
  }

  /** The newlines that the character literals among some tokens hold. */
  function Lost(text: string, tokens: seq<Token>): nat
    requires forall t <- tokens :: t.start <= t.end <= |text|
  {
    if tokens == [] then 0
    else (if tokens[0].kind == CharLiteral then LinesBetween(text, tokens[0].start, tokens[0].end) else 0) +
         Lost(text, tokens[1..])
  }

  lemma {:induction false} TokensInside(isIdent: IsIdent, text: string, i: nat)
    requires i <= |text|
    ensures forall t <- Tokens(isIdent, text, i) :: i <= t.start < t.end <= |text|
    decreases |text| - i
  {
    hide TokenAt;
    if i < |text| {
      match TokenAt(isIdent, text, i) {
        case None => TokensInside(isIdent, text, i + 1);
        case Some(t) => TokensInside(isIdent, text, t.end);
      }
    }
  }

  lemma MoveOne(text: string, p: Pos, i: nat)
    requires i < |text|
    ensures Move(text, p, i, i + 1) == After(p, text[i])
  {}

  lemma PlaceMore(text: string, i: nat, to: nat)
    requires i <= to <= |text|
    ensures Place(text, to) == Move(text, Place(text, i), i, to)
  {
    MoveTwice(text, Pos(0, 0), 0, i, to);
  }

  /** The tokens from i on, each at its true place. */
  ghost predicate TruePlaces(text: string, tokens: seq<Token>, spans: seq<Span>) {
    |spans| == |tokens| && forall k :: 0 <= k < |tokens| ==>
      tokens[k].start <= tokens[k].end <= |text|
        && spans[k] == Span(Place(text, tokens[k].start), Place(text, tokens[k].end))
  }

  lemma NoTokens(text: string)
    ensures TruePlaces(text, [], [])
  {}

  lemma FirstLost(text: string, t: Token, rest: seq<Token>)
    requires forall x <- [t] + rest :: x.start <= x.end <= |text|
    requires Lost(text, [t] + rest) == 0
    ensures forall x <- rest :: x.start <= x.end <= |text|
    ensures Lost(text, rest) == 0 && (t.kind == CharLiteral ==> LinesBetween(text, t.start, t.end) == 0)
  {
    assert forall x <- rest :: x in [t] + rest;
    assert t in [t] + rest && ([t] + rest)[1..] == rest;
  }

  lemma EndIsTrue(text: string, t: Token)
    requires t.start <= t.end <= |text| && (t.kind == CharLiteral ==> LinesBetween(text, t.start, t.end) == 0)
    ensures TokenEnd(text, Place(text, t.start), t) == Place(text, t.end)
  {
    hide Place;
    PlaceMore(text, t.start, t.end);
    if t.kind == CharLiteral { NoNewlineMove(text, Place(text, t.start), t.start, t.end); }
  }

  lemma TrueOneMore(text: string, t: Token, tokens: seq<Token>, spans: seq<Span>)
    requires TruePlaces(text, tokens, spans) && t.start <= t.end <= |text|
    ensures TruePlaces(text, [t] + tokens, [Span(Place(text, t.start), Place(text, t.end))] + spans)
  {
    hide Place;
  }

  /** Where no character literal holds a newline, every span is where its token is. */
  lemma {:induction false} SpansTrue(isIdent: IsIdent, text: string, i: nat)
    requires i <= |text|
    requires forall t <- Tokens(isIdent, text, i) :: t.start <= t.end <= |text|
    requires Lost(text, Tokens(isIdent, text, i)) == 0
    ensures TruePlaces(text, Tokens(isIdent, text, i), Spans(isIdent, text, i, Place(text, i)))
    decreases |text| - i
  {
    hide TokenAt, Place, TruePlaces, TokenEnd, Lost;
    if i == |text| {
      assert TruePlaces(text, [], []) by { NoTokens(text); }
    } else {
      match TokenAt(isIdent, text, i) {
        case None =>
          PlaceMore(text, i, i + 1);
          MoveOne(text, Place(text, i), i);
          SpansTrue(isIdent, text, i + 1);
        case Some(t) =>
          var tokens := Tokens(isIdent, text, t.end);
          assert Tokens(isIdent, text, i) == [t] + tokens;
          FirstLost(text, t, tokens);
          EndIsTrue(text, t);
          SpansTrue(isIdent, text, t.end);
          TrueOneMore(text, t, tokens, Spans(isIdent, text, t.end, Place(text, t.end)));
      }
    }
  }

  /** Otherwise a span is that many lines too high: by the newlines that the character literals before it hold. */
  lemma {:induction false} LinesLost(isIdent: IsIdent, text: string, i: nat, p: Pos, k: nat)
    requires i <= |text| && k < |Tokens(isIdent, text, i)|
    requires forall t <- Tokens(isIdent, text, i) :: i <= t.start < t.end <= |text|
    ensures k < |Spans(isIdent, text, i, p)|
    ensures Spans(isIdent, text, i, p)[k].start.line + Lost(text, Tokens(isIdent, text, i)[..k]) ==
            p.line + LinesBetween(text, i, Tokens(isIdent, text, i)[k].start)
    decreases |text| - i
  {
    hide TokenAt, TokenEnd;
    var all := Tokens(isIdent, text, i);
    match TokenAt(isIdent, text, i) {
      case None =>
        TokensInside(isIdent, text, i + 1);
        LinesLost(isIdent, text, i + 1, After(p, text[i]), k);
      case Some(t) =>
        var rest := Tokens(isIdent, text, t.end);
        assert all == [t] + rest;
        if k > 0 {
          TokensInside(isIdent, text, t.end);
          LinesLost(isIdent, text, t.end, TokenEnd(text, p, t), k - 1);
          assert all[..k] == [t] + rest[..k - 1] && ([t] + rest[..k - 1])[1..] == rest[..k - 1];
          NewlinesSplit(text, i, t.end, rest[k - 1].start);
          EndLine(text, p, t);
        } else {
          assert all[..0] == [];
        }
    }
  }

  /** A character literal that holds a backslash and a newline, and then a comment, on the second line. */
  const SPLIT_LITERAL := "'\\\n'//"

  /** The comment's span is on the first line. */
  lemma SpanTooHigh(isIdent: IsIdent)
    ensures Tokens(isIdent, SPLIT_LITERAL, 0) == [Token(CharLiteral, 0, 4), Token(LineComment, 4, 6)]
    ensures Place(SPLIT_LITERAL, 4).line == 1
    ensures |Spans(isIdent, SPLIT_LITERAL, 0, Pos(0, 0))| == 2
    ensures Spans(isIdent, SPLIT_LITERAL, 0, Pos(0, 0))[1].start.line == 0
  {
    var text := SPLIT_LITERAL;
    assert CharEnd(text, 1, 0) == CharEnd(text, 3, 2) == Some(4);
    assert TokenAt(isIdent, text, 0) == Some(Token(CharLiteral, 0, 4));
    assert LineEnd(text, 4) == LineEnd(text, 5) == LineEnd(text, 6) == 6;
    assert TokenAt(isIdent, text, 4) == Some(Token(LineComment, 4, 6));
    assert Tokens(isIdent, text, 6) == [];
    assert Move(text, Pos(1, 0), 3, 4) == Pos(1, 1);
    assert Move(text, Pos(0, 2), 2, 4) == Pos(1, 1);
    assert Move(text, Pos(0, 0), 0, 4) == Move(text, Pos(0, 1), 1, 4) == Pos(1, 1);
  }

  lemma EndLine(text: string, p: Pos, t: Token)
    requires t.start <= t.end <= |text|
    ensures TokenEnd(text, p, t).line + (if t.kind == CharLiteral then LinesBetween(text, t.start, t.end) else 0) ==
            p.line + LinesBetween(text, t.start, t.end)
  {
    MoveLines(text, p, t.start, t.end);
  }

  lemma {:induction false} NewlinesSplit(text: string, i: nat, m: nat, to: nat)
    requires i <= m <= to <= |text|
    ensures LinesBetween(text, i, to) == LinesBetween(text, i, m) + LinesBetween(text, m, to)
    decreases |text| - i
  {
    if i < m { NewlinesSplit(text, i + 1, m, to); }
  }
}

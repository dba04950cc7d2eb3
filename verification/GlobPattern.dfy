/** What an ignore-file pattern means, with no matching order and no pruning in it: a pattern is a list of tokens, and
    it matches a text when the text can be cut into pieces, one for each token, that the tokens allow
    (section PATTERN FORMAT of gitignore(5)). */
module GlobPattern {
  import opened Common

  /** How characters compare: exactly, or after folding case with `lower` (any function that keeps '/' and NUL to
      themselves, as the invariant lower-casing does). */
  datatype Casing = Casing(ignoreCase: bool, lower: char -> char) {
    function Fold(c: char): char {
      if ignoreCase then lower(c) else c
    }

    ghost predicate Valid() {
      && (forall c {:trigger lower(c)} :: lower(c) == lower('/') ==> c == '/')
      && (forall c {:trigger lower(c)} :: lower(c) == lower('\0') ==> c == '\0')
    }
  }

  /** One thing a bracket expression lists. */
  datatype Item =
    | Single(c: char)                  // a character, compared folded
    | Bracket                          // a '[' that opened no POSIX class, compared exactly
    | Span(lo: char, hi: char)         // a range
    | Posix(name: string)              // a class such as [:digit:]

  datatype Token =
    | Lit(c: char)
    | Any                              // '?'
    | Class(negated: bool, items: seq<Item>)
    | Star                             // '*', or "**" that is not alone between slashes
    | StarStar                         // "**" alone at the end
    | Folders                          // "**/" alone between slashes
    | Bad                              // a bracket expression that is not closed or names an unknown class


  function At(s: string, i: nat): (c: char)
    ensures c != '\0' ==> i < |s|
  {
    if i < |s| then s[i] else '\0'
  }

  predicate IsLower(c: char) { 'a' <= c <= 'z' }

  predicate IsUpper(c: char) { 'A' <= c <= 'Z' }

  predicate IsDigit(c: char) { '0' <= c <= '9' }

  predicate IsAlnum(c: char) { IsLower(c) || IsUpper(c) || IsDigit(c) }

  /** Does the POSIX class hold the (folded) character? None for a name that is no class. */
  function ClassMatches(cs: Casing, name: string, c: char): Option<bool> {
    match name
    case "alnum" => Some(IsAlnum(c))
    case "alpha" => Some(IsLower(c) || IsUpper(c))
    case "blank" => Some(c == ' ' || c == '\t')
    case "cntrl" => Some(c < ' ' || c == 0x7f as char)
    case "digit" => Some(IsDigit(c))
    case "graph" => Some(' ' < c && c < 0x7f as char)
    case "lower" => Some(IsLower(c))
    case "print" => Some(' ' <= c && c < 0x7f as char)
    case "punct" => Some(' ' < c && c < 0x7f as char && !IsAlnum(c))
    case "space" => Some(c == ' ' || c == '\t' || c == '\n' || c == '\r' || c == 11 as char || c == 12 as char)
    case "upper" => Some(IsUpper(c) || (cs.ignoreCase && IsLower(c)))
    case "xdigit" => Some(IsDigit(c) || 'a' <= c <= 'f' || 'A' <= c <= 'F')
    case _ => None
  }

  // ---- bracket expressions ----

  predicate ItemHolds(cs: Casing, item: Item, c: char) {
    match item
    case Single(x) => cs.Fold(c) == cs.Fold(x)
    case Bracket => c == '['
    case Span(lo, hi) => lo <= c <= hi || (cs.ignoreCase && cs.Fold(lo) <= cs.Fold(c) <= cs.Fold(hi))
    case Posix(name) => ClassMatches(cs, name, cs.Fold(c)) == Some(true)
  }

  predicate SomeHolds(cs: Casing, items: seq<Item>, c: char) {
    exists k :: 0 <= k < |items| && ItemHolds(cs, items[k], c)
  }

  /** An item read from a bracket expression: what it lists, where the next one starts, and the character a range may
      start from there (NUL: none may). */
  datatype Read = Read(item: Item, next: nat, prev: char)

  /** First index from i on that holds a ']' or ends the pattern. */
  function CloseFrom(p: string, i: nat): (close: nat)
    ensures close >= i
    ensures close < |p| ==> p[close] == ']' || p[close] == '\0'
    decreases |p| - i
  {
    if At(p, i) == '\0' || At(p, i) == ']' then i else CloseFrom(p, i + 1)
  }

  /** The item at index i; None where the expression cannot be read any further. */
  function ReadItem(cs: Casing, p: string, i: nat, prev: char): (r: Option<Read>)
    ensures r.Some? ==> i < r.value.next && i < |p|
  {
    var c := At(p, i);
    if c == '\0' then None
    else if c == '\\' then
      var e := At(p, i + 1);
      if e == '\0' then None else Some(Read(Single(e), i + 2, e))
    else if c == '[' && At(p, i + 1) == ':' then
      var close := CloseFrom(p, i + 2);
      if close >= |p| then None
      else if close - 1 < i + 2 || p[close - 1] != ':' then Some(Read(Bracket, i + 1, '['))
      else
        var name := p[i + 2..close - 1];
        if ClassMatches(cs, name, 'a').None? then None else Some(Read(Posix(name), close + 1, '\0'))
    else if c == '-' && prev != '\0' && At(p, i + 1) != '\0' && At(p, i + 1) != ']' then
      var e := At(p, i + 1);
      if e != '\\' then Some(Read(Span(prev, e), i + 2, '\0'))
      else
        var f := At(p, i + 2);
        if f == '\0' then None else Some(Read(Span(prev, f), i + 3, '\0'))
    else Some(Read(Single(c), i + 1, c))
  }

  /** The items from index i up to the closing ']', and the index just after it. The first item is read even where it
      is a ']'. */
  function ReadItems(cs: Casing, p: string, i: nat, prev: char): (r: Option<(seq<Item>, nat)>)
    ensures r.Some? ==> i < r.value.1 <= |p| && r.value.0 != []
    decreases |p| - i
  {
    match ReadItem(cs, p, i, prev)
    case None => None
    case Some(Read(item, next, prev')) =>
      if At(p, next) == ']' then Some(([item], next + 1))
      else
        match ReadItems(cs, p, next, prev')
        case None => None
        case Some((items, end)) => Some(([item] + items, end))
  }

  predicate Negates(p: string, i: nat) { At(p, i) == '!' || At(p, i) == '^' }

  /** The token of the bracket expression that opens at p[0], and the index just after it. */
  function ReadClass(cs: Casing, p: string): (r: (Token, nat))
    requires p != "" && p[0] == '['
    ensures 0 < r.1 <= |p|
  {
    match ReadItems(cs, p, if Negates(p, 1) then 2 else 1, '\0')
    case None => (Bad, |p|)
    case Some((items, end)) => (Class(Negates(p, 1), items), end)
  }

  // ---- what a bracket expression says is what it lists ----

  /** An item as it may be written, every character escaped; the start of a range is the character written before it. */
  function Written(item: Item): string {
    match item
    case Single(c) => ['\\', c]
    case Bracket => "["
    case Span(_, hi) => ['-', '\\', hi]
    case Posix(name) => "[:" + name + ":]"
  }

  /** May an item be written after some character (NUL: after none that a range may start from)? */
  predicate Writable(cs: Casing, item: Item, prev: char) {
    match item
    case Single(c) => c != '\0'
    case Bracket => false
    case Span(lo, hi) => lo == prev != '\0' && hi != '\0'
    case Posix(name) => ClassMatches(cs, name, 'a').Some? && ']' !in name && '\0' !in name
  }

  function PrevAfter(item: Item): char { if item.Single? then item.c else '\0' }

  predicate AllWritable(cs: Casing, items: seq<Item>, prev: char) {
    items == [] || (Writable(cs, items[0], prev) && AllWritable(cs, items[1..], PrevAfter(items[0])))
  }

  function WrittenAll(items: seq<Item>): string {
    if items == [] then "" else Written(items[0]) + WrittenAll(items[1..])
  }

  lemma {:induction false} CloseIs(p: string, i: nat, name: string)
    requires i + |name| < |p| && p[i..i + |name|] == name && p[i + |name|] == ']'
    requires ']' !in name && '\0' !in name
    ensures CloseFrom(p, i) == i + |name|
    decreases |name|
  {
    if name != "" {
      assert p[i] == name[0] && name[0] in name;
      assert p[i + 1..i + 1 + |name[1..]|] == name[1..];
      CloseIs(p, i + 1, name[1..]);
    }
  }

  lemma PartOfPiece(p: string, i: nat, w: string, from: nat, to: nat)
    requires i + |w| <= |p| && p[i..i + |w|] == w && from <= to <= |w|
    ensures p[i + from..i + to] == w[from..to]
  {
    forall k | from <= k < to ensures p[i + from..i + to][k - from] == w[k] { assert p[i..i + |w|][k] == p[i + k]; }
  }

  lemma PosixReadsBack(cs: Casing, p: string, i: nat, prev: char, name: string)
    requires Writable(cs, Posix(name), prev) && i + |name| + 4 < |p| && p[i..i + |name| + 4] == "[:" + name + ":]"
    ensures ReadItem(cs, p, i, prev) == Some(Read(Posix(name), i + |name| + 4, '\0'))
  {
    hide ClassMatches;
    var w, inside := p[i..i + |name| + 4], name + ":";
    assert p[i] == w[0] == '[' && p[i + 1] == w[1] == ':';
    assert p[i + 2 + |name|] == w[2 + |name|] == ':' && p[i + 3 + |name|] == w[3 + |name|] == ']';
    PartOfPiece(p, i, w, 2, 3 + |name|);
    PartOfPiece(p, i, w, 2, 2 + |name|);
    assert w[2..3 + |name|] == inside && w[2..2 + |name|] == name;
    CloseIs(p, i + 2, inside);
  }

  lemma ItemReadsBack(cs: Casing, p: string, i: nat, prev: char, item: Item)
    requires Writable(cs, item, prev) && i + |Written(item)| < |p| && p[i..i + |Written(item)|] == Written(item)
    ensures ReadItem(cs, p, i, prev) == Some(Read(item, i + |Written(item)|, PrevAfter(item)))
  {
    hide ClassMatches, CloseFrom;
    var w := Written(item);
    match item
    case Single(c) => assert p[i] == w[0] && p[i + 1] == w[1];
    case Span(_, hi) => assert p[i] == w[0] && p[i + 1] == w[1] && p[i + 2] == w[2];
    case Posix(name) => PosixReadsBack(cs, p, i, prev, name);
  }

  lemma WrittenOpens(cs: Casing, items: seq<Item>, prev: char)
    requires items != [] && AllWritable(cs, items, prev)
    ensures WrittenAll(items) != ""
    ensures var c := WrittenAll(items)[0]; c != ']' && c != '!' && c != '^'
  {
    hide ClassMatches;
    assert WrittenAll(items)[0] == Written(items[0])[0];
  }

  /** A bracket expression that is written from its items is read as just these items, each range from its lower end to
      its upper one. */
  lemma {:induction false} ItemsReadBack(cs: Casing, p: string, i: nat, prev: char, items: seq<Item>)
    requires items != [] && AllWritable(cs, items, prev)
    requires i + |WrittenAll(items)| < |p| && p[i..i + |WrittenAll(items)|] == WrittenAll(items)
    requires p[i + |WrittenAll(items)|] == ']'
    ensures ReadItems(cs, p, i, prev) == Some((items, i + |WrittenAll(items)| + 1))
    decreases |items|
  {
    hide ClassMatches, ReadItem, Writable, Written;
    var first, rest := items[0], items[1..];
    var w, more := Written(first), WrittenAll(rest);
    var next, end := i + |w|, i + |w| + |more|;
    assert p[i..end] == w + more;
    assert p[i..next] == p[i..end][..|w|] == w;
    assert p[next..end] == p[i..end][|w|..] == more;
    ItemReadsBack(cs, p, i, prev, first);
    if rest == [] {
      assert items == [first];
    } else {
      WrittenOpens(cs, rest, PrevAfter(first));
      assert p[next] == more[0];
      ItemsReadBack(cs, p, next, PrevAfter(first), rest);
      assert items == [first] + rest;
    }
  }

  /** The same of the whole expression, negated or not: it is read as the class it was written from. */
  lemma ClassReadsBack(cs: Casing, negated: bool, items: seq<Item>, rest: string)
    requires items != [] && AllWritable(cs, items, '\0')
    ensures var body := (if negated then "[!" else "[") + WrittenAll(items) + "]";
            ReadClass(cs, body + rest) == (Class(negated, items), |body|)
  {
    hide ClassMatches, ReadItem, ReadItems, Writable, Written, AllWritable, WrittenAll;
    var open, w := if negated then "[!" else "[", WrittenAll(items);
    var p, i := open + w + "]" + rest, |open|;
    WrittenOpens(cs, items, '\0');
    assert p[..i] == open && p[i..i + |w|] == w && p[i + |w|] == ']';
    assert p[i] == w[0];
    assert negated ==> p[1] == open[1];
    ItemsReadBack(cs, p, i, '\0', items);
  }

  // ---- patterns ----

  function Stars(p: string): (n: nat)
    ensures n <= |p|
    ensures forall k :: 0 <= k < n ==> p[k] == '*'
    ensures n < |p| ==> p[n] != '*'
  {
    if p == "" || p[0] != '*' then 0 else 1 + Stars(p[1..])
  }

  /** The tokens of a pattern. atStart: it starts the whole pattern, or just after a slash. */
  function Parse(cs: Casing, p: string, atStart: bool): (tokens: seq<Token>)
    decreases |p|
  {
    if p == "" then []
    else if p[0] == '\\' then
      if |p| == 1 then [Lit('\0')] else [Lit(p[1])] + Parse(cs, p[2..], p[1] == '/')
    else if p[0] == '?' then [Any] + Parse(cs, p[1..], false)
    else if p[0] == '*' then
      var n := Stars(p);
      var rest := p[n..];
      if n >= 2 && atStart && At(rest, 0) == '\0' then [StarStar] + Parse(cs, rest, false)
      else if n >= 2 && atStart && At(rest, 0) == '/' then [Folders] + Parse(cs, rest[1..], true)
      else [Star] + Parse(cs, rest, false)
    else if p[0] == '[' then
      var (token, end) := ReadClass(cs, p);
      [token] + Parse(cs, p[end..], false)
    else [Lit(p[0])] + Parse(cs, p[1..], p[0] == '/')
  }

  // ---- meaning ----

  predicate SlashFree(s: string) { '/' !in s }

  /** May a token stand for this piece of text? */
  predicate Takes(cs: Casing, token: Token, s: string) {
    match token
    case Lit(c) => |s| == 1 && cs.Fold(s[0]) == cs.Fold(c)
    case Any => |s| == 1 && s[0] != '/'
    case Class(negated, items) => |s| == 1 && s[0] != '/' && SomeHolds(cs, items, s[0]) != negated
    case Star => SlashFree(s)
    case StarStar => true
    case Folders => s == "" || s[|s| - 1] == '/'
    case Bad => false
  }

  /** Can text[i..] be cut into one piece for each token? */
  ghost predicate MatchFrom(cs: Casing, tokens: seq<Token>, text: string, i: nat)
    requires i <= |text|
  {
    if tokens == [] then i == |text|
    else exists k :: i <= k <= |text| && Takes(cs, tokens[0], text[i..k]) && MatchFrom(cs, tokens[1..], text, k)
  }

  /** What it means for a pattern to match a text. */
  ghost predicate Matches(cs: Casing, p: string, text: string) {
    MatchFrom(cs, Parse(cs, p, true), text, 0)
  }
}

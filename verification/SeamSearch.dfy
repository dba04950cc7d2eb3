/** Searching through blocks where a cut had to split a line: what is reported occurs, and what occurs is reported, on
    its line, if it is no longer than a seam. */
module SeamSearch {
  import opened Utf8
  import opened Bloom
  import opened TextScan
  import opened ScanLaws
  import opened BlockIndexer
  import opened BlockSearch
  import opened BlockAgreement

  /** A text file whose blocks lie end to end, wherever they were cut. */
  ghost predicate Blocked(mix: Mix, file: seq<Byte>, bom: nat, blocks: seq<BlockEntry>) {
    && MarkOk(file, bom) && bom <= |file| && Valid(file[bom..])
    && Closed(mix, file, bom, blocks, |file|, true)
  }

  /** A query of one line, of three characters or more. */
  predicate Searchable(q: string) { OneLine(q) && |q| >= 3 }

  /** Where the tail that is scanned before a block starts inside a character, its first bytes decode to U+FFFD: a
      query that holds U+FFFD may then meet them. */
  predicate MeetsJunk(file: seq<Byte>, b: BlockEntry, q: string) {
    && REPLACEMENT in q && SEAM <= b.startByte <= |file| && MidLine(file, b.startByte)
    && IsTail(file[b.startByte - SEAM])
  }

  // ---- occurrences in texts that overlap ----

  lemma OccursWithin(a: string, c: string, q: string, i: nat)
    requires OccursAt(a, q, i)
    ensures OccursAt(a + c, q, i)
  {
    assert (a + c)[i..i + |q|] == a[i..i + |q|];
  }

  lemma OccursPrefix(a: string, c: string, q: string, i: nat)
    requires OccursAt(a + c, q, i) && i + |q| <= |a|
    ensures OccursAt(a, q, i)
  {
    assert (a + c)[i..i + |q|] == a[i..i + |q|];
  }

  /** The tail of a seam may start in the middle of a character: no occurrence starts there. */
  lemma NotInJunk(junk: string, rest: string, q: string, i: nat)
    requires q != "" && (junk == "" || REPLACEMENT !in q)
    requires (forall k :: 0 <= k < |junk| ==> junk[k] == REPLACEMENT) && OccursAt(junk + rest, q, i)
    ensures i >= |junk| && OccursAt(rest, q, i - |junk|)
  {
    assert (junk + rest)[i..i + |q|][0] == q[0];
    OccursLater(junk, rest, q, if i >= |junk| then i - |junk| else 0);
  }

  lemma {:induction false} NewlineFree(s: string)
    requires Newlines(s) == 0
    ensures '\n' !in s
  {
    if s != "" {
      NewlineFree(s[..|s| - 1]);
      assert s == s[..|s| - 1] + [s[|s| - 1]];
    }
  }

  lemma LinesIn(a: string, b: string, i: nat)
    requires i <= |a + b|
    ensures i <= |a| ==> Newlines((a + b)[..i]) == Newlines(a[..i])
    ensures i >= |a| ==> Newlines((a + b)[..i]) == Newlines(a) + Newlines(b[..i - |a|])
  {
    if i <= |a| { assert (a + b)[..i] == a[..i]; }
    if i >= |a| {
      assert (a + b)[..i] == a + b[..i - |a|];
      NewlinesAppend(a, b[..i - |a|]);
    }
  }

  lemma FreePrefix(a: string, i: nat)
    requires '\n' !in a && i <= |a|
    ensures Newlines(a[..i]) == 0 && Newlines(a) == 0
  {
    NoNewlines(a);
    NoNewlines(a[..i]);
  }

  lemma {:induction false} LineStartFree(s: string, i: nat)
    requires i <= |s| && Newlines(s[..i]) == 0
    ensures LineStart(s, i) == 0
    decreases i
  {
    if i > 0 {
      NewlinesUpTo(s, i - 1);
      LineStartFree(s, i - 1);
    }
  }

  /** Past a newline, a column does not depend on what came before the text. */
  lemma {:induction false} LineStartPast(x: string, b: string, j: nat)
    requires j <= |b| && Newlines(b[..j]) > 0
    ensures LineStart(x + b, |x| + j) == |x| + LineStart(b, j)
    decreases j
  {
    if j > 0 && b[j - 1] != '\n' {
      NewlinesUpTo(b, j - 1);
      LineStartPast(x, b, j - 1);
    }
  }

  // ---- a hit of a seam block is an occurrence ----

  /** A hit shown for an occurrence at p of the text: on its line, and in its column - or, on the line that a cut
      split, in the column counted from the cut, at least 1. */
  ghost predicate Shows(text: string, q: string, h: Hit, cutAt: nat, midLine: bool) {
    exists p: nat ::
      && OccursAt(text, q, p)
      && h.line == Place(text, p).line
      && (h.column == Place(text, p).column
          || (midLine && h.column == if p - cutAt + 1 > 1 then p - cutAt + 1 else 1))
  }

  lemma ShownAt(text: string, q: string, h: Hit, cutAt: nat, midLine: bool, p: nat)
    requires OccursAt(text, q, p) && h.line == Place(text, p).line
    requires h.column == Place(text, p).column
             || (midLine && h.column == if p - cutAt + 1 > 1 then p - cutAt + 1 else 1)
    ensures Shows(text, q, h, cutAt, midLine)
  {}

  /** The texts around a block that continues a line: before the seam's tail, the tail (the junk a split character
      leaves, and its whole characters), the block, and the rest. */
  datatype Around = Around(before: string, junk: string, tail: string, body: string, rest: string) {
    function Whole(): string { before + tail + body + rest }
    function Scanned(): string { junk + tail + body }
    function CutAt(): nat { |before| + |tail| }
    function Lines(): nat { Newlines(before + tail) }

    ghost predicate Valid() {
      (forall k :: 0 <= k < |junk| ==> junk[k] == REPLACEMENT) && '\n' !in tail
    }
  }

  lemma JunkIsOneLine(junk: string, tail: string)
    requires (forall k :: 0 <= k < |junk| ==> junk[k] == REPLACEMENT) && '\n' !in tail
    ensures '\n' !in junk + tail
  {}

  lemma SeamOccurs(t: Around, q: string, i: nat)
    requires t.Valid() && q != "" && (t.junk == "" || REPLACEMENT !in q) && OccursAt(t.Scanned(), q, i)
    ensures i >= |t.junk| && OccursAt(t.Whole(), q, |t.before| + i - |t.junk|)
  {
    assert t.Scanned() == t.junk + (t.tail + t.body);
    NotInJunk(t.junk, t.tail + t.body, q, i);
    OccursLater(t.before, t.tail + t.body, q, i - |t.junk|);
    OccursWithin(t.before + (t.tail + t.body), t.rest, q, |t.before| + i - |t.junk|);
    assert t.Whole() == t.before + (t.tail + t.body) + t.rest;
  }

  /** The lines before a place in the scanned text, and before the same place in the whole one. */
  lemma SeamLines(t: Around, i: nat)
    requires t.Valid() && |t.junk| <= i <= |t.Scanned()|
    ensures var p := |t.before| + i - |t.junk|;
            p <= |t.Whole()| && Newlines(t.Whole()[..p]) == t.Lines() + Newlines(t.Scanned()[..i])
    ensures i <= |t.junk + t.tail| ==> Newlines(t.Scanned()[..i]) == 0
  {
    var front := t.junk + t.tail;
    JunkIsOneLine(t.junk, t.tail);
    FreePrefix(front, if i <= |front| then i else 0);
    FreePrefix(t.tail, if i <= |front| then i - |t.junk| else 0);
    LinesIn(front, t.body, i);
    var p := |t.before| + i - |t.junk|;
    var a := t.before + t.tail;
    assert t.Whole() == a + (t.body + t.rest);
    LinesIn(a, t.body + t.rest, p);
    LinesIn(t.before, t.tail, if p <= |a| then p else 0);
    NewlinesAppend(t.before, t.tail);
    if p >= |a| { LinesIn(t.body, t.rest, p - |a|); }
  }

  lemma SeamHitShown(t: Around, q: string, i: nat, h: Hit)
    requires t.Valid() && q != "" && (t.junk == "" || REPLACEMENT !in q) && OccursAt(t.Scanned(), q, i)
    requires h in SeamHit(Shift(Place(t.Scanned(), i), t.Lines()), t.Lines() + 1, |t.junk + t.tail|, |q|)
    ensures Shows(t.Whole(), q, h, t.CutAt(), true)
  {
    SeamOccurs(t, q, i);
    SeamLines(t, i);
    var p := |t.before| + i - |t.junk|;
    if Newlines(t.Scanned()[..i]) == 0 {
      LineStartFree(t.Scanned(), i);
      ShownAt(t.Whole(), q, h, t.CutAt(), true, p);
    } else {
      SeamColumn(t, i);
      ShownAt(t.Whole(), q, h, t.CutAt(), true, p);
    }
  }

  lemma SeamColumn(t: Around, i: nat)
    requires t.Valid() && |t.junk| <= i <= |t.Scanned()| && Newlines(t.Scanned()[..i]) > 0
    ensures var p := |t.before| + i - |t.junk|;
            p <= |t.Whole()| && i - LineStart(t.Scanned(), i) == p - LineStart(t.Whole(), p)
  {
    SeamLines(t, i);
    var front, a := t.junk + t.tail, t.before + t.tail;
    var j := i - |front|;
    LinesIn(front, t.body, i);
    JunkIsOneLine(t.junk, t.tail);
    NoNewlines(front);
    LineStartPast(front, t.body, j);
    LineStartPast(a, t.body, j);
    LineStartEarlier(a + t.body, t.rest, |a| + j);
    assert t.Whole() == (a + t.body) + t.rest;
  }

  // ---- the texts around a block of the file ----

  /** Where the first character that starts at `from` or later starts. */
  lemma TailSplit(file: seq<Byte>, bom: nat, s: nat, from: nat) returns (s0: nat)
    requires bom <= from <= s <= |file| && Valid(file[bom..s])
    ensures from <= s0 <= s && Valid(file[bom..s0]) && Valid(file[s0..s])
    ensures forall i :: from <= i < s0 ==> IsTail(file[i])
  {
    hide Decode, Partial, Valid;
    var d := file[bom..from];
    assert file[bom..s] == d + file[from..s];
    var n := SplitPrefix(d, file[from..s]);
    assert d[..n] == file[bom..bom + n];
    Between(file, bom, bom + n, s);
    if n == |d| {
      s0 := from;
    } else {
      assert d[n..] == file[bom + n..from];
      s0 := SkipCharacter(file, bom + n, from, s);
      assert file[bom..s0] == file[bom..bom + n] + file[bom + n..s0];
      DecodeAppend(file[bom..bom + n], file[bom + n..s0]);
    }
  }

  lemma SkipCharacter(file: seq<Byte>, m: nat, from: nat, s: nat) returns (s0: nat)
    requires m < from <= s <= |file| && Valid(file[m..s]) && Partial(file[m..from])
    ensures from <= s0 <= s && Valid(file[m..s0]) && Valid(file[s0..s])
    ensures forall i :: from <= i < s0 ==> IsTail(file[i])
  {
    hide Decode, CodePoint;
    var rest := file[m..s];
    assert file[m..from][0] == rest[0];
    var k := SeqLen(rest[0]);
    SeqFits(rest);
    OneChar(rest);
    s0 := m + k;
    assert rest[k..] == file[s0..s] && rest[..k] == file[m..s0];
    assert forall i :: m < i < s0 ==> file[i] == rest[i - m];
  }

  lemma OneChar(b: seq<Byte>)
    requires Valid(b) && b != []
    ensures Valid(b[..SeqLen(b[0])]) && Valid(b[SeqLen(b[0])..])
  {
    assert b + [] == b;
    StartsPrefix(b, SeqLen(b[0]), []);
  }

  /** Between two boundaries there is text. */
  lemma Between(file: seq<Byte>, bom: nat, x: nat, y: nat)
    requires bom <= x <= y <= |file| && Valid(file[bom..x]) && Valid(file[bom..y])
    ensures Valid(file[x..y]) && Decode(file[bom..y]) == Decode(file[bom..x]) + Decode(file[x..y])
  {
    assert file[bom..y] == file[bom..x] + file[x..y];
    DecodeAppend(file[bom..x], file[x..y]);
  }

  lemma Onward(file: seq<Byte>, bom: nat, x: nat, y: nat)
    requires bom <= x <= y <= |file| && Valid(file[bom..x]) && Valid(file[x..y])
    ensures Valid(file[bom..y]) && Decode(file[bom..y]) == Decode(file[bom..x]) + Decode(file[x..y])
  {
    assert file[bom..y] == file[bom..x] + file[x..y];
    DecodeAppend(file[bom..x], file[x..y]);
  }

  ghost predicate IsAround(file: seq<Byte>, bom: nat, b: BlockEntry, s0: nat, t: Around) {
    && bom <= b.startByte - SEAM <= s0 <= b.startByte < b.endByte <= |file|
    && Valid(file[bom..s0]) && Valid(file[s0..b.startByte]) && Valid(file[b.startByte..b.endByte])
    && (forall i :: b.startByte - SEAM <= i < s0 ==> IsTail(file[i]))
    && t ==
       Around(Decode(file[bom..s0]), seq(s0 - (b.startByte - SEAM), _ => REPLACEMENT), Decode(file[s0..b.startByte]),
              Decode(file[b.startByte..b.endByte]), Decode(file[b.endByte..]))
  }

  lemma AroundText(file: seq<Byte>, bom: nat, b: BlockEntry, s0: nat, t: Around)
    requires MarkOk(file, bom) && IsAround(file, bom, b, s0, t) && NEWLINE !in file[b.startByte - SEAM..b.startByte]
    ensures t.Valid() && t.Whole() == Decode(file[bom..]) && t.Lines() == CountNewlines(file[..b.startByte])
    ensures Decode(Tail(file, b)) == t.junk + t.tail && Text(file, bom, b) == t.body
  {
    hide Decode, Valid, MarkOk;
    var s, e := b.startByte, b.endByte;
    Onward(file, bom, s0, s);
    Onward(file, bom, s, e);
    assert file[bom..] == file[bom..e] + file[e..];
    DecodeAppend(file[bom..e], file[e..]);
    DecodedNewlines(file[bom..s]);
    MarkHasNoNewline(file, bom, s);
    SeamTailText(file, s, s0);
  }

  lemma AroundBlock(mix: Mix, file: seq<Byte>, bom: nat, blocks: seq<BlockEntry>, i: nat) returns (s0: nat, t: Around)
    requires Blocked(mix, file, bom, blocks) && i < |blocks| && MidLine(file, blocks[i].startByte)
    ensures IsAround(file, bom, blocks[i], s0, t) && t.Valid()
    ensures t.Whole() == Decode(file[bom..]) && t.Lines() == CountNewlines(file[..blocks[i].startByte])
    ensures Decode(Tail(file, blocks[i])) == t.junk + t.tail && Text(file, bom, blocks[i]) == t.body
  {
    hide Decode, AdmitsText, Valid, Closed;
    var b := blocks[i];
    var s, e := b.startByte, b.endByte;
    BlockEnds(mix, file, bom, blocks, i);
    s0 := TailSplit(file, bom, s, s - SEAM);
    Between(file, bom, s, e);
    t := Around(Decode(file[bom..s0]), seq(s0 - (s - SEAM), _ => REPLACEMENT), Decode(file[s0..s]), Decode(file[s..e]),
                Decode(file[e..]));
    AroundText(file, bom, b, s0, t);
  }

  lemma SeamTailText(file: seq<Byte>, s: nat, s0: nat)
    requires SEAM <= s <= |file| && s - SEAM <= s0 <= s && Valid(file[s0..s])
    requires (forall i :: s - SEAM <= i < s0 ==> IsTail(file[i])) && NEWLINE !in file[s - SEAM..s]
    ensures Decode(file[s - SEAM..s]) == seq(s0 - (s - SEAM), _ => REPLACEMENT) + Decode(file[s0..s])
    ensures '\n' !in Decode(file[s0..s])
  {
    hide Decode;
    assert file[s - SEAM..s] == file[s - SEAM..s0] + file[s0..s];
    DecodeTails(file[s - SEAM..s0], file[s0..s]);
    DecodedNewlines(file[s0..s]);
    NoneToCount(file[s0..s]);
    NewlineFree(Decode(file[s0..s]));
  }

  /** A block of the file: where it ends, and that its ends split no character. */
  lemma BlockEnds(mix: Mix, file: seq<Byte>, bom: nat, blocks: seq<BlockEntry>, i: nat)
    requires Blocked(mix, file, bom, blocks) && i < |blocks|
    ensures var b := blocks[i];
            && b.startByte < b.endByte <= |file| && bom <= b.endByte && BlockOk(mix, file, bom, b)
            && Valid(file[bom..b.endByte])
            && b.endByte == StartOf(file, blocks, i + 1)
            && (i == 0 ==> b.startByte == 0)
            && (b.startByte > 0 ==> i > 0 && bom <= b.startByte && Valid(file[bom..b.startByte]))
            && (MidLine(file, b.startByte) ==>
               bom <= b.startByte - SEAM && blocks[i - 1].startByte <= b.startByte - SEAM)
  {
    hide Decode, AdmitsText;
    var b := blocks[i];
    assert b in blocks;
    assert file[bom..] + [] == file[bom..];
    assert TextSoFar(file, bom);
    if b.endByte == |file| { assert file[bom..b.endByte] == file[bom..]; }
    if i > 0 {
      assert blocks[i - 1] in blocks;
      assert blocks[i - 1].endByte == b.startByte;
    }
  }

  // ---- what is reported occurs ----

  lemma {:induction false} SeamHitsFrom(hits: seq<Hit>, startLine: int, tailChars: nat, len: nat, h: Hit)
      returns (k: nat)
    requires h in SeamHits(hits, startLine, tailChars, len)
    ensures k < |hits| && h in SeamHit(hits[k], startLine, tailChars, len)
    decreases |hits|
  {
    if h in SeamHit(hits[0], startLine, tailChars, len) {
      k := 0;
    } else {
      k := SeamHitsFrom(hits[1..], startLine, tailChars, len, h);
      k := k + 1;
    }
  }

  lemma {:induction false} SeamHitsHold(hits: seq<Hit>, startLine: int, tailChars: nat, len: nat, k: nat)
    requires k < |hits|
    ensures forall h <- SeamHit(hits[k], startLine, tailChars, len) :: h in SeamHits(hits, startLine, tailChars, len)
    decreases |hits|
  {
    if k > 0 { SeamHitsHold(hits[1..], startLine, tailChars, len, k - 1); }
  }

  /** How many characters of the text lie before a block. */
  function CharsBefore(file: seq<Byte>, bom: nat, b: BlockEntry): nat
    requires bom <= |file| && b.startByte <= |file|
  {
    if b.startByte <= bom then 0 else |Decode(file[bom..b.startByte])|
  }

  lemma ScanHit(text: string, q: string, lines: int, h: Hit) returns (i: nat)
    requires q != "" && h in Scan(text, q, lines)
    ensures OccursAt(text, q, i) && h == Shift(Place(text, i), lines)
  {
    var k :| 0 <= k < |Scan(text, q, lines)| && Scan(text, q, lines)[k] == h;
    GreedyOccurs(text, q, 0, k);
    i := Greedy(text, q, 0)[k];
  }

  lemma AlignedShown(mix: Mix, file: seq<Byte>, bom: nat, blocks: seq<BlockEntry>, i: nat, q: string, h: Hit)
    requires Blocked(mix, file, bom, blocks) && i < |blocks| && Searchable(q) && Aligned(file, blocks[i])
    requires var b := blocks[i];
             b.startByte < b.endByte <= |file| && Body(bom, b.startByte) <= b.endByte && h in BlockHits(file, bom, b, q)
    ensures Shows(Decode(file[bom..]), q, h, CharsBefore(file, bom, blocks[i]), false)
  {
    hide Decode, Valid, MarkOk, Scan, Place, OccursAt;
    BlockEnds(mix, file, bom, blocks, i);
    var b := blocks[i];
    var s, e := b.startByte, b.endByte;
    var body := Text(file, bom, b);
    var p := ScanHit(body, q, b.startLine - 1, h);
    var front := if s == 0 then "" else Decode(file[bom..s]);
    var rest := Decode(file[e..]);
    AlignedParts(file, bom, s, e);
    OccursWithin(body, rest, q, p);
    PlaceEarlier(body, rest, p);
    OccursLater(front, body + rest, q, p);
    PlaceLater(front, body + rest, p);
    ShownAt(Decode(file[bom..]), q, h, CharsBefore(file, bom, b), false, |front| + p);
  }

  lemma AlignedParts(file: seq<Byte>, bom: nat, s: nat, e: nat)
    requires MarkOk(file, bom) && s < e <= |file| && bom <= e && Body(bom, s) <= e && Valid(file[bom..e])
    requires s > 0 ==> bom <= s && Valid(file[bom..s]) && file[s - 1] == NEWLINE
    ensures var front := if s == 0 then "" else Decode(file[bom..s]);
            && EndsLine(front) && Newlines(front) == CountNewlines(file[..s])
            && Decode(file[bom..]) == front + (Decode(file[Body(bom, s)..e]) + Decode(file[e..]))
  {
    hide Decode, Starts;
    assert file[bom..] == file[bom..e] + file[e..];
    DecodeAppend(file[bom..e], file[e..]);
    if s > 0 {
      Between(file, bom, s, e);
      if bom < s { DecodedEnd(file[bom..s]); } else { NothingDecoded(); }
      DecodedNewlines(file[bom..s]);
      MarkHasNoNewline(file, bom, s);
    } else {
      assert file[..0] == [];
      assert "" + (Decode(file[bom..e]) + Decode(file[e..])) == Decode(file[bom..e]) + Decode(file[e..]);
    }
  }

  lemma NothingDecoded()
    ensures Decode([]) == ""
  {}

  lemma NoJunk(file: seq<Byte>, bom: nat, b: BlockEntry, s0: nat, t: Around, q: string)
    requires IsAround(file, bom, b, s0, t) && MidLine(file, b.startByte) && !MeetsJunk(file, b, q)
    ensures t.junk == "" || REPLACEMENT !in q
  {
    hide Decode, Valid;
    if s0 > b.startByte - SEAM { assert IsTail(file[b.startByte - SEAM]); }
  }

  lemma SeamShown(mix: Mix, file: seq<Byte>, bom: nat, blocks: seq<BlockEntry>, i: nat, q: string, h: Hit)
    requires Blocked(mix, file, bom, blocks) && i < |blocks| && Searchable(q) && MidLine(file, blocks[i].startByte)
    requires var b := blocks[i];
             && b.startByte < b.endByte <= |file| && Body(bom, b.startByte) <= b.endByte
                && h in BlockHits(file, bom, b, q)
             && !MeetsJunk(file, b, q)
    ensures Shows(Decode(file[bom..]), q, h, CharsBefore(file, bom, blocks[i]), true)
  {
    hide Decode, Valid, Scan, Place, OccursAt, Shows, SeamHit, Closed;
    var b := blocks[i];
    BlockEnds(mix, file, bom, blocks, i);
    var s0, t := AroundBlock(mix, file, bom, blocks, i);
    Onward(file, bom, s0, b.startByte);
    var scan := Scan(t.Scanned(), q, b.startLine - 1);
    var k := SeamHitsFrom(scan, b.startLine, |t.junk + t.tail|, |q|, h);
    var p := ScanHit(t.Scanned(), q, b.startLine - 1, scan[k]);
    NoJunk(file, bom, b, s0, t, q);
    SeamHitShown(t, q, p, h);
  }

  /** Every hit reported from a block, wherever it was cut, is shown for an occurrence in the text - where the query
      does not meet the first half of a split character. */
  lemma ReportedOccurs(mix: Mix, file: seq<Byte>, bom: nat, blocks: seq<BlockEntry>, i: nat, q: string, h: Hit)
    requires Blocked(mix, file, bom, blocks) && i < |blocks| && Searchable(q)
    requires Readable(file, bom, blocks[i]) && h in Taken(mix, file, bom, blocks[i], q)
    requires !MeetsJunk(file, blocks[i], q)
    ensures blocks[i].startByte <= |file|
    ensures Shows(Decode(file[bom..]), q, h, CharsBefore(file, bom, blocks[i]), MidLine(file, blocks[i].startByte))
  {
    hide Decode, Valid, Scan, Shows, Closed;
    BlockEnds(mix, file, bom, blocks, i);
    if Aligned(file, blocks[i]) {
      AlignedShown(mix, file, bom, blocks, i, q, h);
    } else {
      SeamShown(mix, file, bom, blocks, i, q, h);
    }
  }

  // ---- what occurs is reported ----

  /** The query's bytes are those of the file from x to y. */
  ghost predicate BytesAre(file: seq<Byte>, bom: nat, q: string, x: nat, y: nat) {
    bom <= x <= y <= |file| && Valid(file[bom..x]) && Valid(file[x..y]) && Decode(file[x..y]) == q
  }

  /** A hit on a line, among what the search takes from a block. */
  ghost predicate ReportedOn(mix: Mix, file: seq<Byte>, bom: nat, b: BlockEntry, q: string, line: int) {
    Readable(file, bom, b) && exists h :: h in Taken(mix, file, bom, b, q) && h.line == line
  }

  lemma OccursBetween(a: string, m: string, z: string)
    ensures OccursAt(a + m + z, m, |a|)
  {
    assert (a + m + z)[|a|..|a| + |m|] == m;
  }

  /** An occurrence in a text is on the line of some hit of its scan. */
  lemma ScanCovers(text: string, q: string, lines: int, j: nat) returns (k: nat, i: nat)
    requires OneLine(q) && OccursAt(text, q, j)
    ensures k < |Scan(text, q, lines)|
    ensures OccursAt(text, q, i) && i <= j < i + |q|
    ensures Scan(text, q, lines)[k] == Shift(Place(text, i), lines)
    ensures Scan(text, q, lines)[k].line == 1 + Newlines(text[..j]) + lines
  {
    hide OccursAt, LineStart;
    k := Covered(text, q, 0, j);
    i := Greedy(text, q, 0)[k];
    SameLine(text, q, i, j);
  }

  lemma AdmittedBy(mix: Mix, b: BlockEntry, text: string, q: string, i: nat)
    requires AdmitsText(mix, b.bloom, text) && OccursAt(text, q, i)
    ensures Admitted(mix, b, q)
  {
    hide Admits;
    NeverTurnedAway(mix, b.bloom, text, q, i);
  }

  lemma ReportedAligned(mix: Mix, file: seq<Byte>, bom: nat, b: BlockEntry, q: string, j: nat)
    requires BlockOk(mix, file, bom, b) && Body(bom, b.startByte) <= b.endByte && Aligned(file, b) && OneLine(q)
    requires OccursAt(Text(file, bom, b), q, j)
    ensures ReportedOn(mix, file, bom, b, q, b.startLine + Newlines(Text(file, bom, b)[..j]))
  {
    hide Decode, Scan, Place, OccursAt, Admitted, Admits;
    AdmittedBy(mix, b, Text(file, bom, b), q, j);
    var k, i := ScanCovers(Text(file, bom, b), q, b.startLine - 1, j);
    assert Scan(Text(file, bom, b), q, b.startLine - 1)[k] in Taken(mix, file, bom, b, q);
  }

  /** In a block that continues a line: a hit of the scan that does not lie wholly in the tail is reported on its
      line. */
  lemma ReportedSeam(mix: Mix, file: seq<Byte>, bom: nat, b: BlockEntry, q: string, t: Around, k: nat, i: nat)
    requires Readable(file, bom, b) && MidLine(file, b.startByte) && Admitted(mix, b, q) && Sized(b)
    requires t.Valid() && Decode(Tail(file, b)) == t.junk + t.tail && Text(file, bom, b) == t.body
    requires k < |Scan(t.Scanned(), q, b.startLine - 1)|
    requires OccursAt(t.Scanned(), q, i) && i + |q| > |t.junk + t.tail|
    requires Scan(t.Scanned(), q, b.startLine - 1)[k] == Shift(Place(t.Scanned(), i), b.startLine - 1)
    ensures ReportedOn(mix, file, bom, b, q, Scan(t.Scanned(), q, b.startLine - 1)[k].line)
  {
    hide Decode, Scan, Admitted, SeamHits, LineStart, Newlines;
    var scan := Scan(t.Scanned(), q, b.startLine - 1);
    SeamHitsHold(scan, b.startLine, |t.junk + t.tail|, |q|, k);
    if scan[k].line == b.startLine { LineStartFree(t.Scanned(), i); }
    assert |SeamHit(scan[k], b.startLine, |t.junk + t.tail|, |q|)| == 1;
    var h := SeamHit(scan[k], b.startLine, |t.junk + t.tail|, |q|)[0];
    assert h in BlockHits(file, bom, b, q);
  }

  /** Around an occurrence, the text is what its parts decode to. */
  lemma Parts(file: seq<Byte>, bom: nat, q: string, x: nat, y: nat, from: nat, to: nat)
    requires BytesAre(file, bom, q, x, y) && bom <= from <= x && y <= to <= |file| && Valid(file[bom..from])
    ensures Valid(file[from..x])
    ensures OccursAt(Decode(file[from..to]), q, |Decode(file[from..x])|)
    ensures Decode(file[from..to])[..|Decode(file[from..x])|] == Decode(file[from..x])
  {
    hide Decode, Valid, OccursAt;
    Between(file, bom, from, x);
    assert file[from..to] == file[from..x] + file[x..y] + file[y..to];
    DecodeThree(file[from..x], file[x..y], file[y..to]);
    OccursBetween(Decode(file[from..x]), q, Decode(file[y..to]));
  }

  lemma LinesTo(file: seq<Byte>, bom: nat, from: nat, x: nat)
    requires MarkOk(file, bom) && Body(bom, from) <= x <= |file| && Valid(file[Body(bom, from)..x])
    ensures CountNewlines(file[..x]) == CountNewlines(file[..from]) + Newlines(Decode(file[Body(bom, from)..x]))
  {
    hide Decode;
    DecodedNewlines(file[Body(bom, from)..x]);
    if from == 0 {
      MarkHasNoNewline(file, bom, x);
      assert file[..from] == [];
    } else {
      assert file[..x] == file[..from] + file[from..x];
      CountAppend(file[..from], file[from..x]);
    }
  }

  /** A query within a block is reported from it, on the line it is on. */
  lemma InsideReported(mix: Mix, file: seq<Byte>, bom: nat, blocks: seq<BlockEntry>, i: nat, q: string, x: nat, y: nat)
    requires Blocked(mix, file, bom, blocks) && i < |blocks| && Searchable(q) && BytesAre(file, bom, q, x, y)
    requires blocks[i].startByte <= x && y <= blocks[i].endByte
    ensures ReportedOn(mix, file, bom, blocks[i], q, 1 + CountNewlines(file[..x]))
  {
    hide Decode, Valid, Closed, MarkOk, OccursAt, Admits, ReportedOn;
    var b := blocks[i];
    BlockEnds(mix, file, bom, blocks, i);
    var from := Body(bom, b.startByte);
    StartIsText(file, bom, b.startByte);
    Parts(file, bom, q, x, y, from, b.endByte);
    var j := |Decode(file[from..x])|;
    LinesTo(file, bom, b.startByte, x);
    if Aligned(file, b) {
      ReportedAligned(mix, file, bom, b, q, j);
    } else {
      var s0, t := AroundBlock(mix, file, bom, blocks, i);
      AdmittedBy(mix, b, Text(file, bom, b), q, j);
      InsideSeam(mix, file, bom, b, q, t, j);
    }
  }

  lemma StartIsText(file: seq<Byte>, bom: nat, s: nat)
    requires bom <= |file| && (s > 0 ==> bom <= s <= |file| && Valid(file[bom..s]))
    ensures bom <= Body(bom, s) <= |file| && Valid(file[bom..Body(bom, s)])
  {
    if s == 0 { assert file[bom..bom] == []; }
  }

  lemma InsideSeam(mix: Mix, file: seq<Byte>, bom: nat, b: BlockEntry, q: string, t: Around, j: nat)
    requires Readable(file, bom, b) && MidLine(file, b.startByte) && Admitted(mix, b, q) && Sized(b) && Searchable(q)
    requires t.Valid() && Decode(Tail(file, b)) == t.junk + t.tail && Text(file, bom, b) == t.body
    requires OccursAt(t.body, q, j)
    ensures j <= |t.body| && ReportedOn(mix, file, bom, b, q, b.startLine + Newlines(t.body[..j]))
  {
    hide Decode, Scan, Place, Admitted, ReportedOn, Newlines;
    var front := t.junk + t.tail;
    OccursLater(front, t.body, q, j);
    var k, i := ScanCovers(t.Scanned(), q, b.startLine - 1, |front| + j);
    LinesIn(front, t.body, |front| + j);
    JunkIsOneLine(t.junk, t.tail);
    NoNewlines(front);
    ReportedSeam(mix, file, bom, b, q, t, k, i);
  }

  // ---- an occurrence across a cut ----

  lemma {:induction false} CharToByte(d: seq<Byte>, n: nat) returns (m: nat)
    requires Valid(d) && n <= |Decode(d)|
    ensures m <= |d| && Valid(d[..m]) && |Decode(d[..m])| == n
    decreases n
  {
    hide CodePoint;
    if n == 0 {
      m := 0;
    } else {
      var k := SeqLen(d[0]);
      OneChar(d);
      OneCharText(d);
      m := CharToByte(d[k..], n - 1);
      assert d[..k + m] == d[..k] + d[k..][..m];
      DecodeAppend(d[..k], d[k..][..m]);
      m := k + m;
    }
  }

  lemma OneCharText(d: seq<Byte>)
    requires Valid(d) && d != []
    ensures |Decode(d[..SeqLen(d[0])])| == 1
  {
    hide CodePoint;
    SeqFits(d);
    var c := d[..SeqLen(d[0])];
    assert forall i :: 0 <= i < |c| ==> c[i] == d[i];
    assert c[|c|..] == [];
    NothingDecoded();
  }

  /** An occurrence in the text of some bytes is one in the bytes. */
  lemma OccursInBytes(file: seq<Byte>, bom: nat, s0: nat, s: nat, q: string, i: nat) returns (x: nat, y: nat)
    requires bom <= s0 <= s <= |file| && Valid(file[bom..s0]) && Valid(file[s0..s])
             && OccursAt(Decode(file[s0..s]), q, i)
    ensures s0 <= x && y <= s && BytesAre(file, bom, q, x, y)
  {
    hide Decode, Valid, OccursAt, BytesAre;
    var d := file[s0..s];
    OccursLength(Decode(d), q, i);
    var m := CharToByte(d, i);
    var n := CharToByte(d, i + |q|);
    x, y := s0 + m, s0 + n;
    assert d[..m] == file[s0..x] && d[..n] == file[s0..y];
    BytesInOrder(file, s0, x, y);
    Slice(file, s0, s, x, y, q, i);
    Onward(file, bom, s0, x);
    BytesHere(file, bom, q, x, y);
  }

  lemma OccursLength(text: string, q: string, i: nat)
    requires OccursAt(text, q, i)
    ensures i + |q| <= |text|
  {}

  lemma BytesHere(file: seq<Byte>, bom: nat, q: string, x: nat, y: nat)
    requires bom <= x <= y <= |file| && Valid(file[bom..x]) && Valid(file[x..y]) && Decode(file[x..y]) == q
    ensures BytesAre(file, bom, q, x, y)
  {}

  lemma Slice(file: seq<Byte>, s0: nat, s: nat, x: nat, y: nat, q: string, i: nat)
    requires s0 <= x <= y <= s <= |file| && Valid(file[s0..x]) && Valid(file[s0..y])
    requires |Decode(file[s0..x])| == i && |Decode(file[s0..y])| == i + |q| && OccursAt(Decode(file[s0..s]), q, i)
    ensures Valid(file[x..y]) && Decode(file[x..y]) == q
  {
    hide Decode, Valid;
    assert file[s0..y] == file[s0..x] + file[x..y];
    DecodeAppend(file[s0..x], file[x..y]);
    assert file[s0..s] == file[s0..y] + file[y..s];
    DecodeAppend(file[s0..y], file[y..s]);
    var a, m, z := Decode(file[s0..x]), Decode(file[x..y]), Decode(file[y..s]);
    assert (a + m + z)[i..i + |q|] == m;
  }

  lemma BytesInOrder(file: seq<Byte>, s0: nat, x: nat, y: nat)
    requires s0 <= x <= |file| && s0 <= y <= |file| && Valid(file[s0..x]) && Valid(file[s0..y])
    requires |Decode(file[s0..x])| <= |Decode(file[s0..y])|
    ensures x <= y
  {
    hide Valid;
    if y < x {
      assert |Decode(file[y..x])| > 0;
      assert file[s0..x] == file[s0..y] + file[y..x];
      DecodeAppend(file[s0..y], file[y..x]);
    }
  }

  /** A query that crosses a cut: the cut is in the middle of a line, and the query starts in the seam's whole
      characters. */
  lemma CrossesSeam(file: seq<Byte>, bom: nat, q: string, x: nat, y: nat, s: nat)
    requires OneLine(q) && BytesAre(file, bom, q, x, y) && x < s < y
    ensures MidLine(file, s) && !IsTail(file[x]) && NEWLINE !in file[x..s]
  {
    hide Decode;
    DecodedNewlines(file[x..y]);
    NoNewlines(q);
    NoneCounted(file[x..y]);
    assert file[x..y][0] == file[x];
    assert file[x..y][s - 1 - x] == file[s - 1];
    assert file[x..s] == file[x..y][..s - x];
  }

  lemma {:induction false} NoneCounted(b: seq<Byte>)
    requires CountNewlines(b) == 0
    ensures NEWLINE !in b
  {
    if b != [] {
      NoneCounted(b[..|b| - 1]);
      assert b == b[..|b| - 1] + [b[|b| - 1]];
    }
  }

  lemma SameLineBytes(file: seq<Byte>, from: nat, x: nat, s: nat)
    requires from <= x <= s <= |file| && NEWLINE !in file[from..s]
    ensures CountNewlines(file[..x]) == CountNewlines(file[..s])
  {
    assert file[..s] == file[..x] + file[x..s];
    CountAppend(file[..x], file[x..s]);
    assert file[x..s] == file[from..s][x - from..];
    NoneToCount(file[x..s]);
  }

  /** The filter of the block after a cut admits a query that crosses it. */
  lemma CrossingAdmitted(mix: Mix, file: seq<Byte>, bom: nat, b: BlockEntry, q: string, x: nat, y: nat, s0: nat,
      t: Around)
    requires BlockOk(mix, file, bom, b) && MidLine(file, b.startByte) && IsAround(file, bom, b, s0, t)
    requires BytesAre(file, bom, q, x, y) && s0 <= x <= b.startByte < y <= b.endByte && y - x <= SEAM
    ensures Admitted(mix, b, q) && Readable(file, bom, b) && Sized(b)
  {
    hide Decode, Valid, OccursAt, Admitted, Admits;
    var s := b.startByte;
    var to := s + Min(b.endByte - s, SEAM);
    Parts(file, bom, q, x, y, s0, to);
    assert file[s - SEAM..to] == file[s - SEAM..s0] + file[s0..to];
    DecodeTails(file[s - SEAM..s0], file[s0..to]);
    var junk := seq(s0 - (s - SEAM), _ => REPLACEMENT);
    OccursLater(junk, Decode(file[s0..to]), q, |Decode(file[s0..x])|);
    AdmittedBy(mix, b, Decode(file[s - SEAM..to]), q, |junk| + |Decode(file[s0..x])|);
  }

  /** Where a query that crosses a cut occurs in what is scanned after it. */
  lemma CrossingOccurs(file: seq<Byte>, bom: nat, b: BlockEntry, q: string, x: nat, y: nat, s0: nat, t: Around)
    returns (j: nat)
    requires IsAround(file, bom, b, s0, t)
    requires BytesAre(file, bom, q, x, y) && s0 <= x <= b.startByte < y <= b.endByte
    ensures OccursAt(t.Scanned(), q, j) && j <= |t.junk + t.tail|
  {
    hide Decode, Valid, OccursAt;
    var s, e := b.startByte, b.endByte;
    Parts(file, bom, q, x, y, s0, e);
    j := |t.junk| + |Decode(file[s0..x])|;
    assert t.tail + t.body == Decode(file[s0..e]) by {
      assert file[s0..e] == file[s0..s] + file[s..e];
      DecodeAppend(file[s0..s], file[s..e]);
    }
    OccursLater(t.junk, t.tail + t.body, q, |Decode(file[s0..x])|);
    assert t.Scanned() == t.junk + (t.tail + t.body);
    assert |Decode(file[s0..x])| <= |t.tail| by {
      assert file[s0..s] == file[s0..x] + file[x..s];
      DecodeAppend(file[s0..x], file[x..s]);
    }
  }

  /** A query that crosses a cut is reported: from the block after it, or - when the scan of that block shows an
      overlapping occurrence that lies before the cut - from the block before it, on the same line. */
  lemma CrossingReported(mix: Mix, file: seq<Byte>, bom: nat, blocks: seq<BlockEntry>, i: nat, q: string,
      x: nat, y: nat)
    requires Blocked(mix, file, bom, blocks) && i < |blocks| && Searchable(q) && BytesAre(file, bom, q, x, y)
    requires x < blocks[i].startByte < y <= blocks[i].endByte && y - x <= SEAM
    requires !MeetsJunk(file, blocks[i], q)
    ensures exists k :: 0 <= k < |blocks| && ReportedOn(mix, file, bom, blocks[k], q, 1 + CountNewlines(file[..x]))
  {
    hide Decode, Valid, Closed, MarkOk, OccursAt, Admits, ReportedOn, Scan, Place, Admitted, AdmitsText;
    var s := blocks[i].startByte;
    BlockEnds(mix, file, bom, blocks, i);
    CrossesSeam(file, bom, q, x, y, s);
    var s0, t := AroundBlock(mix, file, bom, blocks, i);
    assert s0 <= x;
    SameLineBytes(file, s - SEAM, x, s);
    CrossingAdmitted(mix, file, bom, blocks[i], q, x, y, s0, t);
    var j := CrossingOccurs(file, bom, blocks[i], q, x, y, s0, t);
    NoJunk(file, bom, blocks[i], s0, t, q);
    ScannedCrossing(mix, file, bom, blocks, i, q, s0, t, j);
  }

  lemma ScannedCrossing(mix: Mix, file: seq<Byte>, bom: nat, blocks: seq<BlockEntry>, i: nat, q: string, s0: nat,
      t: Around, j: nat)
    requires Blocked(mix, file, bom, blocks) && 0 < i < |blocks| && Searchable(q) && MidLine(file, blocks[i].startByte)
    requires BlockOk(mix, file, bom, blocks[i]) && IsAround(file, bom, blocks[i], s0, t) && t.Valid()
    requires Readable(file, bom, blocks[i]) && Sized(blocks[i]) && Admitted(mix, blocks[i], q)
    requires Decode(Tail(file, blocks[i])) == t.junk + t.tail && Text(file, bom, blocks[i]) == t.body
    requires OccursAt(t.Scanned(), q, j) && j <= |t.junk + t.tail| && (t.junk == "" || REPLACEMENT !in q)
    ensures exists k :: 0 <= k < |blocks| &&
              ReportedOn(mix, file, bom, blocks[k], q, 1 + CountNewlines(file[..blocks[i].startByte]))
  {
    hide Decode, Valid, Closed, MarkOk, OccursAt, Admits, ReportedOn, Scan, Place, Admitted, AdmitsText, IsAround,
         Readable;
    var b := blocks[i];
    var n, p := ScanCovers(t.Scanned(), q, b.startLine - 1, j);
    if p + |q| > |t.junk + t.tail| {
      OnCutLine(t, j);
      ReportedSeam(mix, file, bom, b, q, t, n, p);
    } else {
      BeforeTheCut(mix, file, bom, blocks, i, q, s0, t, p);
    }
  }

  lemma OnCutLine(t: Around, j: nat)
    requires t.Valid() && j <= |t.junk + t.tail|
    ensures Newlines(t.Scanned()[..j]) == 0
  {
    JunkIsOneLine(t.junk, t.tail);
    FreePrefix(t.junk + t.tail, j);
    assert t.Scanned()[..j] == (t.junk + t.tail)[..j];
  }

  lemma BeforeTheCut(mix: Mix, file: seq<Byte>, bom: nat, blocks: seq<BlockEntry>, i: nat, q: string, s0: nat,
      t: Around, p: nat)
    requires Blocked(mix, file, bom, blocks) && 0 < i < |blocks| && Searchable(q) && MidLine(file, blocks[i].startByte)
    requires IsAround(file, bom, blocks[i], s0, t) && t.Valid()
    requires OccursAt(t.Scanned(), q, p) && p + |q| <= |t.junk + t.tail| && (t.junk == "" || REPLACEMENT !in q)
    ensures ReportedOn(mix, file, bom, blocks[i - 1], q, 1 + CountNewlines(file[..blocks[i].startByte]))
  {
    hide Decode, Valid, Closed, MarkOk, ReportedOn, Admits, AdmitsText;
    var s := blocks[i].startByte;
    BlockEnds(mix, file, bom, blocks, i);
    BlockEnds(mix, file, bom, blocks, i - 1);
    OccursPrefix(t.junk + t.tail, t.body, q, p);
    NotInJunk(t.junk, t.tail, q, p);
    var x, y := OccursInBytes(file, bom, s0, s, q, p - |t.junk|);
    SameLineBytes(file, s - SEAM, x, s);
    InsideReported(mix, file, bom, blocks, i - 1, q, x, y);
  }

  /** The block a place in the file is in. */
  lemma {:induction false} BlockWith(blocks: seq<BlockEntry>, n: nat, y: nat) returns (i: nat)
    requires 0 < n <= |blocks| && Tiles(blocks, blocks[|blocks| - 1].endByte) && 0 < y <= blocks[n - 1].endByte
    ensures i < |blocks| && blocks[i].startByte < y <= blocks[i].endByte
    decreases n
  {
    if blocks[n - 1].startByte < y {
      i := n - 1;
    } else {
      i := BlockWith(blocks, n - 1, y);
    }
  }

  /** A query that occurs anywhere in the file, across a cut too, in no more bytes than a seam has, is reported from
      some block on its line - where it crosses no cut before which it meets the first half of a split character. */
  lemma OccurrenceReported(mix: Mix, file: seq<Byte>, bom: nat, blocks: seq<BlockEntry>, q: string, x: nat, y: nat)
    requires Blocked(mix, file, bom, blocks) && Searchable(q) && BytesAre(file, bom, q, x, y) && y - x <= SEAM
    requires forall b <- blocks :: x < b.startByte < y ==> !MeetsJunk(file, b, q)
    ensures exists i :: 0 <= i < |blocks| && ReportedOn(mix, file, bom, blocks[i], q, 1 + CountNewlines(file[..x]))
  {
    hide Decode, Valid, MarkOk, BlockOk, ReportedOn;
    NothingDecoded();
    assert x < y;
    var i := BlockWith(blocks, |blocks|, y);
    if blocks[i].startByte <= x {
      InsideReported(mix, file, bom, blocks, i, q, x, y);
    } else {
      CrossingReported(mix, file, bom, blocks, i, q, x, y);
    }
  }
}

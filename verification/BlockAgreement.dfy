/** Searching a file through its blocks shows what scanning all of it would. */
module BlockAgreement {
  import opened Utf8
  import opened Bloom
  import opened TextScan
  import opened ScanLaws
  import opened BlockIndexer
  import opened BlockSearch

  // ---- newlines, as bytes and as characters ----

  lemma OnlyNewline(b: seq<Byte>)
    requires Starts(b)
    ensures CodePoint(b) == 10 <==> b[0] == NEWLINE
    ensures b[0] == NEWLINE ==> SeqLen(b[0]) == 1
    ensures forall i :: 1 <= i < SeqLen(b[0]) ==> b[i] != NEWLINE
  {}

  lemma FirstNewlines(b: seq<Byte>)
    requires Starts(b)
    ensures CountNewlines(b[..SeqLen(b[0])]) == if CodePoint(b) == 10 then 1 else 0
  {
    OnlyNewline(b);
    var c := b[..SeqLen(b[0])];
    CountOf(c);
  }

  lemma {:induction false} CountOf(c: seq<Byte>)
    requires c != [] && forall i :: 1 <= i < |c| ==> c[i] != NEWLINE
    ensures CountNewlines(c) == if c[0] == NEWLINE then 1 else 0
    decreases |c|
  {
    if |c| > 1 { CountOf(c[..|c| - 1]); } else { assert c[..0] == []; }
  }

  lemma NewlinesCons(c: char, rest: string)
    ensures Newlines([c] + rest) == Newlines(rest) + if c == '\n' then 1 else 0
  {
    NewlinesAppend([c], rest);
    assert [c][..0] == "";
  }

  lemma CountFirst(b: seq<Byte>)
    requires Starts(b)
    ensures CountNewlines(b) == CountNewlines(b[SeqLen(b[0])..]) + if CodePoint(b) == 10 then 1 else 0
  {
    hide CodePoint;
    var n := SeqLen(b[0]);
    FirstNewlines(b);
    CountAppend(b[..n], b[n..]);
    assert b == b[..n] + b[n..];
  }

  lemma {:induction false} DecodedNewlines(b: seq<Byte>)
    requires Valid(b)
    ensures Newlines(Decode(b)) == CountNewlines(b)
    decreases |b|
  {
    if b != [] {
      hide Starts, CodePoint, SeqLen;
      var rest := b[SeqLen(b[0])..];
      CountFirst(b);
      DecodedNewlines(rest);
      NewlinesCons(CodePoint(b) as char, Decode(rest));
    }
  }

  lemma {:induction false} DecodedEnd(b: seq<Byte>)
    requires Valid(b) && b != [] && b[|b| - 1] == NEWLINE
    ensures EndsLine(Decode(b))
    decreases |b|
  {
    hide Starts, CodePoint;
    var n := SeqLen(b[0]);
    SeqFits(b);
    if n < |b| {
      DecodedEnd(b[n..]);
      assert Decode(b[n..]) != "";
    } else {
      OnlyNewline(b);
      assert b[|b| - 1] == NEWLINE;
    }
  }

  lemma SeqFits(b: seq<Byte>)
    requires Starts(b)
    ensures SeqLen(b[0]) <= |b|
  {}

  // ---- one block ----

  /** A filter turns no query away that is in a text whose trigrams it admits. */
  lemma NeverTurnedAway(mix: Mix, bits: seq<bv8>, text: string, q: string, i: nat)
    requires AdmitsText(mix, bits, text) && OccursAt(text, q, i)
    ensures forall j :: 0 <= j <= |q| - 3 ==> Admits(mix, bits, BLOOM_K, KeyAt(q, j))
  {
    hide Admits;
    forall j | 0 <= j <= |q| - 3 ensures KeyAt(q, j) == KeyAt(text, i + j) {
      var window := text[i..i + |q|];
      assert window[j] == q[j] && window[j + 1] == q[j + 1] && window[j + 2] == q[j + 2];
    }
  }

  /** The block is what a block of the file must be, and it starts a line. */
  ghost predicate GoodBlock(mix: Mix, file: seq<Byte>, bom: nat, b: BlockEntry) {
    BlockOk(mix, file, bom, b) && Body(bom, b.startByte) <= b.endByte && Aligned(file, b)
  }

  lemma TakenIsScan(mix: Mix, file: seq<Byte>, bom: nat, b: BlockEntry, q: string)
    requires GoodBlock(mix, file, bom, b) && |q| >= 3
    ensures Readable(file, bom, b)
    ensures Taken(mix, file, bom, b, q) == Scan(Text(file, bom, b), q, CountNewlines(file[..b.startByte]))
  {
    hide Scan, Admits, Decode;
    var text := Text(file, bom, b);
    if !Admitted(mix, b, q) {
      forall i: nat ensures !OccursAt(text, q, i) {
        if OccursAt(text, q, i) { NeverTurnedAway(mix, b.bloom, text, q, i); }
      }
      NoHits(text, q, CountNewlines(file[..b.startByte]));
    }
  }

  // ---- all the blocks ----

  /** Where block i starts; past the last one, the end of the file. */
  function StartOf(file: seq<Byte>, blocks: seq<BlockEntry>, i: nat): nat
    requires i <= |blocks|
  {
    if i < |blocks| then blocks[i].startByte else |file|
  }

  /** A text file whose blocks lie end to end, all of them cut between two lines. */
  ghost predicate Indexed(mix: Mix, file: seq<Byte>, bom: nat, blocks: seq<BlockEntry>) {
    && MarkOk(file, bom) && bom <= |file| && Valid(file[bom..])
    && Closed(mix, file, bom, blocks, |file|, true)
    && forall b <- blocks :: Aligned(file, b)
  }

  lemma IndexedBlock(mix: Mix, file: seq<Byte>, bom: nat, blocks: seq<BlockEntry>, i: nat)
    requires Indexed(mix, file, bom, blocks) && i < |blocks|
    ensures GoodBlock(mix, file, bom, blocks[i]) && blocks[i].endByte == StartOf(file, blocks, i + 1) <= |file|
    ensures Valid(file[Body(bom, blocks[i].startByte)..blocks[i].endByte])
    ensures i + 1 < |blocks| ==> file[blocks[i].endByte - 1] == NEWLINE
    ensures bom <= blocks[i].endByte && 0 < blocks[i].endByte
  {
    hide BlockOk, Decode, Valid;
    var b := blocks[i];
    BlockBounds(mix, file, bom, b);
    assert b in blocks;
    if i + 1 < |blocks| { assert blocks[i + 1] in blocks; }
    EndIsBoundary(mix, file, bom, blocks, i);
    if i > 0 {
      EndIsBoundary(mix, file, bom, blocks, i - 1);
      ValidPiece(file, bom, b.startByte, b.endByte);
    }
  }

  lemma ValidPiece(file: seq<Byte>, bom: nat, s: nat, e: nat)
    requires bom <= s <= e <= |file| && Valid(file[bom..s]) && Valid(file[bom..e])
    ensures Valid(file[s..e])
  {
    hide Valid, Decode;
    assert file[bom..e] == file[bom..s] + file[s..e];
    DecodeAppend(file[bom..s], file[s..e]);
  }

  lemma EndIsBoundary(mix: Mix, file: seq<Byte>, bom: nat, blocks: seq<BlockEntry>, i: nat)
    requires Indexed(mix, file, bom, blocks) && i < |blocks|
    ensures bom <= blocks[i].endByte <= |file| && 0 < blocks[i].endByte && Valid(file[bom..blocks[i].endByte])
  {
    hide BlockOk, Decode;
    BlockBounds(mix, file, bom, blocks[i]);
    assert file[bom..] + [] == file[bom..];
    assert TextSoFar(file, bom);
    assert blocks[i] in blocks;
    if blocks[i].endByte == |file| { assert file[bom..blocks[i].endByte] == file[bom..]; }
  }

  lemma MarkHasNoNewline(file: seq<Byte>, bom: nat, e: nat)
    requires MarkOk(file, bom) && bom <= e <= |file|
    ensures CountNewlines(file[..e]) == CountNewlines(file[bom..e])
  {
    assert file[..e] == file[..bom] + file[bom..e];
    CountAppend(file[..bom], file[bom..e]);
    NoneToCount(file[..bom]);
  }

  lemma {:induction false} NoneToCount(b: seq<Byte>)
    requires forall i :: 0 <= i < |b| ==> b[i] != NEWLINE
    ensures CountNewlines(b) == 0
  {
    if b != [] { NoneToCount(b[..|b| - 1]); }
  }

  /** The lines before the next block: those before this one, and those in it. */
  lemma LinesAdd(file: seq<Byte>, bom: nat, s: nat, e: nat)
    requires MarkOk(file, bom) && s < e <= |file| && Body(bom, s) <= e
    requires Valid(file[Body(bom, s)..e])
    ensures CountNewlines(file[..e]) == CountNewlines(file[..s]) + Newlines(Decode(file[Body(bom, s)..e]))
  {
    DecodedNewlines(file[Body(bom, s)..e]);
    if s == 0 {
      MarkHasNoNewline(file, bom, e);
      assert file[..s] == [];
    } else {
      assert file[..e] == file[..s] + file[s..e];
      CountAppend(file[..s], file[s..e]);
    }
  }

  /** What is left of the file from block i on. */
  function From(file: seq<Byte>, bom: nat, s: nat): string
    requires Body(bom, s) <= |file|
  {
    Decode(file[Body(bom, s)..])
  }

  lemma ScanSplitAt(file: seq<Byte>, bom: nat, s: nat, e: nat, q: string)
    requires MarkOk(file, bom) && OneLine(q) && s < e <= |file| && Body(bom, s) <= e
    requires Valid(file[Body(bom, s)..e]) && (e == |file| || file[e - 1] == NEWLINE)
    ensures Scan(From(file, bom, s), q, CountNewlines(file[..s])) ==
            Scan(Decode(file[Body(bom, s)..e]), q, CountNewlines(file[..s])) +
            Scan(From(file, bom, e), q, CountNewlines(file[..e]))
  {
    hide Scan, EndsLine, OneLine, Valid, Decode, Newlines, CountNewlines, MarkOk;
    var a, z := file[Body(bom, s)..e], file[e..];
    assert file[Body(bom, s)..] == a + z;
    DecodeAppend(a, z);
    LinesAdd(file, bom, s, e);
    TextEndsLine(a, z, e < |file|);
    ScanTwo(Decode(a), Decode(z), q, CountNewlines(file[..s]));
  }

  lemma ScanSplit(mix: Mix, file: seq<Byte>, bom: nat, blocks: seq<BlockEntry>, i: nat, q: string)
    requires Indexed(mix, file, bom, blocks) && i < |blocks| && OneLine(q)
    ensures var s, e := blocks[i].startByte, StartOf(file, blocks, i + 1);
            && Body(bom, s) <= e <= |file| && Body(bom, e) == e
            && Scan(From(file, bom, s), q, CountNewlines(file[..s])) ==
               Scan(Decode(file[Body(bom, s)..e]), q, CountNewlines(file[..s])) +
               Scan(From(file, bom, e), q, CountNewlines(file[..e]))
  {
    hide Scan, GoodBlock, Closed, Decode, From;
    IndexedBlock(mix, file, bom, blocks, i);
    GoodBounds(mix, file, bom, blocks[i]);
    ScanSplitAt(file, bom, blocks[i].startByte, blocks[i].endByte, q);
  }

  lemma GoodBounds(mix: Mix, file: seq<Byte>, bom: nat, b: BlockEntry)
    requires GoodBlock(mix, file, bom, b)
    ensures Body(bom, b.startByte) <= b.endByte <= |file| && b.startByte < b.endByte
  {}

  lemma TextEndsLine(a: seq<Byte>, z: seq<Byte>, more: bool)
    requires Valid(a) && (more && a != [] ==> a[|a| - 1] == NEWLINE) && (!more ==> z == [])
    ensures EndsLine(Decode(a)) || Decode(z) == ""
  {
    if more && a != [] { DecodedEnd(a); }
  }

  lemma ScanTwo(a: string, z: string, q: string, lines: int)
    requires OneLine(q) && (EndsLine(a) || z == "")
    ensures Scan(a + z, q, lines) == Scan(a, q, lines) + Scan(z, q, lines + Newlines(a))
  {
    hide Scan, EndsLine;
    if z == "" {
      ScanNothing(q, lines + Newlines(a));
      AddNothing(a);
      AddNothing(Scan(a, q, lines));
    } else {
      ScanAppend(a, z, q, lines);
    }
  }

  lemma ScanNothing(q: string, lines: int)
    requires q != ""
    ensures Scan("", q, lines) == []
  {
    assert Find("", q, 0) < 0;
  }

  lemma AddNothing<T>(s: seq<T>)
    ensures s + [] == s
  {}

  lemma {:induction false} BlocksAgree(mix: Mix, file: seq<Byte>, bom: nat, blocks: seq<BlockEntry>, i: nat, q: string)
    requires Indexed(mix, file, bom, blocks) && i <= |blocks| && OneLine(q) && |q| >= 3
    ensures forall k :: 0 <= k < |blocks| ==> Readable(file, bom, blocks[k])
    ensures Body(bom, StartOf(file, blocks, i)) <= |file|
    ensures FromBlocks(mix, file, bom, blocks[i..], q) ==
            Scan(From(file, bom, StartOf(file, blocks, i)), q, CountNewlines(file[..StartOf(file, blocks, i)]))
    decreases |blocks| - i
  {
    hide Scan, Decode, Indexed, GoodBlock, Readable;
    forall k | 0 <= k < |blocks| ensures Readable(file, bom, blocks[k]) {
      IndexedBlock(mix, file, bom, blocks, k);
      TakenIsScan(mix, file, bom, blocks[k], q);
    }
    if i < |blocks| {
      BlocksAgree(mix, file, bom, blocks, i + 1, q);
      ScanSplit(mix, file, bom, blocks, i, q);
      IndexedBlock(mix, file, bom, blocks, i);
      TakenIsScan(mix, file, bom, blocks[i], q);
      assert blocks[i..][1..] == blocks[i + 1..];
    } else {
      AtTheEnd(mix, file, bom, blocks, q);
      assert blocks[i..] == [];
    }
  }

  lemma AtTheEnd(mix: Mix, file: seq<Byte>, bom: nat, blocks: seq<BlockEntry>, q: string)
    requires Indexed(mix, file, bom, blocks) && q != ""
    ensures Body(bom, |file|) == |file|
    ensures Scan(From(file, bom, |file|), q, CountNewlines(file[..|file|])) == []
  {
    assert file[|file|..] == [];
    ScanNothing(q, CountNewlines(file[..|file|]));
  }

  /** The block search of an indexed file adds to a list what scanning its whole text would, in the same order and up to
      the same limit. */
  lemma SearchIsScan(mix: Mix, file: seq<Byte>, bom: nat, blocks: seq<BlockEntry>, q: string, start: seq<Hit>,
      maxResults: int)
    requires Indexed(mix, file, bom, blocks) && OneLine(q) && |q| >= 3
    ensures forall k :: 0 <= k < |blocks| ==> Readable(file, bom, blocks[k])
    ensures Adding(mix, file, bom, blocks, q, start, maxResults) ==
            start + UpTo(Scan(Decode(file[bom..]), q, 0), maxResults - |start|)
  {
    hide Scan;
    BlocksAgree(mix, file, bom, blocks, 0, q);
    assert blocks[0..] == blocks;
    assert StartOf(file, blocks, 0) == 0;
    assert file[..0] == [];
  }
}

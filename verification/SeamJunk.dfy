/** A query that holds U+FFFD, in a file with a seam that starts inside a character: it is reported where it does not
    occur, and not reported where it does. */
module SeamJunk {
  import opened Utf8
  import opened Bloom
  import opened TextScan
  import opened ScanLaws
  import opened BlockIndexer
  import opened BlockSearch
  import opened SeamSearch
  import BlockAgreement

  function As(n: nat): seq<Byte> { seq(n, _ => 0x61) }

  function AText(n: nat): string { seq(n, _ => 'a') }

  lemma {:induction false} AsIsText(n: nat)
    ensures Valid(As(n)) && Decode(As(n)) == AText(n)
  {
    if n > 0 {
      AsIsText(n - 1);
      assert As(n)[1..] == As(n - 1);
      assert AText(n) == ['a'] + AText(n - 1);
    }
  }

  const SPLIT: seq<Byte> := [0xC3, 0xA9]
  const FFFD: seq<Byte> := [0xEF, 0xBF, 0xBD]

  lemma SplitIsText(b: seq<Byte>)
    requires Valid(b)
    ensures Valid(SPLIT + b) && Decode(SPLIT + b) == ['\U{E9}'] + Decode(b)
  {
    assert (SPLIT + b)[2..] == b;
  }

  lemma FffdIsText(b: seq<Byte>)
    requires Valid(b)
    ensures Valid(FFFD + b) && Decode(FFFD + b) == [REPLACEMENT] + Decode(b)
  {
    assert (FFFD + b)[3..] == b;
  }

  lemma OneByte()
    ensures Valid([0x62]) && Decode([0x62]) == "b"
  {
    assert [0x62 as Byte][1..] == [];
  }

  // ---- a file that is cut at 16 MB, with a seam that starts inside a character ----

  /** What the seam holds after that character, and what comes after the cut. */
  ghost predicate Fits(tail: seq<Byte>, body: seq<Byte>) {
    && |tail| == SEAM - 1 && 0 < |body| <= SEAM && Valid(tail) && Valid(body) && tail[SEAM - 2] < 0x80
    && NEWLINE !in tail && NEWLINE !in body
  }

  function File(tail: seq<Byte>, body: seq<Byte>): seq<Byte> { As(CAP - SEAM - 1) + (SPLIT + tail) + body }

  /** What BuildBlocks makes of a file. */
  ghost predicate Built(mix: Mix, file: seq<Byte>, blocks: seq<BlockEntry>) {
    Blocked(mix, file, 0, blocks) && forall b <- blocks :: EndsWell(file, 0, b, true)
  }

  function FrontText(tail: seq<Byte>): string { AText(CAP - SEAM - 1) + ['\U{E9}'] + Decode(tail) }

  lemma FileText(tail: seq<Byte>, body: seq<Byte>)
    requires Fits(tail, body)
    ensures var f := File(tail, body); |f| == CAP + |body| && Valid(f) && Valid(f[..CAP]) && NEWLINE !in f
    ensures Decode(File(tail, body)[..CAP]) == FrontText(tail)
    ensures Decode(File(tail, body)) == FrontText(tail) + Decode(body)
  {
    var front, back := As(CAP - SEAM - 1), SPLIT + tail;
    AsIsText(CAP - SEAM - 1);
    SplitIsText(tail);
    hide Decode, Valid;
    DecodeAppend(front, back);
    DecodeAppend(front + back, body);
    assert File(tail, body)[..CAP] == front + back;
  }

  lemma CutAtCap(tail: seq<Byte>, body: seq<Byte>)
    requires Fits(tail, body)
    ensures var f := File(tail, body);
            && |f| == CAP + |body| && ForcedEnd(f, 0, 0) == CAP && ForcedCuts(f, 0, 0) == CAP
            && LineAt(f) == 0 && !LeftOpen(f, 0)
  {
    FileText(tail, body);
    hide Decode, Valid, LastLine;
    var f := File(tail, body);
    assert f[CAP - 1] == tail[SEAM - 2];
    assert RoundUp(CAP) == CAP by { RoundedWithin(CAP, CAP); }
    NoNewlineLine(f);
  }

  lemma Middle(tail: seq<Byte>, body: seq<Byte>, x: nat)
    requires Fits(tail, body) && 0 < x <= CAP + |body|
    ensures MidLine(File(tail, body), x)
  {
    FileText(tail, body);
    hide Decode, Valid;
    assert File(tail, body)[x - 1] in File(tail, body);
  }

  lemma EndOf(mix: Mix, tail: seq<Byte>, body: seq<Byte>, b: BlockEntry)
    requires Fits(tail, body) && BlockOk(mix, File(tail, body), 0, b) && EndsWell(File(tail, body), 0, b, true)
    ensures b.startByte == 0 ==> b.endByte == CAP
    ensures b.startByte == CAP ==> b.endByte == CAP + |body|
    ensures b.startByte < CAP + |body|
  {
    CutAtCap(tail, body);
    Middle(tail, body, b.endByte);
    hide File, AdmitsText, ForcedEnd, ForcedCuts, LineAt;
  }

  /** It is cut once, where the seam starts inside the character. */
  lemma CutOnce(mix: Mix, tail: seq<Byte>, body: seq<Byte>, blocks: seq<BlockEntry>)
    requires Fits(tail, body) && Built(mix, File(tail, body), blocks)
    ensures |blocks| == 2 && IsFirst(mix, tail, body, blocks[0]) && IsSecond(mix, tail, body, blocks[1])
  {
    var f := File(tail, body);
    CutAtCap(tail, body);
    AllOk(mix, f, blocks);
    forall b <- blocks
      ensures b.startByte == 0 ==> b.endByte == CAP
      ensures b.startByte == CAP ==> b.endByte == CAP + |body|
      ensures b.startByte < CAP + |body|
    {
      EndOf(mix, tail, body, b);
    }
    hide Built, BlockOk, EndsWell, Fits, File, ForcedEnd, ForcedCuts, LineAt;
    assert blocks[0] in blocks;
    assert blocks[1] in blocks;
    MoreFollow(blocks, CAP + |body|);
    FirstLine(mix, f, blocks[0]);
  }

  lemma MoreFollow(blocks: seq<BlockEntry>, end: nat)
    requires Tiles(blocks, end) && forall b <- blocks :: b.startByte < end
    ensures |blocks| > 2 ==> blocks[1].endByte < end
  {
    if |blocks| > 2 { assert blocks[2] in blocks; }
  }

  lemma AllOk(mix: Mix, f: seq<Byte>, blocks: seq<BlockEntry>)
    requires Built(mix, f, blocks)
    ensures Tiles(blocks, |f|) && forall b <- blocks :: BlockOk(mix, f, 0, b) && EndsWell(f, 0, b, true)
  {}

  lemma FirstLine(mix: Mix, f: seq<Byte>, b: BlockEntry)
    requires BlockOk(mix, f, 0, b) && b.startByte == 0
    ensures b.startLine == 1
  {
    hide AdmitsText;
  }

  ghost predicate IsFirst(mix: Mix, tail: seq<Byte>, body: seq<Byte>, b: BlockEntry) {
    b.startByte == 0 && b.endByte == CAP && b.startLine == 1 && BlockOk(mix, File(tail, body), 0, b)
  }

  ghost predicate IsSecond(mix: Mix, tail: seq<Byte>, body: seq<Byte>, b: BlockEntry) {
    b.startByte == CAP && b.endByte == CAP + |body| && BlockOk(mix, File(tail, body), 0, b)
  }

  /** The builder closes all of it. */
  method BuildIt(mix: Mix, tail: seq<Byte>, body: seq<Byte>, looksBinary: seq<Byte> -> bool)
    returns (file: seq<Byte>, blocks: seq<BlockEntry>)
    requires Fits(tail, body) && !looksBinary(File(tail, body)[..8000])
    ensures file == File(tail, body) && Built(mix, file, blocks)
  {
    file := File(tail, body);
    FileText(tail, body);
    CutAtCap(tail, body);
    StartsPlain(tail, body);
    hide Decode, Valid, Closed, EndsWell, LeftOpen, Fits;
    var found, bom := BuildBlocks(mix, file, looksBinary);
    assert file[0..] == file;
    blocks := found.value;
  }

  lemma StartsPlain(tail: seq<Byte>, body: seq<Byte>)
    ensures File(tail, body)[0] == 0x61 && DetectBom(File(tail, body)) == (true, 0)
  {}

  /** What is scanned for the second block. */
  lemma Scanned(tail: seq<Byte>, body: seq<Byte>)
    requires Fits(tail, body)
    ensures var f := File(tail, body);
            && |f| == CAP + |body| && f[CAP - SEAM] == 0xA9
            && Decode(f[CAP - SEAM..CAP]) == [REPLACEMENT] + Decode(tail) && f[CAP..] == body
  {
    FileText(tail, body);
    assert File(tail, body)[CAP - SEAM..CAP] == [0xA9] + tail;
    assert File(tail, body)[CAP..] == body;
    hide Decode, Valid;
    DecodeTails([0xA9], tail);
    assert seq(1, (_: int) => REPLACEMENT) == [REPLACEMENT];
  }

  /** The hits of a scan that finds the query at its start, and no room for it after. */
  lemma ScanOnce(text: string, q: string)
    requires |q| > 1 && OccursAt(text, q, 0) && |text| < 2 * |q|
    ensures Scan(text, q, 0) == [Hit(1, 1)]
  {
    assert Find(text, q, |q|) == -1;
    assert Greedy(text, q, |q|) == [];
    assert Greedy(text, q, 0) == [0];
    assert text[..0] == "";
  }

  lemma SeamText(tail: seq<Byte>, body: seq<Byte>)
    requires Fits(tail, body)
    ensures var f := File(tail, body);
            |f| == CAP + |body| && Decode(f[CAP - SEAM..CAP + |body|]) == [REPLACEMENT] + Decode(tail) + Decode(body)
  {
    FileText(tail, body);
    assert File(tail, body)[CAP - SEAM..CAP + |body|] == [0xA9] + (tail + body);
    hide Decode, Valid, File;
    DecodeAppend(tail, body);
    DecodeTails([0xA9], tail + body);
    assert seq(1, (_: int) => REPLACEMENT) == [REPLACEMENT];
  }

  /** The second block's filter admits what is around its seam. */
  lemma SeamAdmits(mix: Mix, tail: seq<Byte>, body: seq<Byte>, b: BlockEntry)
    requires Fits(tail, body) && IsSecond(mix, tail, body, b)
    ensures AdmitsText(mix, b.bloom, [REPLACEMENT] + Decode(tail) + Decode(body)) && b.startLine == 1
  {
    FileText(tail, body);
    Middle(tail, body, CAP);
    SeamText(tail, body);
    hide Decode, Valid, File, AdmitsText;
    BlockAgreement.NoneToCount(File(tail, body)[..CAP]);
  }

  lemma SecondAdmitted(mix: Mix, tail: seq<Byte>, body: seq<Byte>, b: BlockEntry, q: string)
    requires Fits(tail, body) && IsSecond(mix, tail, body, b)
    requires OccursAt([REPLACEMENT] + Decode(tail) + Decode(body), q, 0)
    ensures Admitted(mix, b, q) && b.startLine == 1
  {
    SeamAdmits(mix, tail, body, b);
    hide Decode, IsSecond, Fits, Admits;
    BlockAgreement.NeverTurnedAway(mix, b.bloom, [REPLACEMENT] + Decode(tail) + Decode(body), q, 0);
  }

  lemma SecondHits(mix: Mix, tail: seq<Byte>, body: seq<Byte>, b: BlockEntry, q: string)
    requires Fits(tail, body) && IsSecond(mix, tail, body, b) && |q| > 1
    requires var text := [REPLACEMENT] + Decode(tail) + Decode(body); OccursAt(text, q, 0) && |text| < 2 * |q|
    ensures var f := File(tail, body);
            && Readable(f, 0, b) && SEAM <= b.startByte <= |f| && MidLine(f, b.startByte)
            && IsTail(f[b.startByte - SEAM])
            && Taken(mix, f, 0, b, q) == if |q| <= 1 + |Decode(tail)| then [] else [Hit(1, 1)]
  {
    Scanned(tail, body);
    Middle(tail, body, CAP);
    SecondAdmitted(mix, tail, body, b, q);
    ScanOnce([REPLACEMENT] + Decode(tail) + Decode(body), q);
    var f := File(tail, body);
    hide Decode, Scan, AdmitsText, Valid, Admitted, File, OccursAt, Fits;
    assert f[CAP..CAP + |body|] == body by { assert f[CAP..] == body; }
    var one := SeamHit(Hit(1, 1), 1, 1 + |Decode(tail)|, |q|);
    assert SeamHits([Hit(1, 1)], 1, 1 + |Decode(tail)|, |q|) == one;
  }

  // ---- a hit where nothing is ----

  function Across(): string { [REPLACEMENT] + AText(SEAM - 1) + "b" }

  lemma AcrossFits()
    ensures Fits(As(SEAM - 1), [0x62]) && Searchable(Across())
    ensures Across() == [REPLACEMENT] + Decode(As(SEAM - 1)) + Decode([0x62]) && |Decode(As(SEAM - 1))| == SEAM - 1
  {
    AsIsText(SEAM - 1);
    OneByte();
  }

  lemma NowhereThere(p: nat)
    ensures !OccursAt(Decode(File(As(SEAM - 1), [0x62])), Across(), p)
  {
    AcrossFits();
    FileText(As(SEAM - 1), [0x62]);
    AsIsText(SEAM - 1);
    OneByte();
    var text := Decode(File(As(SEAM - 1), [0x62]));
    hide Decode, Valid, File;
    assert REPLACEMENT !in text && Across()[0] == REPLACEMENT;
    if p + |Across()| <= |text| { assert text[p..p + |Across()|][0] == text[p]; }
  }

  /** Whatever is built of the file: a hit is reported from the second block, and the query occurs nowhere. */
  lemma JunkHits(mix: Mix, blocks: seq<BlockEntry>)
    requires Built(mix, File(As(SEAM - 1), [0x62]), blocks)
    ensures var file, q := File(As(SEAM - 1), [0x62]), Across();
            && |blocks| == 2 && Searchable(q) && MeetsJunk(file, blocks[1], q)
            && Readable(file, 0, blocks[1]) && Hit(1, 1) in Taken(mix, file, 0, blocks[1], q)
            && forall p: nat :: !OccursAt(Decode(file), q, p)
  {
    var tail, body := As(SEAM - 1), [0x62];
    AcrossFits();
    forall p: nat ensures !OccursAt(Decode(File(tail, body)), Across(), p) { NowhereThere(p); }
    hide Decode, Valid, Built, Taken, File, MidLine, Readable, IsTail, As, Fits, IsFirst, IsSecond;
    CutOnce(mix, tail, body, blocks);
    SecondHits(mix, tail, body, blocks[1], Across());
  }

  method JunkReported(mix: Mix, looksBinary: seq<Byte> -> bool)
    returns (file: seq<Byte>, blocks: seq<BlockEntry>, q: string)
    requires !looksBinary(File(As(SEAM - 1), [0x62])[..8000])
    ensures Blocked(mix, file, 0, blocks) && |blocks| == 2 && Searchable(q) && MeetsJunk(file, blocks[1], q)
    ensures Readable(file, 0, blocks[1]) && Hit(1, 1) in Taken(mix, file, 0, blocks[1], q)
    ensures forall p: nat :: !OccursAt(Decode(file), q, p)
  {
    AcrossFits();
    hide Decode, Valid, Blocked, Taken, File, MeetsJunk, As, Fits;
    file, blocks := BuildIt(mix, As(SEAM - 1), [0x62], looksBinary);
    q := Across();
    JunkHits(mix, blocks);
  }

  // ---- an occurrence that is missed ----

  function Apart(n: nat): seq<Byte> { As(400) + (FFFD + (As(400) + (FFFD + As(n)))) }

  lemma ApartText(n: nat)
    ensures Valid(Apart(n)) && NEWLINE !in Apart(n)
    ensures Decode(Apart(n)) == AText(400) + ([REPLACEMENT] + (AText(400) + ([REPLACEMENT] + AText(n))))
  {
    hide Decode, Valid;
    AsIsText(400);
    AsIsText(n);
    var last := FFFD + As(n);
    FffdIsText(As(n));
    DecodeAppend(As(400), last);
    FffdIsText(As(400) + last);
    DecodeAppend(As(400), FFFD + (As(400) + last));
    NoNewlineIn(n);
  }

  lemma NoNewlineIn(n: nat)
    ensures NEWLINE !in Apart(n)
  {
    assert NEWLINE !in As(400) && NEWLINE !in As(n) && NEWLINE !in FFFD;
    hide As;
  }

  function Apart2(): string { [REPLACEMENT] + AText(400) + [REPLACEMENT] + AText(400) }

  /** The query's bytes, across the cut. */
  lemma ApartBytes() returns (x: nat, y: nat)
    ensures BytesAre(File(Apart(217), As(184)), 0, Apart2(), x, y) && y - x <= SEAM
  {
    var file, front := File(Apart(217), As(184)), As(CAP - SEAM - 1) + (SPLIT + As(400));
    x, y := |front|, |front| + 806;
    assert file[0..x] == front;
    assert file[x..y] == FFFD + (As(400) + (FFFD + As(400)));
    AsIsText(400);
    AsIsText(CAP - SEAM - 1);
    SplitIsText(As(400));
    FffdIsText(As(400));
    hide Decode, Valid;
    DecodeAppend(As(CAP - SEAM - 1), SPLIT + As(400));
    DecodeAppend(As(400), FFFD + As(400));
    FffdIsText(As(400) + (FFFD + As(400)));
    assert Apart2() == [REPLACEMENT] + (AText(400) + ([REPLACEMENT] + AText(400)));
  }

  /** No room for the query where it could start. */
  lemma NoRoom(text: string, q: string)
    requires |q| > 1 && forall p :: 0 <= p <= |text| - |q| ==> text[p] != q[0]
    ensures Scan(text, q, 0) == []
  {
    forall p: nat ensures !OccursAt(text, q, p) {
      if p + |q| <= |text| { assert text[p..p + |q|][0] == text[p]; }
    }
    FindIsFirst(text, q, 0);
    assert Greedy(text, q, 0) == [];
  }

  lemma FrontPart(tail: seq<Byte>, p: nat)
    requires |Decode(tail)| >= 400 && Decode(tail)[..400] == AText(400) && p < CAP - SEAM + 400
    ensures p < |FrontText(tail)| && FrontText(tail)[p] != REPLACEMENT
  {
    hide Decode;
    var n := CAP - SEAM;
    if p >= n { assert Decode(tail)[p - n] == Decode(tail)[..400][p - n]; }
  }

  lemma FirstMisses(mix: Mix, b: BlockEntry)
    requires IsFirst(mix, Apart(217), As(184), b)
    ensures var f := File(Apart(217), As(184)); Readable(f, 0, b) && Taken(mix, f, 0, b, Apart2()) == []
  {
    var tail, body := Apart(217), As(184);
    ApartFits();
    FileText(tail, body);
    var f := File(tail, body);
    hide Decode, Valid, Scan, Apart, File, Admitted;
    assert f[0..CAP] == f[..CAP];
    var text := FrontText(tail);
    forall p | 0 <= p <= |text| - |Apart2()| ensures text[p] != REPLACEMENT { FrontPart(tail, p); }
    NoRoom(text, Apart2());
  }

  lemma SecondMisses(mix: Mix, b: BlockEntry)
    requires IsSecond(mix, Apart(217), As(184), b)
    ensures var f := File(Apart(217), As(184));
            && Readable(f, 0, b) && MeetsJunk(f, b, Apart2()) && Taken(mix, f, 0, b, Apart2()) == []
  {
    var tail, body := Apart(217), As(184);
    ApartText(217);
    AsIsText(184);
    ApartFits();
    hide Decode, Valid, Taken, MidLine, IsTail, File, Fits, IsSecond;
    var text := [REPLACEMENT] + Decode(tail) + Decode(body);
    assert text[0..802] == Apart2();
    SecondHits(mix, tail, body, b, Apart2());
  }

  /** Whatever is built of the file: the query occurs across the cut, in fewer bytes than a seam has, and no block
      reports it: what the split character leaves starts another occurrence, which lies before the cut and hides
      it. */
  lemma CrossingMisses(mix: Mix, blocks: seq<BlockEntry>)
    requires Built(mix, File(Apart(217), As(184)), blocks)
    ensures var file := File(Apart(217), As(184));
            && |blocks| == 2 && Searchable(Apart2()) && MeetsJunk(file, blocks[1], Apart2())
            && forall b <- blocks :: Readable(file, 0, b) && Taken(mix, file, 0, b, Apart2()) == []
  {
    ApartFits();
    CutOnce(mix, Apart(217), As(184), blocks);
    assert forall b <- blocks :: b == blocks[0] || b == blocks[1];
    hide *;
    FirstMisses(mix, blocks[0]);
    SecondMisses(mix, blocks[1]);
  }

  method CrossingMissed(mix: Mix, looksBinary: seq<Byte> -> bool)
    returns (file: seq<Byte>, blocks: seq<BlockEntry>, q: string, ghost x: nat, ghost y: nat)
    requires !looksBinary(File(Apart(217), As(184))[..8000])
    ensures Blocked(mix, file, 0, blocks) && |blocks| == 2 && Searchable(q) && MeetsJunk(file, blocks[1], q)
    ensures BytesAre(file, 0, q, x, y) && y - x <= SEAM
    ensures forall b <- blocks :: Readable(file, 0, b) && Taken(mix, file, 0, b, q) == []
  {
    ApartFits();
    hide Decode, Valid, Blocked, Taken, File, MeetsJunk, As, Fits, Apart, BytesAre, Readable;
    file, blocks := BuildIt(mix, Apart(217), As(184), looksBinary);
    q := Apart2();
    x, y := ApartBytes();
    CrossingMisses(mix, blocks);
  }

  lemma ApartFits()
    ensures Fits(Apart(217), As(184)) && Searchable(Apart2())
    ensures |Decode(Apart(217))| == 1019 && Decode(Apart(217))[..400] == AText(400)
  {
    ApartText(217);
    AsIsText(184);
    hide Decode, Valid;
  }
}

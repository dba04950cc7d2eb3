/** Searching a big file through its blocks: only those whose filter admits every trigram of the query are read. */
module BlockSearch {
  import opened Common
  import opened Utf8
  import opened Bloom
  import opened TextScan
  import opened BlockIndexer

  /** What the sidecar of a file holds. */
  datatype Sidecar = Sidecar(bomLen: nat, blocks: seq<BlockEntry>)

  const INT_MAX := 0x7FFF_FFFF

  // ---- what one block reports ----

  /** May the block hold the query, as far as its filter can tell? */
  ghost predicate Admitted(mix: Mix, b: BlockEntry, q: string) {
    |b.bloom| > 0 && forall i :: 0 <= i <= |q| - 3 ==> Admits(mix, b.bloom, BLOOM_K, KeyAt(q, i))
  }

  /** Is the block read at all? (One of absurd size is passed over.) */
  predicate Sized(b: BlockEntry) { 0 < b.endByte - b.startByte <= INT_MAX - SEAM }

  function Tail(file: seq<Byte>, b: BlockEntry): seq<Byte>
    requires b.startByte <= |file|
  {
    file[SeamStart(b.startByte)..b.startByte]
  }

  /** Does the block start a line? */
  predicate Aligned(file: seq<Byte>, b: BlockEntry) { !MidLine(file, b.startByte) }

  /** A block's own text. */
  function Text(file: seq<Byte>, bom: nat, b: BlockEntry): string
    requires Body(bom, b.startByte) <= b.endByte <= |file|
  {
    Decode(file[Body(bom, b.startByte)..b.endByte])
  }

  /** What is made of a hit in a block that continues a line, scanned from the seam's tail on: dropped where it lies
      wholly in the tail, shown relative to the block where it does not. */
  function SeamHit(h: Hit, startLine: int, tailChars: nat, len: nat): seq<Hit> {
    if h.line != startLine then [h]
    else if h.column - 1 + len <= tailChars then []
    else [Hit(h.line, if h.column - tailChars > 1 then h.column - tailChars else 1)]
  }

  function SeamHits(hits: seq<Hit>, startLine: int, tailChars: nat, len: nat): seq<Hit> {
    if hits == [] then []
    else SeamHit(hits[0], startLine, tailChars, len) + SeamHits(hits[1..], startLine, tailChars, len)
  }

  function BlockHits(file: seq<Byte>, bom: nat, b: BlockEntry, q: string): seq<Hit>
    requires b.startByte <= b.endByte <= |file| && Body(bom, b.startByte) <= b.endByte
  {
    if Aligned(file, b) then Scan(Text(file, bom, b), q, b.startLine - 1)
    else
      var tail := Decode(Tail(file, b));
      SeamHits(Scan(tail + Text(file, bom, b), q, b.startLine - 1), b.startLine, |tail|, |q|)
  }

  /** Does the block lie in the file, with its byte order mark? */
  predicate InFile(file: seq<Byte>, bom: nat, b: BlockEntry) {
    b.startByte <= b.endByte <= |file| && Body(bom, b.startByte) <= b.endByte
  }

  ghost predicate Readable(file: seq<Byte>, bom: nat, b: BlockEntry) { |b.bloom| > 0 && InFile(file, bom, b) }

  /** Is the block to be read for the query? */
  ghost predicate Asked(mix: Mix, b: BlockEntry, q: string) { Admitted(mix, b, q) && Sized(b) }

  /** The search cannot go by the block: its filter is empty, or it is to be read and does not lie in the file (which
      was shortened since), or does not answer. */
  ghost predicate Fails(mix: Mix, file: seq<Byte>, bom: nat, b: BlockEntry, answers: bool, q: string) {
    |b.bloom| == 0 || (Asked(mix, b, q) && !(answers && InFile(file, bom, b)))
  }

  /** What the search takes from a block. */
  ghost function Taken(mix: Mix, file: seq<Byte>, bom: nat, b: BlockEntry, q: string): seq<Hit> {
    if Asked(mix, b, q) && InFile(file, bom, b) then BlockHits(file, bom, b, q) else []
  }

  /** The hits of the admitted blocks, one block after the other. */
  ghost function FromBlocks(mix: Mix, file: seq<Byte>, bom: nat, blocks: seq<BlockEntry>, q: string): seq<Hit> {
    if blocks == [] then []
    else Taken(mix, file, bom, blocks[0], q) + FromBlocks(mix, file, bom, blocks[1..], q)
  }

  /** The blocks before this one leave room below the limit. */
  ghost predicate Reached(mix: Mix, file: seq<Byte>, bom: nat, blocks: seq<BlockEntry>, q: string, start: seq<Hit>,
                          maxResults: int, k: nat)
    requires k <= |blocks|
  {
    |start| + |FromBlocks(mix, file, bom, blocks[..k], q)| < maxResults
  }

  // ---- the search as it runs ----

  /** The query's distinct trigrams. */
  method QueryTrigrams(q: string) returns (groups: seq<int>)
    ensures forall i :: 0 <= i <= |q| - 3 ==> KeyAt(q, i) in groups
    ensures forall key <- groups :: key in Keys(q)
  {
    groups := [];
    for i := 0 to |q|
      invariant forall j :: 0 <= j < i && j <= |q| - 3 ==> KeyAt(q, j) in groups
      invariant forall key <- groups :: key in Keys(q)
    {
      if i + 3 <= |q| && KeyAt(q, i) !in groups { groups := groups + [KeyAt(q, i)]; }
    }
  }

  method Admit(mix: Mix, b: BlockEntry, q: string, groups: seq<int>) returns (all: bool)
    requires |b.bloom| > 0
    requires forall i :: 0 <= i <= |q| - 3 ==> KeyAt(q, i) in groups
    requires forall key <- groups :: key in Keys(q)
    ensures all <==> Admitted(mix, b, q)
  {
    hide Admits;
    var bloom := new BloomFilter.Of(mix, b.bloom, BLOOM_K);
    for i := 0 to |groups|
      invariant bloom.bits[..] == b.bloom
      invariant forall j :: 0 <= j < i ==> Admits(mix, b.bloom, BLOOM_K, groups[j])
    {
      var any := bloom.MayContain(groups[i]);
      if !any {
        assert groups[i] in Keys(q);
        return false;
      }
    }
    return true;
  }

  /** Adding what fits of a, then of b, is adding what fits of both. */
  lemma UpToBoth<T>(all: seq<T>, a: seq<T>, b: seq<T>, max: int)
    ensures var more := all + UpTo(a, max - |all|);
            all + UpTo(a + b, max - |all|) == more + UpTo(b, max - |more|)
  {
    var n := max - |all|;
    if n <= 0 {
      assert all + [] == all;
    } else if |a| >= n {
      assert (a + b)[..n] == a[..n];
      assert (all + a[..n]) + [] == all + a[..n];
    } else {
      UpToRest(a, b, n);
      Regroup(all, a, UpTo(b, n - |a|));
    }
  }

  lemma UpToRest<T>(a: seq<T>, b: seq<T>, n: int)
    requires |a| < n
    ensures UpTo(a + b, n) == a + UpTo(b, n - |a|)
  {}

  lemma Regroup<T>(a: seq<T>, b: seq<T>, c: seq<T>)
    ensures a + (b + c) == (a + b) + c
  {}

  /** A list, and what is left to add of a seam block's hits. */
  function SeamAdding(hits: seq<Hit>, startLine: int, tailChars: nat, len: nat, all: seq<Hit>,
      maxResults: int): seq<Hit> {
    all + UpTo(SeamHits(hits, startLine, tailChars, len), maxResults - |all|)
  }

  method ScanSeamBlock(tail: string, body: string, q: string, results: seq<Hit>, maxResults: int, startLine: int)
    returns (all: seq<Hit>)
    requires q != ""
    ensures all == SeamAdding(Scan(tail + body, q, startLine - 1), startLine, |tail|, |q|, results, maxResults)
  {
    hide Scan, SeamAdding;
    var text := tail + body;
    var found := ScanText(text, q, [], |text| + 2, startLine - 1);
    AllFound(text, q, startLine - 1);
    assert found == Scan(text, q, startLine - 1);
    all := results;
    assert found[0..] == found;
    for i := 0 to |found|
      invariant SeamAdding(found, startLine, |tail|, |q|, results, maxResults) ==
                SeamAdding(found[i..], startLine, |tail|, |q|, all, maxResults)
    {
      SeamStep(found[i..], startLine, |tail|, |q|, all, maxResults);
      if |all| >= maxResults { return; }
      var m := found[i];
      if m.line != startLine {
        all := all + [m];
      } else if m.column - 1 + |q| > |tail| {
        var column := if m.column - |tail| > 1 then m.column - |tail| else 1;
        all := all + [Hit(m.line, column)];
      } else {
        assert all + [] == all;
      }
    }
    SeamDone(startLine, |tail|, |q|, all, maxResults);
  }

  lemma SeamStep(hits: seq<Hit>, startLine: int, tailChars: nat, len: nat, all: seq<Hit>, maxResults: int)
    requires hits != []
    ensures |all| >= maxResults ==> SeamAdding(hits, startLine, tailChars, len, all, maxResults) == all
    ensures |all| < maxResults ==>
              SeamAdding(hits, startLine, tailChars, len, all, maxResults) ==
              SeamAdding(hits[1..], startLine, tailChars, len, all + SeamHit(hits[0], startLine, tailChars, len),
                maxResults)
  {
    var one := SeamHit(hits[0], startLine, tailChars, len);
    UpToBoth(all, one, SeamHits(hits[1..], startLine, tailChars, len), maxResults);
    assert |all| < maxResults ==> UpTo(one, maxResults - |all|) == one;
  }

  lemma SeamDone(startLine: int, tailChars: nat, len: nat, all: seq<Hit>, maxResults: int)
    ensures SeamAdding([], startLine, tailChars, len, all, maxResults) == all
  {}

  /** A text has no more hits than characters. */
  lemma AllFound(text: string, q: string, lines: int)
    requires q != ""
    ensures UpTo(Scan(text, q, lines), Room(0, |text| + 2)) == Scan(text, q, lines)
  {
    GreedyIsShort(text, q, 0);
  }

  lemma {:induction false} GreedyIsShort(text: string, q: string, from: nat)
    requires q != ""
    ensures from <= |text| ==> |Greedy(text, q, from)| <= |text| - from
    ensures from > |text| ==> Greedy(text, q, from) == []
    decreases |text| + 1 - from
  {
    var i := Find(text, q, from);
    if i >= 0 && from <= |text| { GreedyIsShort(text, q, i + Step(q)); }
  }

  /** Scans a block that was admitted: from its own start where that starts a line, else from the seam's tail. */
  method ScanBlock(file: seq<Byte>, bom: nat, b: BlockEntry, q: string, results: seq<Hit>, maxResults: int)
    returns (all: seq<Hit>)
    requires b.startByte <= b.endByte <= |file| && Body(bom, b.startByte) <= b.endByte
    requires q != "" && |results| < maxResults
    ensures all == results + UpTo(BlockHits(file, bom, b, q), maxResults - |results|)
  {
    hide Scan, Decode, SeamHits;
    var tail := if b.startByte < SEAM then b.startByte else SEAM;
    var bytes := file[b.startByte - tail..b.endByte];
    if tail == 0 || bytes[tail - 1] == NEWLINE {
      var skip := if b.startByte == 0 then bom else 0;
      assert bytes[tail + skip..] == file[Body(bom, b.startByte)..b.endByte];
      all := ScanText(Decode(bytes[tail + skip..]), q, results, maxResults, b.startLine - 1);
    } else {
      assert bytes[..tail] == Tail(file, b);
      assert bytes[tail..] == file[b.startByte..b.endByte];
      all := ScanSeamBlock(Decode(bytes[..tail]), Decode(bytes[tail..]), q, results, maxResults, b.startLine);
    }
  }

  /** One block of the search: passed over, read and scanned, or not to be gone by (not ok). */
  method SearchBlock(mix: Mix, b: BlockEntry, answers: bool, file: seq<Byte>, bom: nat, q: string, groups: seq<int>,
                     before: seq<Hit>, maxResults: int)
    returns (ok: bool, results: seq<Hit>)
    requires q != "" && |before| < maxResults
    requires forall i :: 0 <= i <= |q| - 3 ==> KeyAt(q, i) in groups
    requires forall key <- groups :: key in Keys(q)
    ensures ok <==> !Fails(mix, file, bom, b, answers, q)
    ensures ok ==> results == before + UpTo(Taken(mix, file, bom, b, q), maxResults - |before|)
  {
    hide Admitted;
    if |b.bloom| == 0 { return false, before; }
    var all := Admit(mix, b, q, groups);
    if !all || !Sized(b) { return true, before; }
    if !answers || |file| < b.endByte || b.endByte < Body(bom, b.startByte) { return false, before; }
    results := ScanBlock(file, bom, b, q, before, maxResults);
    ok := true;
  }

  /** Start, and what is left to add of these blocks' hits. */
  ghost function Adding(mix: Mix, file: seq<Byte>, bom: nat, blocks: seq<BlockEntry>, q: string, start: seq<Hit>,
                        maxResults: int): seq<Hit> {
    start + UpTo(FromBlocks(mix, file, bom, blocks, q), maxResults - |start|)
  }

  /** Some block that is reached before the limit cannot be gone by. */
  ghost predicate Breaks(mix: Mix, file: seq<Byte>, bom: nat, blocks: seq<BlockEntry>, answers: nat -> bool, q: string,
                         start: seq<Hit>, maxResults: int) {
    exists k :: 0 <= k < |blocks| && Reached(mix, file, bom, blocks, q, start, maxResults, k) &&
      Fails(mix, file, bom, blocks[k], answers(k), q)
  }

  /** The hits of a query in the file, as far as its blocks tell them, up to a limit. Not handled, and nothing added,
      are just: a query that is too short, a file without a sidecar, and one with a block, reached before the limit,
      that cannot be gone by (answers tells which of them can be read). */
  method TryScan(mix: Mix, sidecar: Option<Sidecar>, file: seq<Byte>, answers: nat -> bool, q: string, start: seq<Hit>,
                 maxResults: int)
    returns (handled: bool, results: seq<Hit>)
    ensures !handled ==> results == start
    ensures !handled <==>
              || |q| < 3 || sidecar.None?
              || Breaks(mix, file, sidecar.value.bomLen, sidecar.value.blocks, answers, q, start, maxResults)
    ensures handled ==>
              results == Adding(mix, file, sidecar.value.bomLen, sidecar.value.blocks, q, start, maxResults)
  {
    hide Fails, Taken, Reached, Adding, Keys, KeyAt, FromBlocks;
    handled, results := false, start;
    if |q| < 3 || sidecar.None? { return; }
    var bom, blocks := sidecar.value.bomLen, sidecar.value.blocks;
    var groups := QueryTrigrams(q);
    assert blocks[0..] == blocks;
    NothingYet(mix, file, bom, blocks, q, start);
    var i := 0;
    while i < |blocks| && |results| < maxResults
      invariant 0 <= i <= |blocks|
      invariant Adding(mix, file, bom, blocks, q, start, maxResults) ==
                Adding(mix, file, bom, blocks[i..], q, results, maxResults)
      invariant results == Adding(mix, file, bom, blocks[..i], q, start, maxResults)
      invariant forall k :: 0 <= k < i && Reached(mix, file, bom, blocks, q, start, maxResults, k) ==>
                  !Fails(mix, file, bom, blocks[k], answers(k), q)
    {
      RoomMeansReached(mix, file, bom, blocks, q, start, maxResults, i);
      ghost var before := results;
      var ok;
      ok, results := SearchBlock(mix, blocks[i], answers(i), file, bom, q, groups, results, maxResults);
      if !ok { return false, start; }
      BlockDone(mix, file, bom, blocks[i..], q, before, maxResults);
      OneBlockMore(mix, file, bom, blocks, q, start, maxResults, i);
      i := i + 1;
    }
    NothingToAdd(mix, file, bom, blocks[i..], q, results, maxResults);
    RoomMeansReached(mix, file, bom, blocks, q, start, maxResults, i);
    forall k | i <= k < |blocks| ensures !Reached(mix, file, bom, blocks, q, start, maxResults, k) {
      NoneReached(mix, file, bom, blocks, q, start, maxResults, i, k);
    }
    handled := true;
  }

  /** A search that was handled, and had room for more, read every block that was to be read, and shows all their
      hits. */
  lemma AllWereRead(mix: Mix, file: seq<Byte>, bom: nat, blocks: seq<BlockEntry>, answers: nat -> bool, q: string,
                    start: seq<Hit>, maxResults: int, i: nat)
    requires !Breaks(mix, file, bom, blocks, answers, q, start, maxResults) && i < |blocks|
    requires |Adding(mix, file, bom, blocks, q, start, maxResults)| < maxResults
    ensures Adding(mix, file, bom, blocks, q, start, maxResults) == start + FromBlocks(mix, file, bom, blocks, q)
    ensures |blocks[i].bloom| > 0
    ensures Asked(mix, blocks[i], q) ==>
              && InFile(file, bom, blocks[i]) && answers(i)
              && Taken(mix, file, bom, blocks[i], q) == BlockHits(file, bom, blocks[i], q)
  {
    hide Asked, BlockHits;
    assert blocks[..|blocks|] == blocks;
    FewerHits(mix, file, bom, blocks, q, i, |blocks|);
    assert Reached(mix, file, bom, blocks, q, start, maxResults, i);
  }

  /** The file was shortened since it was indexed, so that the block that is to be read ends past it, or the block
      does not answer: it is not handled. */
  lemma ShortenedIsNotHandled(mix: Mix, file: seq<Byte>, bom: nat, b: BlockEntry, answers: nat -> bool, q: string,
                              start: seq<Hit>, maxResults: int)
    requires Asked(mix, b, q) && (|file| < b.endByte || !answers(0)) && |start| < maxResults
    ensures Breaks(mix, file, bom, [b], answers, q, start, maxResults)
  {
    assert [b][..0] == [];
    assert Reached(mix, file, bom, [b], q, start, maxResults, 0);
    assert Fails(mix, file, bom, [b][0], answers(0), q);
  }

  lemma NothingYet(mix: Mix, file: seq<Byte>, bom: nat, blocks: seq<BlockEntry>, q: string, start: seq<Hit>)
    ensures blocks[..0] == [] && FromBlocks(mix, file, bom, blocks[..0], q) == []
    ensures forall maxResults :: Adding(mix, file, bom, blocks[..0], q, start, maxResults) == start
  {}

  /** The hits of blocks, and then of one more. */
  lemma {:induction false} HitsOfMore(mix: Mix, file: seq<Byte>, bom: nat, blocks: seq<BlockEntry>, b: BlockEntry,
                                      q: string)
    ensures FromBlocks(mix, file, bom, blocks + [b], q) ==
            FromBlocks(mix, file, bom, blocks, q) + Taken(mix, file, bom, b, q)
  {
    hide Taken;
    if blocks == [] {
      assert [] + [b] == [b] && [b][1..] == [];
    } else {
      assert (blocks + [b])[1..] == blocks[1..] + [b];
      HitsOfMore(mix, file, bom, blocks[1..], b, q);
    }
  }

  lemma OneBlockMore(mix: Mix, file: seq<Byte>, bom: nat, blocks: seq<BlockEntry>, q: string, start: seq<Hit>,
                     maxResults: int, i: nat)
    requires i < |blocks|
    ensures var before := Adding(mix, file, bom, blocks[..i], q, start, maxResults);
            Adding(mix, file, bom, blocks[..i + 1], q, start, maxResults) ==
            before + UpTo(Taken(mix, file, bom, blocks[i], q), maxResults - |before|)
  {
    hide Taken;
    HitsOfMore(mix, file, bom, blocks[..i], blocks[i], q);
    assert blocks[..i + 1] == blocks[..i] + [blocks[i]];
    UpToBoth(start, FromBlocks(mix, file, bom, blocks[..i], q), Taken(mix, file, bom, blocks[i], q), maxResults);
  }

  lemma RoomMeansReached(mix: Mix, file: seq<Byte>, bom: nat, blocks: seq<BlockEntry>, q: string, start: seq<Hit>,
                         maxResults: int, i: nat)
    requires i <= |blocks|
    ensures |Adding(mix, file, bom, blocks[..i], q, start, maxResults)| < maxResults <==>
            Reached(mix, file, bom, blocks, q, start, maxResults, i)
  {
    hide FromBlocks;
  }

  lemma {:induction false} FewerHits(mix: Mix, file: seq<Byte>, bom: nat, blocks: seq<BlockEntry>, q: string, i: nat,
                                     k: nat)
    requires i <= k <= |blocks|
    ensures |FromBlocks(mix, file, bom, blocks[..i], q)| <= |FromBlocks(mix, file, bom, blocks[..k], q)|
  {
    hide Taken, FromBlocks;
    if i < k {
      FewerHits(mix, file, bom, blocks, q, i, k - 1);
      HitsOfMore(mix, file, bom, blocks[..k - 1], blocks[k - 1], q);
      assert blocks[..k] == blocks[..k - 1] + [blocks[k - 1]];
    }
  }

  lemma NoneReached(mix: Mix, file: seq<Byte>, bom: nat, blocks: seq<BlockEntry>, q: string, start: seq<Hit>,
                    maxResults: int, i: nat, k: nat)
    requires i <= k <= |blocks| && !Reached(mix, file, bom, blocks, q, start, maxResults, i)
    ensures !Reached(mix, file, bom, blocks, q, start, maxResults, k)
  {
    hide FromBlocks;
    FewerHits(mix, file, bom, blocks, q, i, k);
  }

  lemma NothingToAdd(mix: Mix, file: seq<Byte>, bom: nat, blocks: seq<BlockEntry>, q: string, results: seq<Hit>,
      maxResults: int)
    requires blocks == [] || |results| >= maxResults
    ensures Adding(mix, file, bom, blocks, q, results, maxResults) == results
  {}

  lemma BlockDone(mix: Mix, file: seq<Byte>, bom: nat, blocks: seq<BlockEntry>, q: string, before: seq<Hit>,
      maxResults: int)
    requires blocks != []
    ensures var after := before + UpTo(Taken(mix, file, bom, blocks[0], q), maxResults - |before|);
            Adding(mix, file, bom, blocks, q, before, maxResults) ==
              Adding(mix, file, bom, blocks[1..], q, after, maxResults)
  {
    UpToBoth(before, Taken(mix, file, bom, blocks[0], q), FromBlocks(mix, file, bom, blocks[1..], q), maxResults);
  }
}

/** Cutting a big file, as it streams by, into blocks that end at a line where they can, each with a Bloom filter over
    its trigrams. A cut in the middle of a line is a seam: the block after it also holds the trigrams that cross
    it. */
module BlockIndexer {
  import opened Common
  import opened Utf8
  import opened Bloom

  const CHUNK := 0x10_0000
  const TARGET := 0x10_0000
  const CAP := 0x100_0000
  const SEAM := 1024
  const BLOOM_BYTES := 16 * 1024
  const BLOOM_K := 4

  function Min(a: int, b: int): int { if a <= b then a else b }

  datatype BlockEntry = BlockEntry(startLine: int, startByte: nat, endByte: nat, bloom: seq<bv8>)

  // ---- trigrams ----

  function KeyAt(text: string, i: nat): int
    requires i + 3 <= |text|
  {
    TriKey(text[i], text[i + 1], text[i + 2])
  }

  /** The trigrams of a text: every window of three characters. */
  function Keys(text: string): set<int> {
    set i | 0 <= i <= |text| - 3 :: KeyAt(text, i)
  }

  lemma KeysOneMore(text: string, c: char)
    ensures Keys(text + [c]) == Keys(text) + if |text| >= 2 then {TriKey(text[|text| - 2], text[|text| - 1], c)} else {}
  {
    var more := text + [c];
    forall i | 0 <= i <= |text| - 3 ensures KeyAt(more, i) == KeyAt(text, i) {}
    if |text| >= 2 { assert KeyAt(more, |text| - 2) == TriKey(text[|text| - 2], text[|text| - 1], c); }
  }

  /** Collects the trigrams of a text that comes in pieces, with the last two characters carried from one to the
      next. */
  class TrigramAccumulator {
    var found: set<int>
    var a: char
    var b: char
    var seen: nat
    ghost var text: string

    ghost predicate Valid()
      reads this
    {
      && seen == Min(|text|, 2)
      && (seen >= 1 ==> b == text[|text| - 1])
      && (seen >= 2 ==> a == text[|text| - 2])
      && found == Keys(text)
    }

    constructor ()
      ensures Valid() && text == ""
    {
      found, a, b, seen, text := {}, '\0', '\0', 0, "";
    }

    method AddOne(c: char)
      requires Valid()
      modifies this
      ensures Valid() && text == old(text) + [c]
    {
      KeysOneMore(text, c);
      if seen >= 2 { found := found + {TriKey(a, b, c)}; }
      a, b := b, c;
      if seen < 2 { seen := seen + 1; }
      text := text + [c];
    }

    method Add(chars: string)
      requires Valid()
      modifies this
      ensures Valid() && text == old(text) + chars
    {
      for i := 0 to |chars|
        invariant Valid() && text == old(text) + chars[..i]
      {
        AddOne(chars[i]);
      }
    }
  }

  /** Does the filter admit every trigram of the text? */
  ghost predicate AdmitsText(mix: Mix, bits: seq<bv8>, text: string) {
    |bits| > 0 && forall i :: 0 <= i <= |text| - 3 ==> Admits(mix, bits, BLOOM_K, KeyAt(text, i))
  }

  /** More bits: nothing that was admitted is turned away. */
  ghost predicate Grows(bits: seq<bv8>, more: seq<bv8>) {
    |bits| == |more| && forall b: nat :: BitSet(bits, b) ==> BitSet(more, b)
  }

  lemma GrowsAdmits(mix: Mix, bits: seq<bv8>, more: seq<bv8>, text: string)
    requires Grows(bits, more) && AdmitsText(mix, bits, text)
    ensures AdmitsText(mix, more, text)
  {}

  method AddTrigramsToBloom(chars: string, bloom: BloomFilter)
    requires bloom.bits.Length > 0 && bloom.k == BLOOM_K
    modifies bloom.bits
    ensures AdmitsText(bloom.mix, bloom.bits[..], chars)
    ensures Grows(old(bloom.bits[..]), bloom.bits[..])
  {
    var i := 0;
    while i + 3 <= |chars|
      invariant 0 <= i
      invariant forall j :: 0 <= j < i && j + 3 <= |chars| ==>
                Admits(bloom.mix, bloom.bits[..], BLOOM_K, KeyAt(chars, j))
      invariant Grows(old(bloom.bits[..]), bloom.bits[..])
    {
      bloom.Add(TriKey(chars[i], chars[i + 1], chars[i + 2]));
      i := i + 1;
    }
  }

  method AddTrigrams(bytes: seq<Byte>, bloom: BloomFilter, whole: TrigramAccumulator?)
    requires bloom.bits.Length > 0 && bloom.k == BLOOM_K
    requires whole != null ==> whole.Valid()
    modifies bloom.bits, whole
    ensures AdmitsText(bloom.mix, bloom.bits[..], Decode(bytes))
    ensures Grows(old(bloom.bits[..]), bloom.bits[..])
    ensures whole != null ==> whole.Valid() && whole.text == old(whole.text) + Decode(bytes)
  {
    if |bytes| <= 0 { return; }
    var span := Decode(bytes);
    if whole != null { whole.Add(span); }
    AddTrigramsToBloom(span, bloom);
  }

  // ---- blocks ----

  /** The cutter's variables: what is buffered, the blocks closed so far, where the next one starts (byte, and lines
      before it), and the tail of a block that was cut in the middle of a line. */
  datatype Cutter = Cutter(buf: seq<Byte>, blocks: seq<BlockEntry>, startByte: nat, startLine: int,
    seamTail: Option<seq<Byte>>)

  const START := Cutter([], [], 0, 0, None)

  /** Where a block's text starts: after the byte order mark, in the first one. */
  function Body(bom: nat, startByte: nat): nat { if startByte == 0 then bom else startByte }

  /** Does the byte at i start in the middle of a line? */
  predicate MidLine(file: seq<Byte>, i: nat) {
    0 < i <= |file| && file[i - 1] != NEWLINE
  }

  /** What is read of a block to look for a query: the seam before it, where it continues a line. */
  function SeamStart(startByte: nat): nat { if startByte < SEAM then 0 else startByte - SEAM }

  ghost predicate BlockOk(mix: Mix, file: seq<Byte>, bom: nat, b: BlockEntry) {
    && b.startByte < b.endByte <= |file| && bom <= b.endByte && b.endByte - b.startByte <= CAP + CHUNK
    && b.startLine == 1 + CountNewlines(file[..b.startByte])
    && AdmitsText(mix, b.bloom, Decode(file[Body(bom, b.startByte)..b.endByte]))
    && (MidLine(file, b.startByte) ==>
          && CAP - 3 <= b.startByte
          && NEWLINE !in file[b.startByte - SEAM..b.startByte]
          && AdmitsText(mix, b.bloom,
             Decode(file[b.startByte - SEAM..b.startByte + Min(b.endByte - b.startByte, SEAM)])))
  }

  /** The blocks lie end to end, from the start of the file to `end`. */
  ghost predicate Tiles(blocks: seq<BlockEntry>, end: nat) {
    && (blocks == [] ==> end == 0)
    && (blocks != [] ==> blocks[0].startByte == 0 && blocks[|blocks| - 1].endByte == end)
    && forall i :: 0 < i < |blocks| ==> blocks[i - 1].endByte == blocks[i].startByte
  }

  /** Bytes that may be the beginning of a text. */
  ghost predicate TextSoFar(file: seq<Byte>, bom: nat) {
    bom <= |file| && exists ext :: Valid(file[bom..] + ext)
  }

  ghost predicate MarkOk(file: seq<Byte>, bom: nat) {
    bom <= 3 && (file != [] ==> bom <= |file| && forall i :: 0 <= i < bom ==> file[i] != NEWLINE)
  }

  /** What holds of the blocks closed so far, of the bytes that have gone by. */
  ghost predicate Closed(mix: Mix, file: seq<Byte>, bom: nat, blocks: seq<BlockEntry>, end: nat, final: bool) {
    && end <= |file|
    && Tiles(blocks, end)
    && (forall b <- blocks :: BlockOk(mix, file, bom, b))
    && (forall i :: 0 < i < |blocks| && MidLine(file, blocks[i].startByte) ==>
          blocks[i - 1].endByte - blocks[i - 1].startByte >= CAP - 3)
    && (TextSoFar(file, bom) ==> forall b <- blocks :: Valid(file[bom..b.endByte]) || (final && b.endByte == |file|))
  }

  ghost predicate Cuts(mix: Mix, file: seq<Byte>, bom: nat, c: Cutter, final: bool) {
    && Closed(mix, file, bom, c.blocks, c.startByte, final)
    && c.buf == file[c.startByte..]
    && c.startLine == CountNewlines(file[..c.startByte])
  }

  /** The last cut is remembered as a seam exactly where it split a line. */
  ghost predicate Seamed(file: seq<Byte>, c: Cutter)
    requires c.startByte <= |file|
  {
    if MidLine(file, c.startByte) then
      && CAP - 3 <= c.startByte
      && NEWLINE !in file[c.startByte - SEAM..c.startByte]
      && c.blocks != []
      && c.blocks[|c.blocks| - 1].endByte - c.blocks[|c.blocks| - 1].startByte >= CAP - 3
      && c.seamTail == Some(file[c.startByte - SEAM..c.startByte])
    else c.seamTail == None
  }

  /** The text gone into the whole-file trigrams is that of the closed blocks. */
  ghost predicate Accumulated(file: seq<Byte>, bom: nat, c: Cutter, text: string) {
    && bom <= 3 && c.startByte <= |file| && (c.startByte > 0 ==> bom <= c.startByte)
    && (c.startByte == 0 ==> text == "")
    && (TextSoFar(file, bom) && c.startByte > 0 ==> text == Decode(file[bom..c.startByte]))
  }

  // ---- closing one block ----

  method LastIndexOf(a: seq<Byte>, v: Byte) returns (i: int)
    ensures -1 <= i < |a|
    ensures i >= 0 ==> a[i] == v
    ensures forall k :: i < k < |a| ==> a[k] != v
  {
    i := |a| - 1;
    while i >= 0
      invariant -1 <= i < |a|
      invariant forall k :: i < k < |a| ==> a[k] != v
    {
      if a[i] == v { return; }
      i := i - 1;
    }
  }

  method Count(a: seq<Byte>, len: nat) returns (c: nat)
    requires len <= |a|
    ensures c == CountNewlines(a[..len])
  {
    c := 0;
    for i := 0 to len
      invariant c == CountNewlines(a[..i])
    {
      assert a[..i + 1][..i] == a[..i];
      if a[i] == NEWLINE { c := c + 1; }
    }
  }

  function Skip(c: Cutter, bom: nat): nat { if c.startByte == 0 then bom else 0 }

  function NewSeam(c: Cutter, bom: nat, cut: nat, force: bool): Option<seq<Byte>>
    requires 0 < cut <= |c.buf|
  {
    if cut > Skip(c, bom) && c.buf[cut - 1] != NEWLINE && (!force || |c.buf| - cut > 0)
    then Some(c.buf[cut - Min(cut - Skip(c, bom), SEAM)..cut])
    else None
  }

  /** The bytes around the seam before a block. */
  function SeamBytes(c: Cutter, bom: nat, cut: nat): seq<Byte>
    requires Skip(c, bom) <= cut <= |c.buf| && c.seamTail.Some?
  {
    c.seamTail.value + c.buf[Skip(c, bom)..Skip(c, bom) + Min(cut - Skip(c, bom), SEAM)]
  }

  /** The cutter after the first `cut` bytes of its buffer are closed as a block with this filter. */
  function CloseWith(c: Cutter, bom: nat, cut: nat, force: bool, bits: seq<bv8>): Cutter
    requires 0 < cut <= |c.buf|
  {
    Cutter(c.buf[cut..],
           c.blocks + [BlockEntry(c.startLine + 1, c.startByte, c.startByte + cut, bits)],
           c.startByte + cut,
           c.startLine + CountNewlines(c.buf[..cut]),
           NewSeam(c, bom, cut, force))
  }

  ghost predicate BloomOk(mix: Mix, c: Cutter, bom: nat, cut: nat, bits: seq<bv8>)
    requires Skip(c, bom) <= cut <= |c.buf|
  {
    && AdmitsText(mix, bits, Decode(c.buf[Skip(c, bom)..cut]))
    && (c.seamTail.Some? ==> AdmitsText(mix, bits, Decode(SeamBytes(c, bom, cut))))
  }

  method CloseBlock(mix: Mix, c: Cutter, bom: nat, cut: nat, force: bool, whole: TrigramAccumulator?)
    returns (c': Cutter, bits: seq<bv8>)
    requires 0 < cut <= |c.buf| && Skip(c, bom) <= cut
    requires whole != null ==> whole.Valid()
    modifies whole
    ensures BloomOk(mix, c, bom, cut, bits) && c' == CloseWith(c, bom, cut, force, bits)
    ensures whole != null ==> whole.Valid() && whole.text == old(whole.text) + Decode(c.buf[Skip(c, bom)..cut])
  {
    hide AdmitsText, Starts, CodePoint;
    var data, skip := c.buf, Skip(c, bom);
    var seam := if c.seamTail.Some? then Some(SeamBytes(c, bom, cut)) else None;
    bits := FillBloom(mix, data[skip..cut], seam, whole);
    var newlines := Count(data, cut);
    var seamTail := NewSeam(c, bom, cut, force);
    var entry := BlockEntry(c.startLine + 1, c.startByte, c.startByte + cut, bits);
    c' := Cutter(data[cut..], c.blocks + [entry], c.startByte + cut, c.startLine + newlines, seamTail);
  }

  /** A block's filter: the trigrams of its own text, and those of the seam before it. */
  method FillBloom(mix: Mix, body: seq<Byte>, seam: Option<seq<Byte>>, whole: TrigramAccumulator?)
      returns (bits: seq<bv8>)
    requires whole != null ==> whole.Valid()
    modifies whole
    ensures AdmitsText(mix, bits, Decode(body))
    ensures seam.Some? ==> AdmitsText(mix, bits, Decode(seam.value))
    ensures whole != null ==> whole.Valid() && whole.text == old(whole.text) + Decode(body)
  {
    hide AdmitsText, Grows;
    var bloom := new BloomFilter(mix, BLOOM_BYTES, BLOOM_K);
    AddTrigrams(body, bloom, whole);
    if seam.Some? {
      label Own:
      AddTrigrams(seam.value, bloom, null);
      GrowsAdmits(mix, old@Own(bloom.bits[..]), bloom.bits[..], Decode(body));
    }
    bits := bloom.bits[..];
  }

  // ---- what closing a block keeps ----

  lemma {:induction false} CountAppend(a: seq<Byte>, b: seq<Byte>)
    ensures CountNewlines(a + b) == CountNewlines(a) + CountNewlines(b)
    decreases |b|
  {
    if b == [] {
      assert a + b == a;
    } else {
      assert (a + b)[..|a + b| - 1] == a + b[..|b| - 1];
      CountAppend(a, b[..|b| - 1]);
    }
  }

  /** A cut after a newline splits no character. */
  lemma NewlineCut(file: seq<Byte>, bom: nat, k: nat)
    requires TextSoFar(file, bom) && bom < k <= |file| && file[k - 1] == NEWLINE
    ensures Valid(file[bom..k])
  {
    hide Decode, Starts;
    var ext :| Valid(file[bom..] + ext);
    var d := file[bom..k];
    assert file[bom..] + ext == d + (file[k..] + ext);
    var n := SplitPrefix(d, file[k..] + ext);
    assert d[..|d|] == d;
  }

  /** What is buffered is text, from where the last block ended. */
  lemma BufferIsText(file: seq<Byte>, bom: nat, s: nat)
    requires TextSoFar(file, bom) && bom <= s <= |file| && Valid(file[bom..s])
    ensures exists ext :: Valid(file[s..] + ext)
  {
    var ext :| Valid(file[bom..] + ext);
    assert file[bom..] + ext == file[bom..s] + (file[s..] + ext);
    DecodeAppend(file[bom..s], file[s..] + ext);
  }

  /** Why a block may end at a cut of the buffer. */
  ghost predicate CutOk(file: seq<Byte>, bom: nat, c: Cutter, cut: nat, force: bool) {
    && 0 < cut <= |c.buf| && Skip(c, bom) <= cut
    && (c.buf[cut - 1] == NEWLINE || (cut >= CAP - 3 && NEWLINE !in c.buf[..cut]) || (force && cut == |c.buf|))
    && (TextSoFar(file, bom) && bom <= c.startByte + cut <= |file| ==>
          Valid(file[bom..c.startByte + cut]) || (force && cut == |c.buf|))
  }

  lemma LinesBefore(file: seq<Byte>, c: Cutter, cut: nat)
    requires c.startByte <= |file| && c.buf == file[c.startByte..] && cut <= |c.buf|
    requires c.startLine == CountNewlines(file[..c.startByte])
    ensures CountNewlines(file[..c.startByte + cut]) == c.startLine + CountNewlines(c.buf[..cut])
  {
    assert file[..c.startByte + cut] == file[..c.startByte] + c.buf[..cut];
    CountAppend(file[..c.startByte], c.buf[..cut]);
  }

  lemma SeamIs(file: seq<Byte>, bom: nat, c: Cutter, cut: nat)
    requires c.startByte <= |file| && c.buf == file[c.startByte..] && Skip(c, bom) <= cut <= |c.buf|
    requires Seamed(file, c) && MidLine(file, c.startByte)
    ensures CAP - 3 <= c.startByte && c.seamTail.Some? && NEWLINE !in file[c.startByte - SEAM..c.startByte]
    ensures SeamBytes(c, bom, cut) == file[c.startByte - SEAM..c.startByte + Min(cut, SEAM)]
  {}

  lemma NewBlockOk(mix: Mix, file: seq<Byte>, bom: nat, c: Cutter, cut: nat, bits: seq<bv8>)
    requires c.startByte <= |file| && c.buf == file[c.startByte..] && c.startLine == CountNewlines(file[..c.startByte])
    requires bom <= 3 && 0 < cut <= |c.buf| <= CAP + CHUNK && Skip(c, bom) <= cut && bom <= c.startByte + cut
    requires Seamed(file, c) && BloomOk(mix, c, bom, cut, bits)
    ensures BlockOk(mix, file, bom, BlockEntry(c.startLine + 1, c.startByte, c.startByte + cut, bits))
  {
    hide AdmitsText, Starts, CodePoint, Seamed, SeamBytes;
    var s := c.startByte;
    assert file[Body(bom, s)..s + cut] == c.buf[Skip(c, bom)..cut];
    if MidLine(file, s) { SeamIs(file, bom, c, cut); }
  }

  lemma OneMoreClosed(mix: Mix, file: seq<Byte>, bom: nat, blocks: seq<BlockEntry>, b: BlockEntry, final: bool)
    requires Closed(mix, file, bom, blocks, b.startByte, false) && BlockOk(mix, file, bom, b)
    requires blocks != [] && MidLine(file, b.startByte) ==>
               blocks[|blocks| - 1].endByte - blocks[|blocks| - 1].startByte >= CAP - 3
    requires TextSoFar(file, bom) ==> Valid(file[bom..b.endByte]) || (final && b.endByte == |file|)
    ensures Closed(mix, file, bom, blocks + [b], b.endByte, final)
  {
    hide BlockOk, TextSoFar, Valid, MidLine;
    BlockBounds(mix, file, bom, b);
    var more := blocks + [b];
    assert forall x <- more :: x in blocks || x == b;
    assert forall i :: 0 <= i < |blocks| ==> more[i] == blocks[i];
  }

  lemma BlockBounds(mix: Mix, file: seq<Byte>, bom: nat, b: BlockEntry)
    requires BlockOk(mix, file, bom, b)
    ensures b.startByte < b.endByte <= |file| && bom <= b.endByte && b.endByte - b.startByte <= CAP + CHUNK
  {}

  lemma SeamKept(file: seq<Byte>, bom: nat, c: Cutter, cut: nat, force: bool, bits: seq<bv8>)
    requires MarkOk(file, bom) && CutOk(file, bom, c, cut, force)
    requires c.startByte <= |file| && c.buf == file[c.startByte..] && !(force && cut == |c.buf|)
    ensures Seamed(file, CloseWith(c, bom, cut, force, bits))
  {
    hide TextSoFar, Valid;
    var c' := CloseWith(c, bom, cut, force, bits);
    assert c.buf[cut - 1] == file[c.startByte + cut - 1];
    if MidLine(file, c'.startByte) {
      assert c.buf[..cut][cut - SEAM..] == c.buf[cut - SEAM..cut];
      assert c.buf[cut - SEAM..cut] == file[c'.startByte - SEAM..c'.startByte];
    }
  }

  lemma CloseKeeps(mix: Mix, file: seq<Byte>, bom: nat, c: Cutter, cut: nat, force: bool, bits: seq<bv8>)
    requires MarkOk(file, bom) && Cuts(mix, file, bom, c, false) && Seamed(file, c) && CutOk(file, bom, c, cut, force)
    requires BloomOk(mix, c, bom, cut, bits) && |c.buf| <= CAP + CHUNK
    ensures var c' := CloseWith(c, bom, cut, force, bits);
            && Cuts(mix, file, bom, c', force && cut == |c.buf|)
            && (!(force && cut == |c.buf|) ==> Seamed(file, c'))
  {
    hide BlockOk, BloomOk, Valid, Closed, Seamed, NewSeam;
    Buffered(mix, file, bom, c);
    MarkCovered(mix, file, bom, c, cut, force);
    LinesBefore(file, c, cut);
    NewBlockOk(mix, file, bom, c, cut, bits);
    var b := BlockEntry(c.startLine + 1, c.startByte, c.startByte + cut, bits);
    LastBlockLong(file, c);
    OneMoreClosed(mix, file, bom, c.blocks, b, force && cut == |c.buf|);
    assert c.buf[cut..] == file[c.startByte + cut..];
    if !(force && cut == |c.buf|) { SeamKept(file, bom, c, cut, force, bits); }
  }

  lemma Buffered(mix: Mix, file: seq<Byte>, bom: nat, c: Cutter)
    requires Cuts(mix, file, bom, c, false)
    ensures c.startByte <= |file| && c.buf == file[c.startByte..]
  {}

  lemma MarkCovered(mix: Mix, file: seq<Byte>, bom: nat, c: Cutter, cut: nat, force: bool)
    requires MarkOk(file, bom) && Cuts(mix, file, bom, c, false) && CutOk(file, bom, c, cut, force)
    ensures bom <= c.startByte + cut
  {
    if c.startByte > 0 { BlockBounds(mix, file, bom, c.blocks[|c.blocks| - 1]); }
  }

  lemma LastBlockLong(file: seq<Byte>, c: Cutter)
    requires c.startByte <= |file| && Seamed(file, c)
    ensures c.blocks != [] && MidLine(file, c.startByte) ==>
              c.blocks[|c.blocks| - 1].endByte - c.blocks[|c.blocks| - 1].startByte >= CAP - 3
  {}

  // ---- draining ----

  /** The bytes after the last newline. */
  function LastLine(b: seq<Byte>): (tail: seq<Byte>)
    ensures |tail| <= |b|
  {
    if b == [] || b[|b| - 1] == NEWLINE then [] else LastLine(b[..|b| - 1]) + [b[|b| - 1]]
  }

  lemma {:induction false} LastLineIs(b: seq<Byte>, k: nat)
    requires k <= |b| && (k > 0 ==> b[k - 1] == NEWLINE) && forall i :: k <= i < |b| ==> b[i] != NEWLINE
    ensures LastLine(b) == b[k..]
    decreases |b|
  {
    if k < |b| {
      LastLineIs(b[..|b| - 1], k);
    }
  }

  /** A last line this long, and no longer, is left open by the final drain. */
  predicate Stuck(b: seq<Byte>) { TARGET <= |LastLine(b)| < CAP }

  lemma StuckFrom(b: seq<Byte>, k: nat)
    requires k <= |b| && (k > 0 ==> b[k - 1] == NEWLINE) && forall i :: k <= i < |b| ==> b[i] != NEWLINE
    ensures Stuck(b) <==> TARGET <= |b| - k < CAP
    ensures Stuck(b[k..]) == Stuck(b)
  {
    LastLineIs(b, k);
    LastLineIs(b[k..], 0);
  }

  lemma ShortNotStuck(b: seq<Byte>)
    requires |b| < TARGET
    ensures !Stuck(b)
  {}

  lemma StartIsBoundary(mix: Mix, file: seq<Byte>, bom: nat, c: Cutter)
    requires Cuts(mix, file, bom, c, false) && c.startByte > 0
    ensures bom <= c.startByte && (TextSoFar(file, bom) ==> Valid(file[bom..c.startByte]))
  {
    var b := c.blocks[|c.blocks| - 1];
    assert b in c.blocks;
    BlockBounds(mix, file, bom, b);
  }

  lemma NewlineCutOk(mix: Mix, file: seq<Byte>, bom: nat, c: Cutter, cut: nat, force: bool)
    requires MarkOk(file, bom) && Cuts(mix, file, bom, c, false)
    requires 0 < cut <= |c.buf| && c.buf[cut - 1] == NEWLINE
    ensures CutOk(file, bom, c, cut, force)
  {
    hide Valid, Cuts, TextSoFar;
    Buffered(mix, file, bom, c);
    var k := c.startByte + cut;
    assert file[k - 1] == c.buf[cut - 1];
    assert bom < k;
    if TextSoFar(file, bom) { NewlineCut(file, bom, k); }
  }

  lemma CapCutOk(mix: Mix, file: seq<Byte>, bom: nat, c: Cutter, cut: nat, force: bool)
    requires MarkOk(file, bom) && Cuts(mix, file, bom, c, false)
    requires Skip(c, bom) < cut <= |c.buf| && CAP - 3 <= cut && NEWLINE !in c.buf[..cut]
    requires (exists ext :: Valid(c.buf[Skip(c, bom)..] + ext)) ==> Valid(c.buf[Skip(c, bom)..cut])
    ensures CutOk(file, bom, c, cut, force)
  {
    hide Valid, Decode, Cuts;
    Buffered(mix, file, bom, c);
    var s := c.startByte;
    if TextSoFar(file, bom) && bom <= s + cut {
      if s == 0 {
        assert file[bom..cut] == c.buf[bom..cut];
      } else {
        StartIsBoundary(mix, file, bom, c);
        BufferIsText(file, bom, s);
        assert c.buf[0..] == c.buf;
        DecodeAppend(file[bom..s], c.buf[0..cut]);
        assert file[bom..s] + c.buf[0..cut] == file[bom..s + cut];
      }
    }
  }

  lemma EndCutOk(mix: Mix, file: seq<Byte>, bom: nat, c: Cutter)
    requires MarkOk(file, bom) && Cuts(mix, file, bom, c, false) && c.buf != []
    ensures CutOk(file, bom, c, |c.buf|, true)
  {}

  lemma PieceDecodes(file: seq<Byte>, bom: nat, s: nat, cut: nat)
    requires bom <= s <= s + cut <= |file| && Valid(file[bom..s])
    ensures Decode(file[bom..s]) + Decode(file[s..s + cut]) == Decode(file[bom..s + cut])
  {
    hide Valid, Decode;
    DecodeAppend(file[bom..s], file[s..s + cut]);
    assert file[bom..s] + file[s..s + cut] == file[bom..s + cut];
  }

  lemma AccumulatedTo(file: seq<Byte>, bom: nat, c: Cutter, c': Cutter, text: string)
    requires Accumulated(file, bom, c, text) && c.startByte < c'.startByte <= |file| && bom <= c'.startByte
    requires TextSoFar(file, bom) && c.startByte > 0 ==> Valid(file[bom..c.startByte])
    ensures Accumulated(file, bom, c', text + Decode(file[Body(bom, c.startByte)..c'.startByte]))
  {
    hide Valid, Decode, TextSoFar;
    if TextSoFar(file, bom) && c.startByte > 0 { PieceDecodes(file, bom, c.startByte, c'.startByte - c.startByte); }
  }

  /** What is decoded of a block goes to the text of the closed blocks. */
  lemma AccumulateOne(mix: Mix, file: seq<Byte>, bom: nat, c: Cutter, cut: nat, text: string, c': Cutter)
    requires Cuts(mix, file, bom, c, false) && Accumulated(file, bom, c, text)
    requires 0 < cut <= |c.buf| && Skip(c, bom) <= cut && c'.startByte == c.startByte + cut
    ensures Accumulated(file, bom, c', text + Decode(c.buf[Skip(c, bom)..cut]))
  {
    hide Valid, Decode, Cuts, TextSoFar, Accumulated;
    Buffered(mix, file, bom, c);
    if c.startByte > 0 { StartIsBoundary(mix, file, bom, c); }
    PieceOfFile(file, c.startByte, c.buf, Skip(c, bom), cut);
    AccumulatedTo(file, bom, c, c', text);
  }

  lemma PieceOfFile(file: seq<Byte>, s: nat, buf: seq<Byte>, from: nat, to: nat)
    requires s <= |file| && buf == file[s..] && from <= to <= |buf|
    ensures buf[from..to] == file[s + from..s + to]
  {}

  // ---- where the forced cuts of a long line fall ----

  /** A length in whole chunks. */
  predicate Whole(n: nat) { n % CHUNK == 0 }

  function RoundUp(n: nat): (r: nat)
    ensures n <= r < n + CHUNK && Whole(r)
  {
    (n + CHUNK - 1) / CHUNK * CHUNK
  }

  function LineAt(file: seq<Byte>): nat { |file| - |LastLine(file)| }

  /** Where a block that starts at s is cut, in a line that goes on: at the end of the chunk by which the longest length
      a block may have is reached, back at a character. */
  function ForcedEnd(file: seq<Byte>, bom: nat, s: nat): (end: nat)
    requires s + CAP <= |file| && bom <= 3
    ensures s < end <= |file|
  {
    BoundaryBefore(file, if s == 0 then bom else s, Min(|file|, RoundUp(s + CAP)))
  }

  /** Where the last block ends of a line that starts at s, and does not end. */
  function ForcedCuts(file: seq<Byte>, bom: nat, s: nat): (end: nat)
    requires s <= |file| && bom <= 3
    ensures s <= end <= |file| && |file| - end < CAP
    decreases |file| - s
  {
    if |file| - s < CAP then s
    else ForcedCuts(file, bom, ForcedEnd(file, bom, s))
  }

  /** A block ends with a line, or at a forced cut - or, the last one, with the file, and is short. */
  predicate EndsWell(file: seq<Byte>, bom: nat, b: BlockEntry, final: bool) {
    && bom <= 3 && b.endByte <= |file|
    && (MidLine(file, b.endByte) ==>
          || (b.startByte + CAP <= |file| && b.endByte == ForcedEnd(file, bom, b.startByte))
          || (final && b.endByte == |file| < b.startByte + TARGET))
  }

  /** No cut is overdue; and, in a line that is going on, the cutter is where the forced cuts fall. */
  ghost predicate OnChain(file: seq<Byte>, bom: nat, c: Cutter) {
    && bom <= 3 && c.startByte <= |file| <= RoundUp(c.startByte + CAP)
    && (NEWLINE !in c.buf ==> ForcedCuts(file, bom, LineAt(file)) == ForcedCuts(file, bom, c.startByte))
    && forall b <- c.blocks :: EndsWell(file, bom, b, false)
  }

  lemma RoundedWithin(n: nat, m: nat)
    requires Whole(m)
    ensures n <= m ==> RoundUp(n) <= m
    ensures n > m ==> RoundUp(n) >= m + CHUNK
  {}

  /** More of the line does not move the cuts that were made at the ends of whole chunks. */
  lemma {:induction false} CutsStay(file: seq<Byte>, chunk: seq<Byte>, bom: nat, s: nat)
    requires s <= |file| && bom <= 3 && Whole(|file|)
    ensures ForcedCuts(file + chunk, bom, s) == ForcedCuts(file + chunk, bom, ForcedCuts(file, bom, s))
    decreases |file| - s
  {
    hide RoundUp, Whole, BoundaryBefore;
    if |file| - s >= CAP {
      var o, skip := RoundUp(s + CAP), if s == 0 then bom else s;
      RoundedWithin(s + CAP, |file|);
      BoundaryShift([], file, chunk, skip, o);
      assert [] + file + chunk == file + chunk;
      CutsStay(file, chunk, bom, BoundaryBefore(file, skip, o));
    }
  }

  lemma EndStaysWell(file: seq<Byte>, chunk: seq<Byte>, bom: nat, b: BlockEntry)
    requires EndsWell(file, bom, b, false) && Whole(|file|)
    ensures EndsWell(file + chunk, bom, b, false)
  {
    hide RoundUp, Whole, BoundaryBefore;
    if MidLine(file, b.endByte) {
      var o, skip := RoundUp(b.startByte + CAP), if b.startByte == 0 then bom else b.startByte;
      RoundedWithin(b.startByte + CAP, |file|);
      BoundaryShift([], file, chunk, skip, o);
      assert [] + file + chunk == file + chunk;
    }
  }

  /** A chunk more. */
  lemma ChainWritten(file: seq<Byte>, chunk: seq<Byte>, bom: nat, c: Cutter)
    requires OnChain(file, bom, c) && Whole(|file|) && |chunk| <= CHUNK
    requires c.startByte <= |file| && c.buf == file[c.startByte..] && |c.buf| < CAP
    ensures OnChain(file + chunk, bom, c.(buf := c.buf + chunk))
  {
    hide RoundUp, Whole, BoundaryBefore, ForcedCuts, LastLine, EndsWell;
    RoundedWithin(c.startByte + CAP, |file|);
    forall b <- c.blocks ensures EndsWell(file + chunk, bom, b, false) { EndStaysWell(file, chunk, bom, b); }
    if NEWLINE !in c.buf + chunk {
      assert forall x :: x in c.buf || x in chunk ==> x in c.buf + chunk;
      LastLineHolds(file, chunk);
      CutsStay(file, chunk, bom, LineAt(file));
      CutsStay(file, chunk, bom, c.startByte);
    }
  }

  /** The cutter after a cut of its buffer. */
  predicate CutOff(c: Cutter, cut: nat, c': Cutter) {
    && 0 < cut <= |c.buf| && c'.startByte == c.startByte + cut && c'.buf == c.buf[cut..]
    && |c'.blocks| == |c.blocks| + 1 && c'.blocks[..|c.blocks|] == c.blocks
    && c'.blocks[|c.blocks|].startByte == c.startByte && c'.blocks[|c.blocks|].endByte == c'.startByte
  }

  /** After a cut at the last newline. */
  lemma ChainNewline(file: seq<Byte>, bom: nat, c: Cutter, cut: nat, c': Cutter)
    requires OnChain(file, bom, c) && c.buf == file[c.startByte..] && CutOff(c, cut, c')
    requires c.buf[cut - 1] == NEWLINE && NEWLINE !in c'.buf
    ensures OnChain(file, bom, c')
  {
    hide RoundUp, ForcedCuts, EndsWell;
    RoundUpGrows(c.startByte + CAP, c'.startByte + CAP);
    assert EndsWell(file, bom, c'.blocks[|c.blocks|], false) by { NewlineEndsWell(file, bom, c, cut, c'); }
    OneMoreWell(file, bom, c.blocks, c'.blocks);
    forall i | c'.startByte <= i < |file| ensures file[i] != NEWLINE { assert file[i] == c'.buf[i - c'.startByte]; }
    LastLineIs(file, c'.startByte);
  }

  /** After a forced cut of all that is buffered. */
  lemma ChainForced(file: seq<Byte>, bom: nat, c: Cutter, cut: nat, c': Cutter)
    requires OnChain(file, bom, c) && c.buf == file[c.startByte..] && CutOff(c, cut, c')
    requires |c.buf| >= CAP && NEWLINE !in c.buf
    requires Skip(c, bom) < |c.buf| && cut == BoundaryBefore(c.buf, Skip(c, bom), |c.buf|)
    ensures OnChain(file, bom, c')
  {
    hide RoundUp, BoundaryBefore, LastLine, EndsWell;
    var s := c.startByte;
    RoundUpGrows(s + CAP, c'.startByte + CAP);
    BoundaryShift(file[..s], c.buf, [], Skip(c, bom), |c.buf|);
    assert file[..s] + c.buf + [] == file;
    assert c'.startByte == ForcedEnd(file, bom, s);
    assert EndsWell(file, bom, c'.blocks[|c.blocks|], false) by { ForcedEndsWell(file, bom, c'.blocks[|c.blocks|]); }
    OneMoreWell(file, bom, c.blocks, c'.blocks);
  }

  lemma NewlineEndsWell(file: seq<Byte>, bom: nat, c: Cutter, cut: nat, c': Cutter)
    requires bom <= 3 && c.startByte <= |file| && c.buf == file[c.startByte..] && CutOff(c, cut, c')
    requires c.buf[cut - 1] == NEWLINE
    ensures EndsWell(file, bom, c'.blocks[|c.blocks|], false)
  {
    assert file[c'.startByte - 1] == c.buf[cut - 1];
  }

  lemma ForcedEndsWell(file: seq<Byte>, bom: nat, b: BlockEntry)
    requires bom <= 3 && b.startByte + CAP <= |file| && b.endByte == ForcedEnd(file, bom, b.startByte)
    ensures EndsWell(file, bom, b, false)
  {}

  lemma OneMoreWell(file: seq<Byte>, bom: nat, blocks: seq<BlockEntry>, more: seq<BlockEntry>)
    requires |more| == |blocks| + 1 && more[..|blocks|] == blocks
    requires (forall b <- blocks :: EndsWell(file, bom, b, false)) && EndsWell(file, bom, more[|blocks|], false)
    ensures forall b <- more :: EndsWell(file, bom, b, false)
  {
    hide EndsWell;
    assert more == more[..|blocks|] + [more[|blocks|]];
  }

  /** After the last cut. */
  lemma AllEndWell(file: seq<Byte>, bom: nat, c: Cutter, cut: nat, c': Cutter)
    requires OnChain(file, bom, c) && c.buf == file[c.startByte..] && CutOff(c, cut, c') && cut == |c.buf| < TARGET
    ensures forall b <- c'.blocks :: EndsWell(file, bom, b, true)
  {
    assert c'.blocks == c'.blocks[..|c.blocks|] + [c'.blocks[|c.blocks|]];
  }

  lemma ChainEndsWell(file: seq<Byte>, bom: nat, c: Cutter)
    requires OnChain(file, bom, c)
    ensures forall b <- c.blocks :: EndsWell(file, bom, b, true)
  {}

  /** After a cut at the last newline, or a forced one. */
  lemma ChainCut(file: seq<Byte>, bom: nat, c: Cutter, cut: nat, c': Cutter)
    requires OnChain(file, bom, c) && c.buf == file[c.startByte..] && CutOff(c, cut, c')
    requires (c.buf[cut - 1] == NEWLINE && NEWLINE !in c'.buf) ||
             (|c.buf| >= CAP && NEWLINE !in c.buf && Skip(c, bom) < |c.buf| &&
              cut == BoundaryBefore(c.buf, Skip(c, bom), |c.buf|))
    ensures OnChain(file, bom, c')
  {
    if c.buf[cut - 1] == NEWLINE { ChainNewline(file, bom, c, cut, c'); } else { ChainForced(file, bom, c, cut, c'); }
  }

  lemma ChunkMore(n: nat)
    ensures Whole(0) && Whole(CHUNK) && (Whole(n) ==> Whole(n + CHUNK))
  {}

  lemma RoundUpGrows(n: nat, m: nat)
    requires n <= m
    ensures RoundUp(n) <= RoundUp(m)
  {
    RoundedWithin(n, RoundUp(m));
  }

  lemma {:induction false} LastLineHolds(a: seq<Byte>, b: seq<Byte>)
    requires NEWLINE !in b
    ensures LastLine(a + b) == LastLine(a) + b
    decreases |b|
  {
    if b == [] {
      assert a + b == a;
    } else {
      assert (a + b)[..|a + b| - 1] == a + b[..|b| - 1];
      LastLineHolds(a, b[..|b| - 1]);
    }
  }

  /** Where to cut the buffer; not above 0 where nothing is to be closed yet. */
  method FindCut(mix: Mix, c: Cutter, bom: nat, force: bool, ghost file: seq<Byte>) returns (cut: int)
    requires MarkOk(file, bom) && Cuts(mix, file, bom, c, false) && c.buf != []
    ensures cut > 0 ==> CutOk(file, bom, c, cut, force)
    ensures cut > 0 ==> cut <= |c.buf| && Stuck(c.buf[cut..]) == Stuck(c.buf)
    ensures cut <= 0 ==> |c.buf| < CAP && (force ==> Stuck(c.buf) && NEWLINE !in c.buf)
    ensures cut > 0 ==>
              (c.buf[cut - 1] == NEWLINE && NEWLINE !in c.buf[cut..]) || (force && cut == |c.buf| < TARGET) ||
              (|c.buf| >= CAP && NEWLINE !in c.buf && Skip(c, bom) < |c.buf| &&
               cut == BoundaryBefore(c.buf, Skip(c, bom), |c.buf|))
  {
    hide Cuts, CutOk, Valid, MarkOk, Stuck, LastLine;
    var len := |c.buf|;
    var skip := if c.startByte == 0 then bom else 0;
    cut := -1;
    if len >= TARGET {
      cut := LastIndexOf(c.buf, NEWLINE);
      cut := cut + 1;
      StuckFrom(c.buf, cut);
      if cut > 0 {
        NewlineCutOk(mix, file, bom, c, cut, force);
      } else {
        cut := -1;
        if len >= CAP {
          MarkIsShort(file, bom);
          cut := TrimToCharBoundary(c.buf, skip, len);
          assert c.buf[skip..len] == c.buf[skip..];
          CapCutOk(mix, file, bom, c, cut, force);
          ShortNotStuck(c.buf[cut..]);
        }
      }
    } else if force {
      cut := len;
      ShortNotStuck(c.buf);
      ShortNotStuck(c.buf[cut..]);
      EndCutOk(mix, file, bom, c);
    }
  }

  lemma MarkIsShort(file: seq<Byte>, bom: nat)
    requires MarkOk(file, bom)
    ensures bom <= 3
  {}

  lemma CutBounds(file: seq<Byte>, bom: nat, c: Cutter, cut: nat, force: bool)
    requires CutOk(file, bom, c, cut, force)
    ensures 0 < cut <= |c.buf| && Skip(c, bom) <= cut
  {}

  lemma AllClosed(mix: Mix, file: seq<Byte>, bom: nat, c: Cutter, final: bool)
    requires Cuts(mix, file, bom, c, final)
    ensures Cuts(mix, file, bom, c, true)
    ensures c.startByte <= |file| && (c.startByte == |file| <==> c.buf == [])
  {}

  lemma OpenFrom(mix: Mix, file: seq<Byte>, bom: nat, c: Cutter)
    requires Cuts(mix, file, bom, c, false) && OnChain(file, bom, c) && NEWLINE !in c.buf && |c.buf| < CAP
    ensures c.startByte == ForcedCuts(file, bom, LineAt(file))
  {
    hide Closed, BoundaryBefore, RoundUp, LastLine;
  }

  /** Closes every full block that is buffered; forced, closes what is left. Forced, everything is closed exactly where
      the last line is not as long as a block and yet shorter than the longest line a block may hold. */
  method DrainFullBlocks(mix: Mix, start: Cutter, bom: nat, force: bool, whole: TrigramAccumulator?,
      ghost file: seq<Byte>)
    returns (c: Cutter)
    requires MarkOk(file, bom) && Cuts(mix, file, bom, start, false) && Seamed(file, start) && OnChain(file, bom, start)
    requires |start.buf| <= CAP + CHUNK
    requires whole != null ==> whole.Valid() && Accumulated(file, bom, start, whole.text)
    modifies whole
    ensures Cuts(mix, file, bom, c, force)
    ensures !force ==> Seamed(file, c) && |c.buf| < CAP && OnChain(file, bom, c)
    ensures force ==> (c.startByte == |file| <==> !Stuck(start.buf))
    ensures force ==> c.startByte == |file| || c.startByte == ForcedCuts(file, bom, LineAt(file))
    ensures force ==> forall b <- c.blocks :: EndsWell(file, bom, b, true)
    ensures whole != null ==> whole.Valid() && Accumulated(file, bom, c, whole.text)
  {
    hide Cuts, Seamed, MarkOk, Accumulated, BloomOk, CutOk, Stuck, NewSeam, OnChain, BoundaryBefore, EndsWell;
    c := start;
    AllClosed(mix, file, bom, c, false);
    ChainEndsWell(file, bom, c);
    while true
      invariant Cuts(mix, file, bom, c, false) && c.startByte <= |file| && Seamed(file, c) && |c.buf| <= CAP + CHUNK
      invariant whole != null ==> whole.Valid() && Accumulated(file, bom, c, whole.text)
      invariant Stuck(c.buf) == Stuck(start.buf)
      invariant OnChain(file, bom, c) && forall b <- c.blocks :: EndsWell(file, bom, b, true)
      decreases |c.buf|
    {
      AllClosed(mix, file, bom, c, false);
      if |c.buf| == 0 { EmptyNotStuck(); return; }
      var cut := FindCut(mix, c, bom, force, file);
      if cut <= 0 {
        if force { OpenFrom(mix, file, bom, c); }
        return;
      }
      CutBounds(file, bom, c, cut, force);
      ghost var before := c;
      ghost var text := if whole != null then whole.text else "";
      var bits;
      Buffered(mix, file, bom, before);
      c, bits := CloseBlock(mix, c, bom, cut, force, whole);
      CloseKeeps(mix, file, bom, before, cut, force, bits);
      if whole != null { AccumulateOne(mix, file, bom, before, cut, text, c); }
      AllClosed(mix, file, bom, c, force && cut == |before.buf|);
      if force && cut == |before.buf| < TARGET {
        AllEndWell(file, bom, before, cut, c);
      } else {
        MarkIsShort(file, bom);
        ChainCut(file, bom, before, cut, c);
        ChainEndsWell(file, bom, c);
      }
      if !force && |c.buf| < TARGET { return; }
      if |c.buf| == 0 { EmptyNotStuck(); return; }
    }
  }

  lemma EmptyNotStuck()
    ensures !Stuck([])
  {}

  // ---- the whole file ----

  /** The encoding a file's first bytes tell: is it UTF-8, and how long is its byte order mark? */
  function DetectBom(b: seq<Byte>): (r: (bool, nat))
    ensures r.0 ==> MarkOk(b, r.1)
  {
    if |b| >= 4 && b[0] == 0 && b[1] == 0 && b[2] == 0xFE && b[3] == 0xFF then (false, 4)
    else if |b| >= 4 && b[0] == 0xFF && b[1] == 0xFE && b[2] == 0 && b[3] == 0 then (false, 4)
    else if |b| >= 3 && b[0] == 0xEF && b[1] == 0xBB && b[2] == 0xBF then (true, 3)
    else if |b| >= 2 && b[0] == 0xFE && b[1] == 0xFF then (false, 2)
    else if |b| >= 2 && b[0] == 0xFF && b[1] == 0xFE then (false, 2)
    else (true, 0)
  }

  const MARK := '\U{FEFF}'

  lemma {:induction false} EncodedBytes(text: string)
    ensures forall i :: 0 <= i < |EncodeAll(text)| ==> EncodeAll(text)[i] < 0xF8
  {
    if text != "" {
      EncodedBytes(text[1..]);
      EncodedStarts(text[0]);
    }
  }

  lemma MarkBytes(text: string)
    ensures EncodeAll([MARK] + text) == [0xEF, 0xBB, 0xBF] + EncodeAll(text)
  {
    assert ([MARK] + text)[1..] == text;
    assert Encode(MARK) == [0xEF, 0xBB, 0xBF];
  }

  lemma StartsWithMark(text: string)
    requires var b := EncodeAll(text); |b| >= 3 && b[0] == 0xEF && b[1] == 0xBB && b[2] == 0xBF
    ensures text[0] == MARK
  {
    var b := EncodeAll(text);
    EncodedReads(text);
    assert Starts(b) && CodePoint(b) == 0xFEFF;
  }

  /** A text's bytes, with a byte order mark before them or not, are taken for UTF-8, and read as the text. */
  lemma TextReadsBack(text: string, marked: bool)
    requires marked || text == "" || text[0] != MARK
    ensures var b := EncodeAll(if marked then [MARK] + text else text);
            var (utf8, bom) := DetectBom(b);
            utf8 && Decode(b[bom..]) == text && bom == if marked then 3 else 0
  {
    hide Encode, Decode, Valid, Starts, CodePoint, SeqLen;
    EncodedReads(text);
    if marked {
      MarkBytes(text);
      var b := EncodeAll([MARK] + text);
      assert b[3..] == EncodeAll(text);
    } else {
      var b := EncodeAll(text);
      EncodedBytes(text);
      if |b| >= 3 && b[0] == 0xEF && b[1] == 0xBB && b[2] == 0xBF { StartsWithMark(text); }
      assert b[0..] == b;
    }
  }

  lemma BlockStays(mix: Mix, file: seq<Byte>, chunk: seq<Byte>, bom: nat, b: BlockEntry)
    requires BlockOk(mix, file, bom, b)
    ensures BlockOk(mix, file + chunk, bom, b)
  {
    hide AdmitsText, Starts, CodePoint;
    var more := file + chunk;
    assert more[..b.startByte] == file[..b.startByte];
    assert more[Body(bom, b.startByte)..b.endByte] == file[Body(bom, b.startByte)..b.endByte];
    if MidLine(more, b.startByte) {
      var e := b.startByte + Min(b.endByte - b.startByte, SEAM);
      assert more[b.startByte - SEAM..e] == file[b.startByte - SEAM..e];
    }
  }

  lemma TextStays(file: seq<Byte>, chunk: seq<Byte>, bom: nat)
    requires TextSoFar(file + chunk, bom) && bom <= |file|
    ensures TextSoFar(file, bom)
  {
    var ext :| Valid((file + chunk)[bom..] + ext);
    assert (file + chunk)[bom..] + ext == file[bom..] + (chunk + ext);
  }

  lemma ClosedStays(mix: Mix, file: seq<Byte>, chunk: seq<Byte>, bom: nat, blocks: seq<BlockEntry>, end: nat)
    requires Closed(mix, file, bom, blocks, end, false)
    ensures Closed(mix, file + chunk, bom, blocks, end, false)
  {
    hide BlockOk, Valid, TextSoFar;
    var more := file + chunk;
    forall b <- blocks
      ensures BlockOk(mix, more, bom, b)
      ensures TextSoFar(more, bom) ==> bom <= b.endByte <= |file| && Valid(more[bom..b.endByte])
    {
      BlockStays(mix, file, chunk, bom, b);
      BlockBounds(mix, file, bom, b);
      assert more[bom..b.endByte] == file[bom..b.endByte];
      if TextSoFar(more, bom) { TextStays(file, chunk, bom); }
    }
    forall i | 0 < i < |blocks| ensures MidLine(more, blocks[i].startByte) == MidLine(file, blocks[i].startByte) {
      BlockBounds(mix, file, bom, blocks[i]);
    }
  }

  /** More of the file is written to the buffer. */
  lemma WriteKeeps(mix: Mix, file: seq<Byte>, chunk: seq<Byte>, bom: nat, c: Cutter)
    requires Cuts(mix, file, bom, c, false) && Seamed(file, c)
    ensures var c' := c.(buf := c.buf + chunk); Cuts(mix, file + chunk, bom, c', false) && Seamed(file + chunk, c')
  {
    hide Closed;
    Buffered(mix, file, bom, c);
    var more, s := file + chunk, c.startByte;
    ClosedStays(mix, file, chunk, bom, c.blocks, s);
    assert more[s..] == file[s..] + chunk;
    assert more[..s] == file[..s];
    if MidLine(more, s) { assert more[s - SEAM..s] == file[s - SEAM..s] by { SeamInside(file, c); } }
  }

  lemma SeamInside(file: seq<Byte>, c: Cutter)
    requires c.startByte <= |file| && Seamed(file, c) && MidLine(file, c.startByte)
    ensures SEAM <= c.startByte
  {}

  lemma StartsClosed(mix: Mix, bom: nat)
    ensures Cuts(mix, [], bom, START, false) && Seamed([], START) && (bom <= 3 ==> OnChain([], bom, START))
  {}

  /** Does the final drain leave something open? What the forced cuts leave of the last line is as long as a block. */
  predicate LeftOpen(file: seq<Byte>, bom: nat)
    requires bom <= 3
  {
    |file| - ForcedCuts(file, bom, LineAt(file)) >= TARGET
  }

  /** Where the blocks of a file end: where it does, unless its last line is left open, and then at the last forced cut
      of that. */
  function ClosedUpTo(file: seq<Byte>, bom: nat): (end: nat)
    requires bom <= 3
    ensures end <= |file| && (end == |file| <==> !LeftOpen(file, bom))
  {
    if LeftOpen(file, bom) then ForcedCuts(file, bom, LineAt(file)) else |file|
  }

  /** Is a file read as one of UTF-8 text? */
  predicate Utf8Text(bytes: seq<Byte>, looksBinary: seq<Byte> -> bool) {
    bytes != [] && !looksBinary(bytes[..Min(|bytes|, 8000)]) && DetectBom(bytes).0
  }

  /** The blocks of a file that is in memory; None where it gets none. They lie end to end and every one is what a
      block of the file must be, and they reach its end unless what the forced cuts leave of the last line is as long
      as a block. */
  method BuildBlocks(mix: Mix, bytes: seq<Byte>, looksBinary: seq<Byte> -> bool)
    returns (blocks: Option<seq<BlockEntry>>, bomLen: nat)
    ensures Utf8Text(bytes, looksBinary) ==> bomLen == DetectBom(bytes).1 <= 3
    ensures blocks.Some? <==> Utf8Text(bytes, looksBinary) && ClosedUpTo(bytes, bomLen) > 0
    ensures blocks.Some? ==> Closed(mix, bytes, bomLen, blocks.value, ClosedUpTo(bytes, bomLen), true)
    ensures blocks.Some? ==> forall b <- blocks.value :: EndsWell(bytes, bomLen, b, true)
  {
    hide Closed, Seamed, MarkOk, DetectBom, OnChain, Stuck, LeftOpen, Whole, ForcedCuts, EndsWell;
    bomLen := 0;
    if |bytes| == 0 { return None, 0; }
    if looksBinary(bytes[..Min(|bytes|, 8000)]) { return None, 0; }
    var (utf8, bom) := DetectBom(bytes);
    bomLen := bom;
    if !utf8 { return None, bom; }
    var c := START;
    var off := 0;
    StartsClosed(mix, bomLen);
    BomIsShort(bytes);
    ChunkMore(0);
    while off < |bytes|
      invariant 0 <= off <= |bytes| && c.startByte <= off && (Whole(off) || off == |bytes|)
      invariant Cuts(mix, bytes[..off], bomLen, c, false) && Seamed(bytes[..off], c) && OnChain(bytes[..off], bomLen, c)
      invariant |c.buf| < CAP
    {
      var n := Min(CHUNK, |bytes| - off);
      ChunkMore(off);
      Buffered(mix, bytes[..off], bomLen, c);
      ChainWritten(bytes[..off], bytes[off..off + n], bomLen, c);
      WriteKeeps(mix, bytes[..off], bytes[off..off + n], bomLen, c);
      assert bytes[..off] + bytes[off..off + n] == bytes[..off + n];
      MarkPrefix(bytes, bomLen, off + n);
      c := c.(buf := c.buf + bytes[off..off + n]);
      off := off + n;
      c := DrainFullBlocks(mix, c, bomLen, false, null, bytes[..off]);
      Buffered(mix, bytes[..off], bomLen, c);
    }
    assert bytes[..|bytes|] == bytes;
    MarkPrefix(bytes, bomLen, |bytes|);
    FinalTail(mix, bytes, bomLen, c);
    c := DrainFullBlocks(mix, c, bomLen, true, null, bytes);
    NoBlocks(mix, bytes, bomLen, c);
    blocks := if |c.blocks| > 0 then Some(c.blocks) else None;
  }

  lemma MarkPrefix(bytes: seq<Byte>, bom: nat, n: nat)
    requires DetectBom(bytes) == (true, bom) && 0 < n <= |bytes| && (n == |bytes| || n >= 4)
    ensures MarkOk(bytes[..n], bom)
  {}

  lemma NoBlocks(mix: Mix, file: seq<Byte>, bom: nat, c: Cutter)
    requires Cuts(mix, file, bom, c, true)
    ensures c.blocks == [] <==> c.startByte == 0
  {
    if c.blocks != [] { BlockBounds(mix, file, bom, c.blocks[|c.blocks| - 1]); }
  }

  lemma BomIsShort(bytes: seq<Byte>)
    ensures DetectBom(bytes).0 ==> DetectBom(bytes).1 <= 3
  {}

  /** What is left to the final drain is what the forced cuts leave of the last line, and lines before it. */
  lemma FinalTail(mix: Mix, file: seq<Byte>, bom: nat, c: Cutter)
    requires Cuts(mix, file, bom, c, false) && OnChain(file, bom, c) && bom <= 3 && |c.buf| < CAP
    ensures Stuck(c.buf) <==> LeftOpen(file, bom)
  {
    Buffered(mix, file, bom, c);
    hide Cuts, LastLine, BoundaryBefore, RoundUp;
    assert file == file[..c.startByte] + c.buf;
    if NEWLINE !in c.buf {
      NoNewlineLine(c.buf);
    } else {
      LastLineAfter(file[..c.startByte], c.buf);
    }
  }

  lemma NoNewlineLine(b: seq<Byte>)
    requires NEWLINE !in b
    ensures LastLine(b) == b
  {
    LastLineHolds([], b);
    assert [] + b == b;
  }

  lemma {:induction false} LastLineAfter(a: seq<Byte>, b: seq<Byte>)
    requires NEWLINE in b
    ensures LastLine(a + b) == LastLine(b)
    decreases |b|
  {
    if b[|b| - 1] != NEWLINE {
      assert (a + b)[..|a + b| - 1] == a + b[..|b| - 1];
      assert b == b[..|b| - 1] + [b[|b| - 1]];
      LastLineAfter(a, b[..|b| - 1]);
    }
  }

  lemma AccumulatedStays(file: seq<Byte>, chunk: seq<Byte>, bom: nat, c: Cutter, text: string)
    requires Accumulated(file, bom, c, text) && MarkOk(file, bom) && (file == [] ==> c.startByte == 0)
    ensures Accumulated(file + chunk, bom, c.(buf := c.buf + chunk), text)
  {
    hide Valid, Decode;
    if TextSoFar(file + chunk, bom) && file != [] {
      TextStays(file, chunk, bom);
      if c.startByte > 0 { assert (file + chunk)[bom..c.startByte] == file[bom..c.startByte]; }
    }
  }

  lemma WholeTextIs(file: seq<Byte>, bom: nat, c: Cutter, text: string)
    requires Accumulated(file, bom, c, text) && bom <= |file| && Valid(file[bom..])
    ensures text == if c.startByte == 0 then "" else Decode(file[bom..c.startByte])
  {
    assert file[bom..] + [] == file[bom..];
  }

  lemma MarkInFirst(bytes: seq<Byte>, n: nat)
    requires n <= |bytes| && (n == |bytes| || n >= 4)
    ensures DetectBom(bytes[..n]) == DetectBom(bytes)
  {
    if n == |bytes| { assert bytes[..n] == bytes; }
  }

  /** A hash that is taken of bytes as they come. */
  datatype Hasher<!H(!new)> = Hasher(start: H, append: (H, seq<Byte>) -> H, show: H -> string) {
    /** What the pieces were does not matter. */
    ghost predicate Streams() {
      forall h, a, b :: append(append(h, a), b) == append(h, a + b)
    }

    function Of(bytes: seq<Byte>): string { show(append(start, bytes)) }
  }

  method HashRest<H(!new)>(h: Hasher<H>, state: H, bytes: seq<Byte>, from: nat) returns (hash: string)
    requires h.Streams() && from <= |bytes| && state == h.append(h.start, bytes[..from])
    ensures hash == h.Of(bytes)
  {
    var off, seen := from, state;
    while off < |bytes|
      invariant from <= off <= |bytes| && seen == h.append(h.start, bytes[..off])
    {
      var n := Min(CHUNK, |bytes| - off);
      assert bytes[..off] + bytes[off..off + n] == bytes[..off + n];
      seen := h.append(seen, bytes[off..off + n]);
      off := off + n;
    }
    assert bytes[..|bytes|] == bytes;
    hash := h.show(seen);
  }

  /** What streaming a file gives: is it UTF-8 text, and then its blocks; is it binary, and else its hash; and the
      trigrams. */
  datatype Streamed = Streamed(utf8: bool, binary: bool, blocks: seq<BlockEntry>, bomLen: nat, trigrams: set<int>,
    hash: string)

  /** What streaming gives for a file of UTF-8 text. */
  ghost predicate TextStreamed(mix: Mix, bytes: seq<Byte>, r: Streamed) {
    && r.bomLen <= 3 && Closed(mix, bytes, r.bomLen, r.blocks, ClosedUpTo(bytes, r.bomLen), true)
    && (forall b <- r.blocks :: EndsWell(bytes, r.bomLen, b, true))
    && (r.bomLen <= |bytes| && Valid(bytes[r.bomLen..]) ==>
          var end := ClosedUpTo(bytes, r.bomLen);
          && (end > 0 ==> r.bomLen <= end)
          && r.trigrams == Keys(if end == 0 then "" else Decode(bytes[r.bomLen..end])))
  }

  lemma Drained(mix: Mix, bytes: seq<Byte>, c: Cutter, whole: TrigramAccumulator, r: Streamed)
    requires r.bomLen <= 3 && Cuts(mix, bytes, r.bomLen, c, true) && Accumulated(bytes, r.bomLen, c, whole.text)
    requires c.startByte == ClosedUpTo(bytes, r.bomLen) && forall b <- c.blocks :: EndsWell(bytes, r.bomLen, b, true)
    requires whole.Valid() && r.trigrams == whole.found && r.blocks == c.blocks
    ensures TextStreamed(mix, bytes, r)
  {
    ClosedOf(mix, bytes, r.bomLen, c, whole.text);
    hide Closed, Cuts, Accumulated, Decode, Valid, EndsWell, ClosedUpTo;
    if r.bomLen <= |bytes| && Valid(bytes[r.bomLen..]) { WholeTextIs(bytes, r.bomLen, c, whole.text); }
  }

  method StreamText<H(!new)>(mix: Mix, h: Hasher<H>, bytes: seq<Byte>, first: nat, bomLen: nat) returns (r: Streamed)
    requires h.Streams() && first == Min(CHUNK, |bytes|) > 0 && DetectBom(bytes[..first]) == (true, bomLen)
    ensures r.utf8 && !r.binary && r.bomLen == bomLen && r.hash == h.Of(bytes) && TextStreamed(mix, bytes, r)
  {
    hide Closed, Seamed, DetectBom, OnChain, Stuck, Cuts, Accumulated, Decode, LeftOpen, Whole, ForcedCuts, EndsWell,
         TextStreamed;
    BomIsShort(bytes[..first]);
    ChunkMore(0);
    var whole := new TrigramAccumulator();
    var c, off := START, first;
    var seen := h.append(h.start, bytes[..off]);
    StartsClosed(mix, bomLen);
    StartsAccumulated(bomLen);
    c := WriteAndDrain(mix, [], c, bytes[..off], bomLen, whole);
    assert [] + bytes[..off] == bytes[..off];
    while off < |bytes|
      invariant 0 < off <= |bytes| && whole.Valid() && fresh(whole)
      invariant seen == h.append(h.start, bytes[..off])
      invariant MarkOk(bytes[..off], bomLen) && Accumulated(bytes[..off], bomLen, c, whole.text)
      invariant Cuts(mix, bytes[..off], bomLen, c, false) && c.startByte <= off
      invariant Seamed(bytes[..off], c) && OnChain(bytes[..off], bomLen, c) && |c.buf| < CAP
      invariant Whole(off) || off == |bytes|
    {
      var n := Min(CHUNK, |bytes| - off);
      ChunkMore(off);
      assert bytes[..off] + bytes[off..off + n] == bytes[..off + n];
      seen := h.append(seen, bytes[off..off + n]);
      c := WriteAndDrain(mix, bytes[..off], c, bytes[off..off + n], bomLen, whole);
      off := off + n;
    }
    assert bytes[..|bytes|] == bytes;
    FinalTail(mix, bytes, bomLen, c);
    c := DrainFullBlocks(mix, c, bomLen, true, whole, bytes);
    AllClosed(mix, bytes, bomLen, c, true);
    r := Streamed(true, false, c.blocks, bomLen, whole.found, h.show(seen));
    Drained(mix, bytes, c, whole, r);
  }

  /** The block index, the hash and the trigrams of a file read a chunk at a time. The trigrams are those of the text
      up to where the blocks end. */
  method StreamIndex<H(!new)>(mix: Mix, h: Hasher<H>, bytes: seq<Byte>, looksBinary: seq<Byte> -> bool)
    returns (r: Streamed)
    requires h.Streams() && h.append(h.start, []) == h.start
    ensures r.utf8 <==> Utf8Text(bytes, looksBinary)
    ensures r.binary <==> bytes != [] && looksBinary(bytes[..Min(|bytes|, 8000)])
    ensures r.hash == if r.binary then "" else h.Of(bytes)
    ensures r.utf8 ==> r.bomLen == DetectBom(bytes).1 && TextStreamed(mix, bytes, r)
    ensures !r.utf8 ==> r.blocks == [] && r.trigrams == {}
  {
    hide DetectBom, TextStreamed;
    var off := Min(CHUNK, |bytes|);
    if off == 0 {
      assert bytes == [];
      return Streamed(false, false, [], 0, {}, h.show(h.start));
    }
    if looksBinary(bytes[..Min(off, 8000)]) { return Streamed(false, true, [], 0, {}, ""); }
    MarkInFirst(bytes, off);
    var (utf8, bomLen) := DetectBom(bytes[..off]);
    if utf8 {
      r := StreamText(mix, h, bytes, off, bomLen);
    } else {
      var hash := HashRest(h, h.append(h.start, bytes[..off]), bytes, off);
      r := Streamed(false, false, [], 0, {}, hash);
    }
  }

  lemma StartsAccumulated(bom: nat)
    requires bom <= 3
    ensures Accumulated([], bom, START, "")
  {}

  lemma ClosedOf(mix: Mix, file: seq<Byte>, bom: nat, c: Cutter, text: string)
    requires Cuts(mix, file, bom, c, true) && Accumulated(file, bom, c, text)
    ensures Closed(mix, file, bom, c.blocks, c.startByte, true) && (c.startByte > 0 ==> bom <= c.startByte)
  {}

  /** One chunk: written to the buffer, and every full block of it closed. */
  method WriteAndDrain(mix: Mix, ghost file: seq<Byte>, start: Cutter, chunk: seq<Byte>, bom: nat,
      whole: TrigramAccumulator)
    returns (c: Cutter)
    requires 0 < |chunk| <= CHUNK && |start.buf| < CAP && MarkOk(file, bom) && MarkOk(file + chunk, bom)
    requires start.startByte <= |file| && Whole(|file|) && bom <= 3
    requires Cuts(mix, file, bom, start, false) && Seamed(file, start) && OnChain(file, bom, start)
    requires whole.Valid() && Accumulated(file, bom, start, whole.text)
    modifies whole
    ensures whole.Valid() && Accumulated(file + chunk, bom, c, whole.text)
    ensures Cuts(mix, file + chunk, bom, c, false) && c.startByte <= |file + chunk|
    ensures Seamed(file + chunk, c) && OnChain(file + chunk, bom, c) && |c.buf| < CAP
  {
    hide Cuts, Seamed, OnChain, Accumulated, Stuck;
    Buffered(mix, file, bom, start);
    ChainWritten(file, chunk, bom, start);
    WriteKeeps(mix, file, chunk, bom, start);
    AccumulatedStays(file, chunk, bom, start, whole.text);
    c := start.(buf := start.buf + chunk);
    c := DrainFullBlocks(mix, c, bom, false, whole, file + chunk);
    AllClosed(mix, file + chunk, bom, c, false);
  }

  /** A last line shorter than the longest a block may be is left open if it is as long as a block. */
  lemma ShortLineOpen(file: seq<Byte>, bom: nat)
    requires |LastLine(file)| < CAP && bom <= 3
    ensures LeftOpen(file, bom) <==> |LastLine(file)| >= TARGET
  {}

  /** A file that is one line of 20 MB is cut once, at 16 MB, and left open from there. */
  lemma TwentyLeftOpen(file: seq<Byte>, bom: nat)
    requires |file| == 20 * CHUNK && NEWLINE !in file && bom <= 3
    ensures LeftOpen(file, bom)
  {
    NoNewlineLine(file);
    var cut := BoundaryBefore(file, bom, 16 * CHUNK);
    BackAtMost(file, bom, 16 * CHUNK - 1, 0);
    assert ForcedCuts(file, bom, 0) == ForcedCuts(file, bom, cut) == cut;
  }

  lemma {:induction false} BackAtMost(data: seq<Byte>, skip: nat, p: nat, cont: nat)
    requires skip <= p < |data| && cont <= 3
    ensures BackOverTails(data, skip, p, cont) + 3 >= p + cont
    decreases p
  {
    if p > skip && IsTail(data[p]) && cont < 3 { BackAtMost(data, skip, p - 1, cont + 1); }
  }

  lemma {:induction false} EndsBy(blocks: seq<BlockEntry>, end: nat)
    requires Tiles(blocks, end) && forall b <- blocks :: b.startByte < b.endByte
    ensures forall b <- blocks :: b.endByte <= end
  {
    if blocks != [] {
      var last := |blocks| - 1;
      EndsBy(blocks[..last], blocks[last].startByte);
      assert forall b <- blocks :: b in blocks[..last] || b == blocks[last];
    }
  }

  /** The blocks of a file that is one line of 1 MB up to 16 MB, or of 20 MB, do not reach its end: its text is not
      searched through them. */
  method LongLineUnclosed(mix: Mix, bytes: seq<Byte>, looksBinary: seq<Byte> -> bool)
    returns (blocks: Option<seq<BlockEntry>>)
    requires (TARGET <= |bytes| < CAP || |bytes| == 20 * CHUNK) && NEWLINE !in bytes
    ensures blocks.Some? ==> forall b <- blocks.value :: b.endByte < |bytes|
  {
    var bomLen;
    blocks, bomLen := BuildBlocks(mix, bytes, looksBinary);
    if blocks.Some? {
      NoNewlineLine(bytes);
      if |bytes| < CAP { ShortLineOpen(bytes, bomLen); } else { TwentyLeftOpen(bytes, bomLen); }
      EndsBy(blocks.value, ClosedUpTo(bytes, bomLen));
    }
  }
}

/** UTF-8 (section 4 of RFC 3629): which bytes make a character, decoding that survives any cut, and where a text may be
    cut without splitting a character. Characters here are code points. */
module Utf8 {
  type Byte = b: int | 0 <= b < 256

  const NEWLINE: Byte := 10
  const REPLACEMENT: char := '\U{FFFD}'

  predicate IsTail(b: Byte) { 0x80 <= b < 0xC0 }

  /** How many bytes a character takes, told from its first one. */
  function SeqLen(lead: Byte): (n: nat)
    ensures 1 <= n <= 4
  {
    if lead < 0x80 then 1 else if lead < 0xE0 then 2 else if lead < 0xF0 then 3 else 4
  }

  predicate SecondOk(lead: Byte, second: Byte) {
    match lead
    case 0xE0 => 0xA0 <= second < 0xC0
    case 0xED => 0x80 <= second < 0xA0
    case 0xF0 => 0x90 <= second < 0xC0
    case 0xF4 => 0x80 <= second < 0x90
    case _ => IsTail(second)
  }

  /** Do these bytes start with one whole character? */
  predicate Starts(b: seq<Byte>) {
    && b != []
    && (b[0] < 0x80 || (0xC2 <= b[0] < 0xF5 && SeqLen(b[0]) <= |b| && SecondOk(b[0], b[1])))
    && forall i :: 1 <= i < SeqLen(b[0]) ==> IsTail(b[i])
  }

  function CodePoint(b: seq<Byte>): (c: int)
    requires Starts(b)
    ensures 0 <= c < 0xD800 || 0xE000 <= c < 0x11_0000
  {
    if b[0] < 0x80 then b[0]
    else
      var x: int, y: int := b[0], b[1];
      if x < 0xE0 then (x - 0xC0) * 0x40 + (y - 0x80)
      else
        var z: int := b[2];
        if x < 0xF0 then (x - 0xE0) * 0x1000 + (y - 0x80) * 0x40 + (z - 0x80)
        else
          var w: int := b[3];
          (x - 0xF0) * 0x4_0000 + (y - 0x80) * 0x1000 + (z - 0x80) * 0x40 + (w - 0x80)
  }

  predicate Valid(b: seq<Byte>) {
    b == [] || (Starts(b) && Valid(b[SeqLen(b[0])..]))
  }

  /** The text of some bytes: a byte that is no part of a character reads as a replacement character. */
  function Decode(b: seq<Byte>): (text: string)
    ensures |text| <= |b|
  {
    if b == [] then []
    else if Starts(b) then [CodePoint(b) as char] + Decode(b[SeqLen(b[0])..])
    else [REPLACEMENT] + Decode(b[1..])
  }

  lemma StartsAppend(a: seq<Byte>, b: seq<Byte>)
    requires Starts(a)
    ensures Starts(a + b) && CodePoint(a + b) == CodePoint(a)
    ensures (a + b)[SeqLen(a[0])..] == a[SeqLen(a[0])..] + b
  {}

  /** Cut between two characters, the parts decode to the parts of the text. */
  lemma {:induction false} DecodeAppend(a: seq<Byte>, b: seq<Byte>)
    requires Valid(a)
    ensures Decode(a + b) == Decode(a) + Decode(b)
    ensures Valid(a + b) <==> Valid(b)
    decreases |a|
  {
    if a == [] {
      assert a + b == b;
    } else {
      hide CodePoint, Starts, SeqLen;
      StartsAppend(a, b);
      var rest := a[SeqLen(a[0])..];
      DecodeAppend(rest, b);
      assert (a + b)[0] == a[0];
      assert Decode(a + b) == [CodePoint(a) as char] + Decode(rest + b);
    }
  }

  /** Bytes cut out of the middle of a character read as nothing but replacement characters. */
  lemma {:induction false} DecodeTails(a: seq<Byte>, b: seq<Byte>)
    requires forall i :: 0 <= i < |a| ==> IsTail(a[i])
    ensures Decode(a + b) == seq(|a|, _ => REPLACEMENT) + Decode(b)
    decreases |a|
  {
    if a == [] {
      assert a + b == b;
    } else {
      assert (a + b)[1..] == a[1..] + b;
      DecodeTails(a[1..], b);
    }
  }

  // ---- a text and its bytes ----

  /** The bytes of a character: its lowest six bits last, and so on. */
  function Encode(c: char): seq<Byte> {
    var x := c as int;
    var high, low := x / 0x40, 0x80 + x % 0x40;
    var higher, mid := high / 0x40, 0x80 + high % 0x40;
    if x < 0x80 then [x]
    else if x < 0x800 then [0xC0 + high, low]
    else if x < 0x1_0000 then [0xE0 + higher, mid, low]
    else [0xF0 + higher / 0x40, 0x80 + higher % 0x40, mid, low]
  }

  function EncodeAll(text: string): seq<Byte> {
    if text == "" then [] else Encode(text[0]) + EncodeAll(text[1..])
  }

  lemma EncodedStarts(c: char)
    ensures var b := Encode(c); Starts(b) && SeqLen(b[0]) == |b| && CodePoint(b) == c as int
  {
    var x, b := c as int, Encode(c);
    assert x < 0xD800 || 0xE000 <= x;
    if x < 0x80 {
    } else if x < 0x800 {
      assert 0xC2 <= b[0] < 0xE0;
    } else if x < 0x1_0000 {
      assert 0xE0 <= b[0] < 0xF0 && SecondOk(b[0], b[1]);
    } else {
      assert 0xF0 <= b[0] < 0xF5 && SecondOk(b[0], b[1]);
    }
  }

  lemma SixBits(high: int, low: int)
    requires 0 <= low < 0x40
    ensures (high * 0x40 + low) / 0x40 == high && (high * 0x40 + low) % 0x40 == low
  {}

  lemma DecodedThree(b: seq<Byte>)
    requires Starts(b) && SeqLen(b[0]) == 3
    ensures Encode(CodePoint(b) as char) == [b[0], b[1], b[2]]
  {
    var high := (b[0] as int - 0xE0) * 0x40 + (b[1] as int - 0x80);
    SixBits(high, b[2] as int - 0x80);
    SixBits(b[0] as int - 0xE0, b[1] as int - 0x80);
    assert CodePoint(b) == high * 0x40 + (b[2] as int - 0x80);
  }

  lemma DecodedFour(b: seq<Byte>)
    requires Starts(b) && SeqLen(b[0]) == 4
    ensures Encode(CodePoint(b) as char) == [b[0], b[1], b[2], b[3]]
  {
    var higher := (b[0] as int - 0xF0) * 0x40 + (b[1] as int - 0x80);
    var high := higher * 0x40 + (b[2] as int - 0x80);
    SixBits(high, b[3] as int - 0x80);
    SixBits(higher, b[2] as int - 0x80);
    SixBits(b[0] as int - 0xF0, b[1] as int - 0x80);
    assert CodePoint(b) == high * 0x40 + (b[3] as int - 0x80);
  }

  lemma DecodedEncodes(b: seq<Byte>)
    requires Starts(b)
    ensures SeqLen(b[0]) <= |b| && Encode(CodePoint(b) as char) == b[..SeqLen(b[0])]
  {
    var n := SeqLen(b[0]);
    if n == 2 {
      SixBits(b[0] as int - 0xC0, b[1] as int - 0x80);
    } else if n == 3 {
      hide Encode;
      DecodedThree(b);
    } else if n == 4 {
      hide Encode;
      DecodedFour(b);
    }
  }

  /** A text's bytes are valid, and read as the text. */
  lemma {:induction false} EncodedReads(text: string)
    ensures Valid(EncodeAll(text)) && Decode(EncodeAll(text)) == text
  {
    if text != "" {
      var b, rest := Encode(text[0]), EncodeAll(text[1..]);
      EncodedStarts(text[0]);
      StartsAppend(b, rest);
      assert (b + rest)[0] == b[0] && (b + rest)[|b|..] == rest;
      hide Encode, Starts, SeqLen, CodePoint;
      EncodedReads(text[1..]);
    }
  }

  /** Valid bytes are those of the text they read as. */
  lemma {:induction false} ReadEncodes(b: seq<Byte>)
    requires Valid(b)
    ensures EncodeAll(Decode(b)) == b
    decreases |b|
  {
    hide Encode, Starts, SeqLen, CodePoint;
    if b != [] {
      DecodedEncodes(b);
      var n := SeqLen(b[0]);
      ReadEncodes(b[n..]);
      assert b == b[..n] + b[n..];
    }
  }

  function CountNewlines(b: seq<Byte>): nat {
    if b == [] then 0 else CountNewlines(b[..|b| - 1]) + if b[|b| - 1] == NEWLINE then 1 else 0
  }

  // ---- cutting ----

  /** The start of a character that did not all fit. */
  predicate Partial(b: seq<Byte>) {
    b != [] && 0x80 <= b[0] && !IsTail(b[0]) && |b| < SeqLen(b[0]) && forall i :: 1 <= i < |b| ==> IsTail(b[i])
  }

  /** Cut in three, the parts decode to the parts of the text. */
  lemma DecodeThree(a: seq<Byte>, b: seq<Byte>, c: seq<Byte>)
    requires Valid(a) && Valid(b)
    ensures Decode(a + b + c) == Decode(a) + Decode(b) + Decode(c)
    ensures Valid(a + b)
  {
    DecodeAppend(a, b);
    DecodeAppend(a + b, c);
  }

  /** The first bytes of a valid text are whole characters, and then perhaps the start of one more. */
  lemma {:induction false} SplitPrefix(d: seq<Byte>, ext: seq<Byte>) returns (n: nat)
    requires Valid(d + ext)
    ensures n <= |d| && Valid(d[..n]) && (n == |d| || Partial(d[n..]))
    decreases |d|
  {
    hide CodePoint, Decode;
    var whole := d + ext;
    if d == [] {
      n := 0;
    } else if SeqLen(d[0]) <= |d| {
      var k := SeqLen(d[0]);
      CutApart(d, ext, k, 0);
      var m := SplitPrefix(d[k..], ext);
      n := k + m;
      CutApart(d, ext, k, m);
      StartsPrefix(d, k, ext);
      DecodeAppend(d[..k], d[k..][..m]);
    } else {
      n := 0;
      assert whole[0] == d[0] && forall i :: 1 <= i < |d| ==> whole[i] == d[i];
      assert d[0..] == d;
    }
  }

  lemma CutApart(d: seq<Byte>, ext: seq<Byte>, k: nat, m: nat)
    requires k + m <= |d|
    ensures (d + ext)[k..] == d[k..] + ext
    ensures d[..k + m] == d[..k] + d[k..][..m] && d[k..][m..] == d[k + m..]
  {}

  lemma StartsPrefix(d: seq<Byte>, k: nat, ext: seq<Byte>)
    requires d != [] && k == SeqLen(d[0]) <= |d| && Starts(d + ext)
    ensures Valid(d[..k])
  {
    var c := d[..k];
    assert forall i :: 0 <= i < k ==> c[i] == (d + ext)[i];
    assert c[k..] == [];
  }

  /** The last character of a valid text: where it starts. */
  lemma {:induction false} LastStart(b: seq<Byte>) returns (p: nat)
    requires Valid(b) && b != []
    ensures p < |b| && !IsTail(b[p]) && p + SeqLen(b[p]) == |b|
    ensures forall i :: p < i < |b| ==> IsTail(b[i])
    decreases |b|
  {
    var k := SeqLen(b[0]);
    if k == |b| {
      p := 0;
    } else {
      p := LastStart(b[k..]);
      p := k + p;
    }
  }

  /** Back over the tail bytes before a place, three of them at most. */
  function BackOverTails(data: seq<Byte>, skip: nat, p: nat, cont: nat): (q: nat)
    requires skip <= p < |data|
    ensures skip <= q <= p
  {
    if p > skip && IsTail(data[p]) && cont < 3 then BackOverTails(data, skip, p - 1, cont + 1) else p
  }

  /** Where to cut data[skip..len). */
  function BoundaryBefore(data: seq<Byte>, skip: nat, len: nat): (cut: nat)
    requires skip < len <= |data|
    ensures skip < cut <= len
  {
    var p := BackOverTails(data, skip, len - 1, 0);
    if p > skip && data[p] >= 0x80 && p + SeqLen(data[p]) > len then p else len
  }

  /** What lies around the bytes does not matter. */
  lemma {:induction false} BackShift(a: seq<Byte>, b: seq<Byte>, c: seq<Byte>, skip: nat, p: nat, cont: nat)
    requires skip <= p < |b|
    ensures BackOverTails(a + b + c, |a| + skip, |a| + p, cont) == |a| + BackOverTails(b, skip, p, cont)
    decreases p
  {
    assert (a + b + c)[|a| + p] == b[p];
    if p > skip && IsTail(b[p]) && cont < 3 { BackShift(a, b, c, skip, p - 1, cont + 1); }
  }

  lemma BoundaryShift(a: seq<Byte>, b: seq<Byte>, c: seq<Byte>, skip: nat, len: nat)
    requires skip < len <= |b|
    ensures BoundaryBefore(a + b + c, |a| + skip, |a| + len) == |a| + BoundaryBefore(b, skip, len)
  {
    BackShift(a, b, c, skip, len - 1, 0);
    var p := BackOverTails(b, skip, len - 1, 0);
    assert (a + b + c)[|a| + p] == b[p];
  }

  /** The largest cut of data[skip..len) that splits no character; len where the bytes are no text. */
  method TrimToCharBoundary(data: seq<Byte>, skip: nat, len: nat) returns (cut: nat)
    requires skip < len <= |data|
    ensures cut == BoundaryBefore(data, skip, len) && skip < cut <= len && len - cut < 4
    ensures len - skip >= 4 && (exists ext :: Valid(data[skip..len] + ext)) ==> Valid(data[skip..cut])
  {
    var p, cont := len - 1, 0;
    while p > skip && IsTail(data[p]) && cont < 3
      invariant skip <= p < len && cont == len - 1 - p <= 3
      invariant BackOverTails(data, skip, len - 1, 0) == BackOverTails(data, skip, p, cont)
      invariant forall i :: p < i < len ==> IsTail(data[i])
    {
      p, cont := p - 1, cont + 1;
    }
    if p <= skip {
      cut := len;
    } else {
      var lead := data[p];
      cut := if lead >= 0x80 && p + SeqLen(lead) > len then p else len;
    }
    if len - skip >= 4 && exists ext :: Valid(data[skip..len] + ext) {
      TrimIsClean(data, skip, len, p, cut);
    }
  }

  lemma TrimIsClean(data: seq<Byte>, skip: nat, len: nat, p: nat, cut: nat)
    requires skip <= p < len <= |data| && len - skip >= 4 && len - 1 - p <= 3
    requires forall i :: p < i < len ==> IsTail(data[i])
    requires p == skip || len - 1 - p == 3 || !IsTail(data[p])
    requires cut == if p > skip && data[p] >= 0x80 && p + SeqLen(data[p]) > len then p else len
    requires exists ext :: Valid(data[skip..len] + ext)
    ensures Valid(data[skip..cut])
  {
    var ext :| Valid(data[skip..len] + ext);
    var d := data[skip..len];
    assert forall i :: 0 <= i < |d| ==> d[i] == data[skip + i];
    CutIsClean(d, ext, p - skip);
    assert d[..cut - skip] == data[skip..cut];
  }

  lemma CutIsClean(d: seq<Byte>, ext: seq<Byte>, p: nat)
    requires |d| >= 4 && Valid(d + ext) && p < |d| && |d| - 1 - p <= 3
    requires forall i :: p < i < |d| ==> IsTail(d[i])
    requires p == 0 || |d| - 1 - p == 3 || !IsTail(d[p])
    ensures var cut := if p > 0 && d[p] >= 0x80 && p + SeqLen(d[p]) > |d| then p else |d|;
            Valid(d[..cut])
  {
    var n := SplitPrefix(d, ext);
    assert d[..|d|] == d;
    if n < |d| {
      assert d[n..][0] == d[n];
      assert forall i :: n < i < |d| ==> d[i] == d[n..][i - n];
      assert p == n;
    } else {
      var s := LastStart(d);
      assert p == s;
    }
  }
}

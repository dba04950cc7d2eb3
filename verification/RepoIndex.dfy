/** An index of a repository, with the ledger it is kept in step with: what is kept for each path, and indexing one
    file. */
module RepoIndex {
  import opened Common
  import opened Utf8
  import opened LedgerTrust
  import BlockIndexer

  type Bytes = seq<Byte>
  type Symbols = seq<string>
  type Blocks = seq<BlockIndexer.BlockEntry>

  const STREAM_THRESHOLD := 128 * 1024 * 1024
  const REBUILD_THRESHOLD := 2000
  const BINARY_PROBE := 8000
  const BINARY_HASH := "FFFFFFFFFFFFFFFFFFFFFFFFFFFFFFFF"

  /** What is made of a file's bytes: their hash, whether they are text, the symbols of a file in a known language,
      and the blocks of a large file. */
  datatype Tools = Tools(
    hash: Bytes -> string,
    looksBinary: Bytes -> bool,
    extract: (string, Bytes) -> Option<Symbols>,
    streamBlocks: Bytes -> Option<Blocks>,
    midBlocks: Bytes -> Option<Blocks>,
    sidecarThreshold: int)

  /** No two contents share a hash, and none has the one that stands for a binary file. */
  ghost predicate ToolsOk(t: Tools) {
    (forall b :: t.hash(b) != BINARY_HASH) && forall a, b :: t.hash(a) == t.hash(b) ==> a == b
  }

  predicate Binary(t: Tools, b: Bytes) {
    t.looksBinary(if |b| < BINARY_PROBE then b else b[..BINARY_PROBE])
  }

  function Verdict(t: Tools, b: Bytes): string { if Binary(t, b) then BINARY_HASH else t.hash(b) }

  // ---- what is kept for a path ----

  /** What the index holds for a path: its document (by the bytes it was made of), its symbols, its block sidecar. */
  datatype Parts = Parts(doc: Option<Bytes>, symbols: Option<Symbols>, blocks: Option<Blocks>)

  const NOTHING := Parts(None, None, None)

  datatype Kept = Kept(parts: Parts, entry: Option<FileState>)

  const EMPTY := Kept(NOTHING, None)

  /** What the index holds of a text: of one that was streamed, no symbols. */
  function Made(t: Tools, p: string, streamed: bool, b: Bytes): Parts {
    if streamed then Parts(Some(b), None, t.streamBlocks(b))
    else Parts(Some(b), t.extract(p, b), if |b| >= t.sidecarThreshold then t.midBlocks(b) else None)
  }

  ghost predicate IsMade(t: Tools, p: string, parts: Parts, b: Bytes) {
    parts == Made(t, p, true, b) || parts == Made(t, p, false, b)
  }

  /** The index and the ledger are in step about a path: a document exactly where the ledger has an entry that is not a
      binary one, made of the content that the entry hashed. */
  ghost predicate InStep(t: Tools, p: string, s: Kept) {
    if s.entry.None? || s.entry.value.hash == BINARY_HASH then s.parts == NOTHING
    else
      && s.parts.doc.Some? && !Binary(t, s.parts.doc.value)
      && s.entry.value.hash == t.hash(s.parts.doc.value) && IsMade(t, p, s.parts, s.parts.doc.value)
  }

  /** A path is as a build that read these bytes would leave it. */
  ghost predicate Shows(t: Tools, p: string, s: Kept, b: Bytes) {
    && s.entry.Some? && s.entry.value.hash == Verdict(t, b)
    && if Binary(t, b) then s.parts == NOTHING else IsMade(t, p, s.parts, b)
  }

  lemma InStepShows(t: Tools, p: string, s: Kept, b: Bytes)
    requires ToolsOk(t) && InStep(t, p, s) && s.entry.Some? && s.entry.value.hash == Verdict(t, b)
    ensures Shows(t, p, s, b)
  {
    hide IsMade, Binary;
  }

  // ---- a file that is found ----

  /** A file as a listing showed it, and as it was read: nothing, where it could not be. */
  datatype Found = Found(rel: string, size: int, mtime: int, before: FileIdentity, after: FileIdentity, readStart: int,
                         recordedAt: int, read: Option<Bytes>)

  /** What is known of where files and ledger are kept. */
  datatype Place = Place(network: bool, cacheDirIsNetwork: bool)

  function Rec(f: Found, at: Place, prior: Option<FileState>, recordedBy: int, size: int, hash: string): (e: FileState)
    ensures e.hash == hash
  {
    Record(ReadStamp(f.size, f.mtime, f.before, f.after, f.readStart, f.recordedAt), at.network, prior,
           recordedBy, size, hash, !(prior.Some? && prior.value.mtime < 0) || !at.cacheDirIsNetwork)
  }

  datatype ChangeKind = NoChange | Added | Modified | Removed

  /** What indexing a file leaves for its path. */
  function Applied(t: Tools, f: Found, at: Place, recordedBy: int, s: Kept): Kept {
    match f.read
    case None => if f.size >= STREAM_THRESHOLD then EMPTY else s
    case Some(b) =>
      var size := if Binary(t, b) && f.size >= STREAM_THRESHOLD then f.size else |b|;
      var entry := Some(Rec(f, at, s.entry, recordedBy, size, Verdict(t, b)));
      if Binary(t, b) then Kept(NOTHING, entry)
      else if s.entry.Some? && s.entry.value.hash == t.hash(b) then Kept(s.parts, entry)
      else Kept(Made(t, f.rel, f.size >= STREAM_THRESHOLD, b), entry)
  }

  /** Indexing a file keeps index and ledger in step, and shows what was read. */
  lemma AppliedShows(t: Tools, f: Found, at: Place, recordedBy: int, s: Kept)
    requires ToolsOk(t) && InStep(t, f.rel, s)
    ensures InStep(t, f.rel, Applied(t, f, at, recordedBy, s))
    ensures f.read.Some? ==> Shows(t, f.rel, Applied(t, f, at, recordedBy, s), f.read.value)
  {
    hide Binary, Rec;
  }

  class Repo {
    var text: map<string, Bytes>
    var symbols: map<string, Symbols>
    var sidecars: map<string, Blocks>
    var ledger: map<string, FileState>

    constructor ()
      ensures forall p :: At(p) == EMPTY
    {
      text, symbols, sidecars, ledger := map[], map[], map[], map[];
    }

    function At(p: string): Kept
      reads this
    {
      Kept(Parts(Get(text, p), Get(symbols, p), Get(sidecars, p)), Get(ledger, p))
    }

    /** Index and ledger are in step about every path: the documents are the paths of the ledger that are not binary. */
    ghost predicate Valid(t: Tools)
      reads this
    {
      forall p :: InStep(t, p, At(p))
    }

    method RemoveFromIndex(p: string)
      modifies this`text, this`symbols, this`sidecars
      ensures At(p).parts == NOTHING && forall q :: q != p ==> At(q) == old(At(q))
    {
      text, symbols, sidecars := text - {p}, symbols - {p}, sidecars - {p};
    }

    /** Indexes one file. */
    method ApplyExistingFile(t: Tools, f: Found, at: Place, recordedBy: int) returns (kind: ChangeKind, unread: bool)
      requires InStep(t, f.rel, At(f.rel))
      modifies this
      ensures At(f.rel) == Applied(t, f, at, recordedBy, old(At(f.rel)))
      ensures forall q :: q != f.rel ==> At(q) == old(At(q))
      ensures unread <==> f.read.None? || Binary(t, f.read.value)
      ensures kind == Removed <==> old(At(f.rel)).parts.doc.Some? && At(f.rel).parts.doc.None?
      ensures kind == Added <==> old(At(f.rel)).parts.doc.None? && At(f.rel).parts.doc.Some?
      ensures kind == NoChange ==> At(f.rel).parts == old(At(f.rel)).parts
      ensures kind == NoChange <==> At(f.rel).parts.doc == old(At(f.rel)).parts.doc
    {
      hide Binary, Rec, IsMade;
      unread, kind := false, NoChange;
      var prior := Get(ledger, f.rel);
      var wasPresent := prior.Some? && prior.value.hash != BINARY_HASH;
      if f.size >= STREAM_THRESHOLD {
        if f.read.None? || Binary(t, f.read.value) {
          unread := true;
          if wasPresent { RemoveFromIndex(f.rel); }
          ledger := if f.read.Some? then ledger[f.rel := Rec(f, at, prior, recordedBy, f.size, BINARY_HASH)]
            else ledger - {f.rel};
          return (if wasPresent then Removed else NoChange), unread;
        }
      } else {
        if f.read.None? { return NoChange, true; }
        if Binary(t, f.read.value) {
          unread := true;
          if wasPresent { RemoveFromIndex(f.rel); }
          ledger := ledger[f.rel := Rec(f, at, prior, recordedBy, |f.read.value|, BINARY_HASH)];
          return (if wasPresent then Removed else NoChange), unread;
        }
      }
      var b := f.read.value;
      var hash := t.hash(b);
      if prior.None? || prior.value.hash != hash {
        Put(f.rel, Made(t, f.rel, f.size >= STREAM_THRESHOLD, b));
        kind := if wasPresent then Modified else Added;
      }
      ledger := ledger[f.rel := Rec(f, at, prior, recordedBy, |b|, hash)];
    }

    /** Replaces what the index holds for a path. */
    method Put(p: string, parts: Parts)
      modifies this`text, this`symbols, this`sidecars
      ensures At(p).parts == parts && forall q :: q != p ==> At(q) == old(At(q))
    {
      RemoveFromIndex(p);
      if parts.doc.Some? { text := text[p := parts.doc.value]; }
      if parts.symbols.Some? { symbols := symbols[p := parts.symbols.value]; }
      if parts.blocks.Some? { sidecars := sidecars[p := parts.blocks.value]; }
    }
  }

  /** The documents are exactly the paths of the ledger that are not binary. The symbols of a document are those of its
      text, and its sidecar that of a large text - but for one that was streamed, which has the streamed sidecar and no
      symbols. A path without a document has neither. */
  lemma DocumentsAreLedger(t: Tools, repo: Repo, p: string)
    requires repo.Valid(t)
    ensures p in repo.text <==> p in repo.ledger && repo.ledger[p].hash != BINARY_HASH
    ensures p in repo.text ==> repo.ledger[p].hash == t.hash(repo.text[p])
    ensures p in repo.text ==>
              var b, symbols, sidecar := repo.text[p], Get(repo.symbols, p), Get(repo.sidecars, p);
              || (symbols == t.extract(p, b) && sidecar == if |b| >= t.sidecarThreshold then t.midBlocks(b) else None)
              || (symbols == None && sidecar == t.streamBlocks(b))
    ensures p !in repo.text ==> p !in repo.symbols && p !in repo.sidecars
  {
    hide Binary;
    assert InStep(t, p, repo.At(p));
  }

  /** Which of the two, indexing a file decides by its listed size. */
  lemma StreamedBySize(t: Tools, f: Found, at: Place, recordedBy: int, s: Kept, b: Bytes)
    requires f.read == Some(b) && !Binary(t, b) && !(s.entry.Some? && s.entry.value.hash == t.hash(b))
    ensures var parts := Applied(t, f, at, recordedBy, s).parts;
            && parts.doc == Some(b)
            && parts.symbols == (if f.size < STREAM_THRESHOLD then t.extract(f.rel, b) else None)
            && parts.blocks == (if f.size >= STREAM_THRESHOLD then t.streamBlocks(b)
                                else if |b| < t.sidecarThreshold then None else t.midBlocks(b))
  {
    hide Binary, Rec;
  }
}

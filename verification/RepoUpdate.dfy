/** Bringing the whole index up to date: by building it anew, by walking the tree against the ledger, or by pruning
    what is ignored by now. */
module RepoUpdate {
  import opened Common
  import opened LedgerTrust
  import opened RepoIndex

  /** A walk of the tree: the files it found, each once, and how many folders it had to drop. */
  datatype Walk = Walk(files: seq<Found>, dropped: nat)

  ghost predicate Once(files: seq<Found>) {
    forall i, j :: 0 <= i < j < |files| ==> files[i].rel != files[j].rel
  }

  function Rels(files: seq<Found>): set<string> { set f <- files :: f.rel }

  ghost predicate Complete(w: Walk) { w.dropped == 0 && forall f <- w.files :: f.read.Some? }

  /** Every file of the walk that was read is as a build would leave it, and nothing else is there. */
  ghost predicate Fresh(t: Tools, repo: Repo, files: seq<Found>)
    reads repo
  {
    && (forall f <- files :: f.read.Some? ==> Shows(t, f.rel, repo.At(f.rel), f.read.value))
    && forall p :: p !in Rels(files) ==> repo.At(p) == EMPTY
  }

  /** Where a ledger entry lets a listed file be skipped, its content is what was hashed: the rule of LedgerTrust. */
  ghost predicate Trusted(t: Tools, s: Kept, f: Found, recordedBy: int, network: bool) {
    var e := s.entry;
    e.Some? && MatchesListing(e.value, f.size, f.mtime, recordedBy, network) && f.read.Some? ==>
      e.value.hash == Verdict(t, f.read.value)
  }

  /** A file's bytes, as the content that the trust rule speaks of. */
  function AsContent(b: Bytes): string { seq(|b|, i requires 0 <= i < |b| => b[i] as char) }

  /** The trust rule makes it so: after any run of writes, listings, reads and records of the file, by machines whose
      clocks need not agree, an entry that was recorded with its time may stand in for the file that a listing
      shows. */
  lemma TrustedByRuns(t: Tools, s: Setup, run: seq<World>, entry: FileState, f: Found, recordedBy: int, network: bool)
    requires Run(s, run)
    requires var w := run[|run| - 1];
             && StampsLagLittle(s, w) && TicksAreShort(w)
             && w.slot.Some? && w.slot.value.entry == entry && entry.hashedAt > 0
             && w.writes != [] && Latest(w).size == f.size && Latest(w).stamp == f.mtime
             && (f.read.Some? ==> Latest(w).content == AsContent(f.read.value))
    requires forall b: Bytes :: s.hash(AsContent(b)) == Verdict(t, b)
    ensures forall parts :: Trusted(t, Kept(parts, Some(entry)), f, recordedBy, network)
  {
    hide Run, StampsLagLittle, TicksAreShort, MatchesListing, Verdict, AsContent;
    TrustIsSound(s, run, recordedBy, network);
  }

  // ---- a full build ----

  /** What a build leaves: of each file, what indexing it leaves where nothing was before. */
  ghost predicate BuiltAs(t: Tools, files: seq<Found>, network: bool, now: string -> Kept) {
    && (forall f <- files :: now(f.rel) == Applied(t, f, Place(network, false), 0, EMPTY))
    && forall p :: p !in Rels(files) ==> now(p) == EMPTY
  }

  /** Builds the index anew from a walk; what could not be read is left out. */
  method Build(t: Tools, w: Walk, network: bool) returns (repo: Repo)
    requires ToolsOk(t) && Once(w.files)
    ensures fresh(repo) && repo.Valid(t) && Fresh(t, repo, w.files)
    ensures forall f <- w.files :: f.read.None? ==> repo.At(f.rel) == EMPTY
    ensures BuiltAs(t, w.files, network, All(repo))
  {
    hide InStep, Shows, Rec, Binary, IsMade, Made, Applied;
    repo := new Repo();
    NothingInStep(t);
    for i := 0 to |w.files|
      invariant fresh(repo)
      invariant forall j :: 0 <= j < i ==> Built(t, w.files[j], repo.At(w.files[j].rel))
      invariant forall j :: 0 <= j < i ==>
                  repo.At(w.files[j].rel) == Applied(t, w.files[j], Place(network, false), 0, EMPTY)
      invariant forall p :: (forall j :: 0 <= j < i ==> w.files[j].rel != p) ==> repo.At(p) == EMPTY
      invariant repo.Valid(t)
    {
      BuildOne(t, repo, w.files[i], network);
    }
    forall p | p !in Rels(w.files) ensures repo.At(p) == EMPTY {
      forall j | 0 <= j < |w.files| ensures w.files[j].rel != p { assert w.files[j] in w.files; }
    }
    AllIsAt(repo);
  }

  lemma NothingInStep(t: Tools)
    ensures forall p :: InStep(t, p, EMPTY)
  {}

  ghost predicate Built(t: Tools, f: Found, s: Kept) {
    if f.read.Some? then Shows(t, f.rel, s, f.read.value) else s == EMPTY
  }

  method BuildOne(t: Tools, repo: Repo, f: Found, network: bool)
    requires ToolsOk(t) && repo.At(f.rel) == EMPTY
    modifies repo
    ensures Built(t, f, repo.At(f.rel)) && InStep(t, f.rel, repo.At(f.rel))
    ensures repo.At(f.rel) == Applied(t, f, Place(network, false), 0, EMPTY)
    ensures forall q :: q != f.rel ==> repo.At(q) == old(repo.At(q))
  {
    hide Rec, Binary;
    if f.read.None? { return; }
    var b, at := f.read.value, Place(network, false);
    var streamed := f.size >= STREAM_THRESHOLD;
    if Binary(t, b) {
      var size := if streamed then f.size else |b|;
      repo.ledger := repo.ledger[f.rel := Rec(f, at, None, 0, size, BINARY_HASH)];
      return;
    }
    repo.Put(f.rel, Made(t, f.rel, streamed, b));
    repo.ledger := repo.ledger[f.rel := Rec(f, at, None, 0, |b|, t.hash(b))];
  }

  // ---- an update ----

  /** After some of the walk: what it found is settled, the rest is untouched. */
  ghost predicate Settled(t: Tools, f: Found, was: Kept, now: Kept) {
    if f.read.Some? then Shows(t, f.rel, now, f.read.value)
    else now == was || (f.size >= STREAM_THRESHOLD && now == EMPTY)
  }

  /** Does the ledger vouch for a listed file? */
  predicate Skips(f: Found, recordedBy: int, network: bool, s: Kept) {
    s.entry.Some? && MatchesListing(s.entry.value, f.size, f.mtime, recordedBy, network)
  }

  /** What an update leaves for a walked file. */
  function Updated(t: Tools, f: Found, at: Place, recordedBy: int, s: Kept): Kept {
    if Skips(f, recordedBy, at.network, s) then s else Applied(t, f, at, recordedBy, s)
  }

  /** The walked files whose document changes. */
  function Changed(t: Tools, files: seq<Found>, at: Place, recordedBy: int, was: string -> Kept): set<string> {
    set f <- files | Updated(t, f, at, recordedBy, was(f.rel)).parts.doc != was(f.rel).parts.doc :: f.rel
  }

  /** The paths of the ledger that a walk did not find. */
  function Unseen(ledger: set<string>, files: seq<Found>): set<string> { ledger - Rels(files) }

  /** The number of changes an update by a walk makes: files whose document changes and, if the walk dropped no
      folder, paths that it did not find. */
  function ChangeCount(t: Tools, w: Walk, at: Place, recordedBy: int, was: string -> Kept, ledger: set<string>): nat {
    |Changed(t, w.files, at, recordedBy, was)| + if w.dropped == 0 then |Unseen(ledger, w.files)| else 0
  }

  lemma SkipSettles(t: Tools, repo: Repo, f: Found, recordedBy: int, network: bool)
    requires ToolsOk(t) && InStep(t, f.rel, repo.At(f.rel)) && Trusted(t, repo.At(f.rel), f, recordedBy, network)
    requires Skips(f, recordedBy, network, repo.At(f.rel))
    ensures Settled(t, f, repo.At(f.rel), repo.At(f.rel))
  {
    hide InStep, Shows, MatchesListing, Verdict;
    if f.read.Some? { InStepShows(t, f.rel, repo.At(f.rel), f.read.value); }
  }

  method UpdateOne(t: Tools, repo: Repo, f: Found, at: Place, recordedBy: int) returns (kind: ChangeKind, touched: bool)
    requires ToolsOk(t) && InStep(t, f.rel, repo.At(f.rel)) && Trusted(t, repo.At(f.rel), f, recordedBy, at.network)
    modifies repo
    ensures Settled(t, f, old(repo.At(f.rel)), repo.At(f.rel)) && InStep(t, f.rel, repo.At(f.rel))
    ensures forall q :: q != f.rel ==> repo.At(q) == old(repo.At(q))
    ensures !touched ==> repo.At(f.rel) == old(repo.At(f.rel))
    ensures repo.At(f.rel) == Updated(t, f, at, recordedBy, old(repo.At(f.rel)))
    ensures kind != NoChange <==> repo.At(f.rel).parts.doc != old(repo.At(f.rel)).parts.doc
  {
    hide InStep, Shows, MatchesListing, Binary, Rec, Verdict, Made;
    var e := Get(repo.ledger, f.rel);
    if e.Some? && MatchesListing(e.value, f.size, f.mtime, recordedBy, at.network) {
      SkipSettles(t, repo, f, recordedBy, at.network);
      return NoChange, false;
    }
    AppliedShows(t, f, at, recordedBy, repo.At(f.rel));
    var unread;
    kind, unread := repo.ApplyExistingFile(t, f, at, recordedBy);
    touched := true;
  }

  method RemovePaths(repo: Repo, paths: set<string>)
    modifies repo
    ensures forall p :: repo.At(p) == if p in paths then EMPTY else old(repo.At(p))
  {
    var todo := paths;
    while todo != {}
      invariant todo <= paths
      invariant forall p :: repo.At(p) == if p in paths - todo then EMPTY else old(repo.At(p))
      decreases |todo|
    {
      var p :| p in todo;
      repo.ledger := repo.ledger - {p};
      repo.RemoveFromIndex(p);
      todo := todo - {p};
    }
  }

  /** What the walking part of an update leaves, before it decides whether to rebuild. */
  ghost predicate Walked(t: Tools, files: seq<Found>, n: nat, was: string -> Kept, now: string -> Kept)
    requires n <= |files|
  {
    && (forall j :: 0 <= j < n ==> Settled(t, files[j], was(files[j].rel), now(files[j].rel)))
    && (forall p :: (forall j :: 0 <= j < n ==> files[j].rel != p) ==> now(p) == was(p))
    && forall p :: InStep(t, p, now(p))
  }

  lemma WalkedMore(t: Tools, files: seq<Found>, n: nat, was: string -> Kept, mid: string -> Kept, now: string -> Kept)
    requires n < |files| && Once(files) && Walked(t, files, n, was, mid)
    requires Settled(t, files[n], mid(files[n].rel), now(files[n].rel)) && InStep(t, files[n].rel, now(files[n].rel))
    requires forall q :: q != files[n].rel ==> now(q) == mid(q)
    ensures Walked(t, files, n + 1, was, now)
  {
    hide Settled, InStep;
    assert mid(files[n].rel) == was(files[n].rel);
  }

  /** What the whole repository holds, as a value. */
  ghost function All(repo: Repo): string -> Kept
    reads repo
  {
    var text, symbols, sidecars, ledger := repo.text, repo.symbols, repo.sidecars, repo.ledger;
    p => Kept(Parts(Get(text, p), Get(symbols, p), Get(sidecars, p)), Get(ledger, p))
  }

  lemma AllIsAt(repo: Repo)
    ensures forall p :: All(repo)(p) == repo.At(p)
  {}

  /** After some of the walk, each file is as an update leaves it. */
  ghost predicate AllUpdated(t: Tools, files: seq<Found>, n: nat, at: Place, recordedBy: int, was: string -> Kept,
                             now: string -> Kept)
    requires n <= |files|
  {
    forall j :: 0 <= j < n ==> now(files[j].rel) == Updated(t, files[j], at, recordedBy, was(files[j].rel))
  }

  /** One file more: it is counted if its document changes, and no other file is of its path. */
  lemma CountsOne(t: Tools, files: seq<Found>, i: nat, at: Place, recordedBy: int, was: string -> Kept)
    requires i < |files| && Once(files)
    ensures var f := files[i];
            |Changed(t, files[..i + 1], at, recordedBy, was)| == |Changed(t, files[..i], at, recordedBy, was)| +
            if Updated(t, f, at, recordedBy, was(f.rel)).parts.doc != was(f.rel).parts.doc then 1 else 0
  {
    hide Updated;
    var f, before, after := files[i], files[..i], files[..i + 1];
    assert forall g :: g in after <==> g in before || g == f;
    assert f.rel !in Changed(t, before, at, recordedBy, was);
    if Updated(t, f, at, recordedBy, was(f.rel)).parts.doc != was(f.rel).parts.doc {
      assert Changed(t, after, at, recordedBy, was) == Changed(t, before, at, recordedBy, was) + {f.rel};
    } else {
      assert Changed(t, after, at, recordedBy, was) == Changed(t, before, at, recordedBy, was);
    }
  }

  lemma NoneUpdated(t: Tools, files: seq<Found>, at: Place, recordedBy: int, was: string -> Kept)
    ensures AllUpdated(t, files, 0, at, recordedBy, was, was) && Changed(t, files[..0], at, recordedBy, was) == {}
  {}

  lemma OneMoreUpdated(t: Tools, files: seq<Found>, n: nat, at: Place, recordedBy: int, was: string -> Kept,
                       mid: string -> Kept, now: string -> Kept)
    requires n < |files| && Once(files) && AllUpdated(t, files, n, at, recordedBy, was, mid)
    requires now(files[n].rel) == Updated(t, files[n], at, recordedBy, was(files[n].rel))
    requires forall q :: q != files[n].rel ==> now(q) == mid(q)
    ensures AllUpdated(t, files, n + 1, at, recordedBy, was, now)
  {
    hide Updated;
  }

  /** Indexes what the walk found changed. */
  method WalkFiles(t: Tools, repo: Repo, files: seq<Found>, at: Place, recordedBy: int)
      returns (changes: nat, touched: bool)
    requires ToolsOk(t) && Once(files) && repo.Valid(t)
    requires forall f <- files :: Trusted(t, repo.At(f.rel), f, recordedBy, at.network)
    modifies repo
    ensures Walked(t, files, |files|, old(All(repo)), All(repo))
    ensures AllUpdated(t, files, |files|, at, recordedBy, old(All(repo)), All(repo))
    ensures changes == |Changed(t, files, at, recordedBy, old(All(repo)))|
    ensures !touched ==> forall p :: repo.At(p) == old(repo.At(p))
  {
    hide InStep, Settled, Trusted, Shows, Updated, AllUpdated, Changed;
    changes, touched := 0, false;
    ghost var was := All(repo);
    NoneUpdated(t, files, at, recordedBy, was);
    AllIsAt(repo);
    for i := 0 to |files|
      invariant Walked(t, files, i, was, All(repo)) && AllUpdated(t, files, i, at, recordedBy, was, All(repo))
      invariant changes == |Changed(t, files[..i], at, recordedBy, was)|
      invariant !touched ==> forall p :: repo.At(p) == old(repo.At(p))
    {
      ghost var mid := All(repo);
      AllIsAt(repo);
      assert Trusted(t, was(files[i].rel), files[i], recordedBy, at.network);
      StillTrusted(t, files, i, was, mid, recordedBy, at.network);
      CountsOne(t, files, i, at, recordedBy, was);
      var kind, changed := UpdateOne(t, repo, files[i], at, recordedBy);
      AllIsAt(repo);
      WalkedMore(t, files, i, was, mid, All(repo));
      OneMoreUpdated(t, files, i, at, recordedBy, was, mid, All(repo));
      if kind != NoChange { changes := changes + 1; }
      touched := touched || changed;
    }
    assert files[..|files|] == files;
  }

  lemma StillTrusted(t: Tools, files: seq<Found>, i: nat, was: string -> Kept, mid: string -> Kept, recordedBy: int,
      network: bool)
    requires i < |files| && Once(files) && Walked(t, files, i, was, mid)
    requires Trusted(t, was(files[i].rel), files[i], recordedBy, network)
    ensures Trusted(t, mid(files[i].rel), files[i], recordedBy, network)
    ensures InStep(t, files[i].rel, mid(files[i].rel)) && mid(files[i].rel) == was(files[i].rel)
  {
    hide InStep, Settled, Trusted;
    assert mid(files[i].rel) == was(files[i].rel);
  }

  /** Walks the tree against the ledger: indexes what changed, and - if no folder was dropped - removes what is gone. */
  method WalkTree(t: Tools, repo: Repo, w: Walk, at: Place, recordedBy: int) returns (changes: nat, touched: bool)
    requires ToolsOk(t) && Once(w.files) && repo.Valid(t)
    requires forall f <- w.files :: Trusted(t, repo.At(f.rel), f, recordedBy, at.network)
    modifies repo
    ensures repo.Valid(t)
    ensures forall f <- w.files :: Settled(t, f, old(repo.At(f.rel)), repo.At(f.rel))
    ensures forall p :: p !in Rels(w.files) ==> repo.At(p) == if w.dropped == 0 then EMPTY else old(repo.At(p))
    ensures changes == ChangeCount(t, w, at, recordedBy, old(All(repo)), old(repo.ledger.Keys))
    ensures forall f <- w.files :: repo.At(f.rel) == Updated(t, f, at, recordedBy, old(repo.At(f.rel)))
    ensures !touched ==> forall p :: repo.At(p) == old(repo.At(p))
  {
    hide InStep, Settled, Trusted, Shows, Walked, AllUpdated, Changed, Updated;
    ghost var was, ledger := All(repo), repo.ledger.Keys;
    AllIsAt(repo);
    changes, touched := WalkFiles(t, repo, w.files, at, recordedBy);
    ghost var walked := All(repo);
    AllIsAt(repo);
    var unseen := repo.ledger.Keys - Rels(w.files);
    assert unseen == Unseen(ledger, w.files) by { UnseenSame(t, repo, w.files, was, ledger); }
    if w.dropped == 0 {
      RemovePaths(repo, unseen);
      changes := changes + |unseen|;
      touched := touched || unseen != {};
    }
    forall p | p !in Rels(w.files) ensures repo.At(p) == if w.dropped == 0 then EMPTY else old(repo.At(p)) {
      NotListed(t, w.files, was, walked, p);
    }
    forall f <- w.files
      ensures Settled(t, f, old(repo.At(f.rel)), repo.At(f.rel))
      ensures repo.At(f.rel) == Updated(t, f, at, recordedBy, old(repo.At(f.rel)))
    {
      Listed(t, w.files, was, walked, f);
      UpdatedOf(t, w.files, at, recordedBy, was, walked, f);
    }
    AllInStep(t, w.files, was, walked);
    NothingInStep(t);
  }

  lemma UnseenSame(t: Tools, repo: Repo, files: seq<Found>, was: string -> Kept, ledger: set<string>)
    requires Walked(t, files, |files|, was, All(repo)) && forall p :: p in ledger <==> was(p).entry.Some?
    ensures repo.ledger.Keys - Rels(files) == Unseen(ledger, files)
  {
    hide Walked;
    forall p | p !in Rels(files) ensures p in repo.ledger <==> p in ledger {
      NotListed(t, files, was, All(repo), p);
      assert All(repo)(p).entry.Some? <==> p in repo.ledger;
    }
  }

  lemma UpdatedOf(t: Tools, files: seq<Found>, at: Place, recordedBy: int, was: string -> Kept, now: string -> Kept,
                  f: Found)
    requires AllUpdated(t, files, |files|, at, recordedBy, was, now) && f in files
    ensures now(f.rel) == Updated(t, f, at, recordedBy, was(f.rel))
  {
    hide Updated;
    var j :| 0 <= j < |files| && files[j] == f;
  }

  lemma AllInStep(t: Tools, files: seq<Found>, was: string -> Kept, now: string -> Kept)
    requires Walked(t, files, |files|, was, now)
    ensures forall p :: InStep(t, p, now(p))
  {}

  lemma NotListed(t: Tools, files: seq<Found>, was: string -> Kept, now: string -> Kept, p: string)
    requires Walked(t, files, |files|, was, now) && p !in Rels(files)
    ensures now(p) == was(p) && (now(p).entry.None? ==> now(p) == EMPTY)
  {
    hide Settled;
    forall j | 0 <= j < |files| ensures files[j].rel != p { assert files[j] in files; }
    assert InStep(t, p, now(p));
  }

  lemma Listed(t: Tools, files: seq<Found>, was: string -> Kept, now: string -> Kept, f: Found)
    requires Walked(t, files, |files|, was, now) && f in files
    ensures Settled(t, f, was(f.rel), now(f.rel)) && f.rel in Rels(files)
  {
    hide Settled, InStep;
    var j :| 0 <= j < |files| && files[j] == f;
  }

  /** What an update that does not rebuild leaves. */
  ghost predicate UpdatedAs(t: Tools, w: Walk, at: Place, recordedBy: int, was: string -> Kept, now: string -> Kept) {
    && (forall f <- w.files :: now(f.rel) == Updated(t, f, at, recordedBy, was(f.rel)))
    && forall p :: p !in Rels(w.files) ==> now(p) == if w.dropped == 0 then EMPTY else was(p)
  }

  /** An update by a walk. More changes than it is worth applying one by one, and it builds the index anew, from a
      walk of its own. So of a walk that dropped a folder, a path that it did not find stays if and only if the
      changes are few enough, or the second walk finds it again and reads it. */
  method Update(t: Tools, repo: Repo, w: Walk, again: Walk, at: Place, recordedBy: int)
    returns (now: Repo, rebuilt: bool, touched: bool)
    requires ToolsOk(t) && Once(w.files) && Once(again.files) && repo.Valid(t)
    requires forall f <- w.files :: Trusted(t, repo.At(f.rel), f, recordedBy, at.network)
    modifies repo
    ensures now.Valid(t) && (now == repo || fresh(now))
    ensures rebuilt <==> ChangeCount(t, w, at, recordedBy, old(All(repo)), old(repo.ledger.Keys)) > REBUILD_THRESHOLD
    ensures if rebuilt then BuiltAs(t, again.files, at.network, All(now))
            else UpdatedAs(t, w, at, recordedBy, old(All(repo)), All(now))
    ensures rebuilt ==> Fresh(t, now, again.files) && forall f <- again.files :: f.read.None? ==> now.At(f.rel) == EMPTY
    ensures !rebuilt && Complete(w) ==> Fresh(t, now, w.files)
    ensures !rebuilt && w.dropped > 0 ==> forall p :: p !in Rels(w.files) ==> now.At(p) == old(repo.At(p))
    ensures w.dropped > 0 ==> forall p :: p !in Rels(w.files) && old(repo.At(p)).entry.Some? ==>
              (now.At(p).entry.Some? <==> !rebuilt || exists f <- again.files :: f.rel == p && f.read.Some?)
    ensures !rebuilt ==> forall f <- w.files ::
              f.read.None? && f.size < STREAM_THRESHOLD ==> now.At(f.rel) == old(repo.At(f.rel))
    ensures !rebuilt && !touched ==> forall p :: now.At(p) == old(repo.At(p))
  {
    hide InStep, Trusted, ChangeCount, Updated, Applied;
    var changes;
    AllIsAt(repo);
    changes, touched := WalkTree(t, repo, w, at, recordedBy);
    rebuilt := changes > REBUILD_THRESHOLD;
    if rebuilt {
      now := Build(t, again, at.network);
      forall p ensures now.At(p).entry.Some? <==> exists f <- again.files :: f.rel == p && f.read.Some? {
        InBuild(t, now, again.files, p);
      }
    } else {
      now := repo;
      AllIsAt(repo);
    }
  }

  lemma InBuild(t: Tools, repo: Repo, files: seq<Found>, p: string)
    requires Fresh(t, repo, files) && forall f <- files :: f.read.None? ==> repo.At(f.rel) == EMPTY
    ensures repo.At(p).entry.Some? <==> exists f <- files :: f.rel == p && f.read.Some?
  {
    hide Verdict, IsMade;
    if f :| f in files && f.rel == p && f.read.Some? {
      assert Shows(t, p, repo.At(p), f.read.value);
    } else if p in Rels(files) {
      var f :| f in files && f.rel == p;
      assert repo.At(f.rel) == EMPTY;
    }
  }

  /** Two indexes that show the same files, all of them read, hold the same documents and have entries for the same
      paths with the same hashes, however they came about. */
  lemma FreshAgree(t: Tools, a: Repo, b: Repo, files: seq<Found>, p: string)
    requires Fresh(t, a, files) && Fresh(t, b, files) && forall f <- files :: f.read.Some?
    ensures p in a.text <==> p in b.text
    ensures p in a.text ==> a.text[p] == b.text[p]
    ensures p in a.ledger <==> p in b.ledger
    ensures p in a.ledger ==> a.ledger[p].hash == b.ledger[p].hash
  {
    hide Verdict;
    if p in Rels(files) {
      var f :| f in files && f.rel == p;
      assert Shows(t, p, a.At(p), f.read.value) && Shows(t, p, b.At(p), f.read.value);
      assert Get(a.text, p) == a.At(p).parts.doc && Get(b.text, p) == b.At(p).parts.doc;
    } else {
      assert a.At(p) == EMPTY && b.At(p) == EMPTY;
    }
  }

  // ---- an update that forgets a path under a dropped folder ----

  function Digits(n: nat): (s: string)
    ensures s != ""
  {
    var last := ["0123456789"[n % 10]];
    if n < 10 then last else Digits(n / 10) + last
  }

  lemma {:induction false} DigitsApart(i: nat, j: nat)
    requires i != j
    ensures Digits(i) != Digits(j)
    decreases i + j
  {
    var a, b := Digits(i), Digits(j);
    assert a[|a| - 1] == "0123456789"[i % 10] && b[|b| - 1] == "0123456789"[j % 10];
    assert "0123456789"[i % 10] == "0123456789"[j % 10] ==> i % 10 == j % 10;
    if i % 10 == j % 10 && i >= 10 && j >= 10 {
      DigitsApart(i / 10, j / 10);
      assert a[..|a| - 1] == Digits(i / 10) && b[..|b| - 1] == Digits(j / 10);
    }
  }

  const UNDER_DROPPED := "old/x.cs"

  function NewName(n: nat): (rel: string)
    ensures "new/" <= rel && rel[0] == 'n'
  {
    "new/" + Digits(n) + ".cs"
  }

  lemma NamesApart(i: nat, j: nat)
    requires i != j
    ensures NewName(i) != NewName(j)
  {
    DigitsApart(i, j);
    var a, b := NewName(i), NewName(j);
    assert a[4..|a| - 3] == Digits(i) && b[4..|b| - 3] == Digits(j);
  }

  function FileOf(rel: string, text: Bytes): Found {
    Found(rel, |text|, 1, FileIdentity(0, 0, 0, 0), FileIdentity(0, 0, 0, 0), 2, 3, Some(text))
  }

  function NewFiles(n: nat, text: Bytes): seq<Found> {
    seq(n, i requires 0 <= i < n => FileOf(NewName(i), text))
  }

  lemma NewOnce(n: nat, text: Bytes)
    ensures Once(NewFiles(n, text))
  {
    hide NewName;
    forall i, j | 0 <= i < j < n ensures NewName(i) != NewName(j) { NamesApart(i, j); }
  }

  lemma {:induction false} AsManyNames(files: seq<Found>)
    requires Once(files)
    ensures |Rels(files)| == |files|
  {
    if files != [] {
      var last := |files| - 1;
      AsManyNames(files[..last]);
      assert Rels(files) == Rels(files[..last]) + {files[last].rel};
      assert files[last].rel !in Rels(files[..last]);
    }
  }

  lemma NewNames(n: nat, text: Bytes)
    ensures |Rels(NewFiles(n, text))| == n && UNDER_DROPPED !in Rels(NewFiles(n, text))
  {
    hide NewName;
    NewOnce(n, text);
    AsManyNames(NewFiles(n, text));
    forall f <- NewFiles(n, text) ensures f.rel != UNDER_DROPPED { assert UNDER_DROPPED[0] == 'o' && f.rel[0] == 'n'; }
  }

  /** Each file that is new is a change. */
  lemma AllNew(t: Tools, n: nat, text: Bytes, at: Place, recordedBy: int, was: string -> Kept, ledger: set<string>)
    requires !Binary(t, text) && forall p <- Rels(NewFiles(n, text)) :: was(p) == EMPTY
    ensures ChangeCount(t, Walk(NewFiles(n, text), 1), at, recordedBy, was, ledger) == n
  {
    hide Binary, Rec;
    var files := NewFiles(n, text);
    NewNames(n, text);
    forall f <- files ensures Updated(t, f, at, recordedBy, was(f.rel)).parts.doc != was(f.rel).parts.doc {
      assert f.rel in Rels(files);
      assert Applied(t, f, at, recordedBy, EMPTY).parts.doc == Some(text);
    }
    assert Changed(t, files, at, recordedBy, was) == Rels(files);
  }

  /** The index holds one file, in a folder that a walk then drops. In another folder the walk finds new files, one more
      than the threshold: the file's entry is gone after the update. */
  method DroppedFolderForgets(t: Tools, text: Bytes, at: Place) returns (w: Walk, before: Kept, now: Repo)
    requires ToolsOk(t) && !Binary(t, text)
    ensures w.dropped > 0 && |w.files| == REBUILD_THRESHOLD + 1 && Once(w.files)
    ensures forall f <- w.files :: "new/" <= f.rel && f.read == Some(text)
    ensures before.entry.Some? && before.parts.doc == Some(text)
    ensures now.At(UNDER_DROPPED) == EMPTY
  {
    hide Binary, Shows, Rec, InStep, Trusted, ChangeCount, Applied, NewName;
    var n := REBUILD_THRESHOLD + 1;
    var first := FileOf(UNDER_DROPPED, text);
    var repo := Build(t, Walk([first], 0), at.network);
    before := repo.At(UNDER_DROPPED);
    ShowsText(t, UNDER_DROPPED, before, text);
    w := Walk(NewFiles(n, text), 1);
    NewNames(n, text);
    NewOnce(n, text);
    AllIsAt(repo);
    NothingNew(t, repo, first, w.files);
    AllNew(t, n, text, at, 0, All(repo), repo.ledger.Keys);
    forall f <- w.files ensures Trusted(t, repo.At(f.rel), f, 0, at.network) {
      assert f.rel in Rels(w.files);
      AnewIsTrusted(t, f, at.network);
    }
    var rebuilt, touched;
    now, rebuilt, touched := Update(t, repo, w, w, at, 0);
  }

  lemma AnewIsTrusted(t: Tools, f: Found, network: bool)
    ensures Trusted(t, EMPTY, f, 0, network)
  {}

  lemma NothingNew(t: Tools, repo: Repo, f: Found, files: seq<Found>)
    requires Fresh(t, repo, [f]) && f.rel !in Rels(files)
    ensures forall p <- Rels(files) :: repo.At(p) == EMPTY
  {
    hide Shows;
  }

  lemma ShowsText(t: Tools, p: string, s: Kept, text: Bytes)
    requires Shows(t, p, s, text) && !Binary(t, text)
    ensures s.entry.Some? && s.parts.doc == Some(text)
  {
    hide Binary;
  }

  // ---- pruning ----

  /** Drops the paths that are ignored by now, from the index and from the ledger. */
  method PruneIgnored(t: Tools, repo: Repo, ignored: string -> bool) returns (pruned: nat)
    requires repo.Valid(t)
    modifies repo
    ensures repo.Valid(t)
    ensures forall p :: repo.At(p) == if ignored(p) then EMPTY else old(repo.At(p))
    ensures pruned == 0 ==> forall p :: repo.At(p) == old(repo.At(p))
  {
    hide InStep;
    var prune := set p <- repo.text.Keys + repo.symbols.Keys | ignored(p);
    var unledger := set p <- repo.ledger.Keys | ignored(p);
    forall p ensures repo.At(p).entry.None? ==> repo.At(p) == EMPTY { NoEntry(t, p, repo.At(p)); }
    RemovePaths(repo, prune + unledger);
    pruned := |prune + unledger|;
    NothingInStep(t);
  }

  lemma NoEntry(t: Tools, p: string, s: Kept)
    requires InStep(t, p, s)
    ensures s.entry.None? ==> s == EMPTY
  {}
}

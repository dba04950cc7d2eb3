/** Applying a batch of changed paths to an index, instead of walking the whole tree. */
module RepoChanges {
  import opened Common
  import opened LedgerTrust
  import opened RepoIndex
  import opened RepoUpdate
  import IgnoreFiles

  /** What is at a path: a folder, or a file - whether its size could be asked for, and whether it is a link. */
  datatype Node = Folder | File(found: Found, statted: bool, link: bool)

  /** What a walk of a folder found, and how many folders it had to drop. */
  datatype Listing = Listing(files: set<string>, dropped: nat)

  /** The tree, what of it does not answer, and what is left out of it by name rules and by ignore files. */
  datatype World = World(
    tree: map<string, Node>,
    unanswered: set<string>, network: bool, rootAnswers: bool,
    rules: string -> bool, ignoredType: string -> bool,
    fileIgnored: string -> bool, dirIgnored: string -> bool, isIgnoreFile: string -> bool,
    walk: string -> Listing,
    maxFileSize: int, place: Place, recordedBy: int)

  predicate Under(p: string, dir: string) { dir + "/" <= p }

  /** What there is has folders above it; what is under an ignored folder is ignored; a walk finds files that are there.
      A local disk is believed, and what is under a path that is gone is gone. */
  ghost predicate WorldOk(w: World) {
    && (forall p <- w.tree :: w.tree[p].File? ==> w.tree[p].found.rel == p)
    && (forall p <- w.tree, d :: Under(p, d) ==> d in w.tree && w.tree[d] == Folder)
    && (forall p, d :: Under(p, d) && w.dirIgnored(d) ==> w.fileIgnored(p))
    && (forall p :: w.ignoredType(p) ==> w.rules(p))
    && (forall d, p :: p in w.walk(d).files ==> Under(p, d) && p in w.tree && w.tree[p].File? && !w.fileIgnored(p))
    && (w.network || w.unanswered == {})
    && (forall p <- w.unanswered, d :: Under(p, d) ==> d in w.tree || d in w.unanswered)
  }

  datatype PathKind = FolderKind | FileKind | Gone | Unknown

  /** What is at a path now. On a share, "gone" needs an answer. */
  function Probe(w: World, p: string): PathKind {
    if p in w.unanswered then Unknown
    else if p in w.tree then if w.tree[p].Folder? then FolderKind else FileKind
    else if w.network && !w.rootAnswers then Unknown
    else Gone
  }

  /** Should the file be in an index of this tree? */
  predicate Wanted(w: World, p: string) {
    && p in w.tree && w.tree[p].File? && !w.tree[p].link && w.tree[p].found.size <= w.maxFileSize
    && !w.rules(p) && !w.fileIgnored(p)
  }

  /** Everything that is asked of the disk is answered. */
  predicate Answers(w: World) {
    && w.unanswered == {} && (w.network ==> w.rootAnswers)
    && forall p <- w.tree :: w.tree[p].File? ==> w.tree[p].statted && w.tree[p].found.read.Some?
  }

  /** A path is as a full build would leave it. */
  ghost predicate Right(t: Tools, w: World, p: string, s: Kept) {
    if Wanted(w, p) then w.tree[p].found.read.Some? && Shows(t, p, s, w.tree[p].found.read.value) else s == EMPTY
  }

  // ---- what one changed path does to every path ----

  /** What applying a file leaves for it. One that a walk found is not judged by ignore files again. */
  function FileResult(t: Tools, w: World, p: string, walked: bool, s: Kept): Kept
    requires p in w.tree && w.tree[p].File?
  {
    var n := w.tree[p];
    if w.rules(p) || (!walked && w.fileIgnored(p)) then EMPTY
    else if !n.statted then s
    else if n.link || n.found.size > w.maxFileSize then EMPTY
    else Applied(t, n.found, w.place, w.recordedBy, s)
  }

  predicate LeftOut(w: World, rel: string) { w.fileIgnored(rel) && w.dirIgnored(rel) }

  /** Does the walk of a folder, with the questions it leads to, settle a path under it? Not a file that is there and
      was not found by the walk. */
  predicate SettledByWalk(w: World, rel: string, p: string) {
    && Under(p, rel)
    && (p in w.walk(rel).files
        || (w.walk(rel).dropped == 0 && (w.fileIgnored(p) || Probe(w, p).Gone? || Probe(w, p).FolderKind?)))
  }

  /** Does a changed path settle another one, or itself? A folder does not settle its own path, where the ledger may
      still have it as a file, nor a file the paths that were under it. */
  predicate Settles(w: World, rel: string, p: string) {
    if LeftOut(w, rel) then p == rel || Under(p, rel)
    else
      match Probe(w, rel)
      case FolderKind => if w.dirIgnored(rel) then p == rel || Under(p, rel) else SettledByWalk(w, rel, p)
      case FileKind => p == rel
      case Gone => p == rel || Under(p, rel)
      case Unknown => false
  }

  /** What a changed path leaves for a path that it settles. */
  function StepOf(t: Tools, w: World, rel: string, p: string, s: Kept): Kept
    requires WorldOk(w)
  {
    if !Settles(w, rel, p) then s
    else if LeftOut(w, rel) then EMPTY
    else if Probe(w, rel) == FileKind then FileResult(t, w, rel, false, s)
    else if Probe(w, rel) == FolderKind && !w.dirIgnored(rel) && p in w.walk(rel).files
      then FileResult(t, w, p, true, s)
    else EMPTY
  }

  lemma FileKept(t: Tools, w: World, p: string, walked: bool, s: Kept)
    requires ToolsOk(t) && WorldOk(w) && p in w.tree && w.tree[p].File? && InStep(t, p, s)
    requires walked ==> !w.fileIgnored(p)
    ensures InStep(t, p, FileResult(t, w, p, walked, s))
    ensures Answers(w) ==> Right(t, w, p, FileResult(t, w, p, walked, s))
  {
    hide Applied, Shows, Binary;
    AppliedShows(t, w.tree[p].found, w.place, w.recordedBy, s);
    EmptyInStep(t, p);
  }

  lemma EmptyInStep(t: Tools, p: string)
    ensures InStep(t, p, EMPTY)
  {}

  /** A changed path keeps index and ledger in step, and what it settles is right. */
  lemma StepKept(t: Tools, w: World, rel: string, p: string, s: Kept)
    requires ToolsOk(t) && WorldOk(w) && InStep(t, p, s)
    ensures InStep(t, p, StepOf(t, w, rel, p, s))
    ensures Answers(w) && Settles(w, rel, p) ==> Right(t, w, p, StepOf(t, w, rel, p, s))
  {
    hide Applied, Shows, Binary, InStep, FileResult;
    EmptyInStep(t, p);
    if Settles(w, rel, p) && !LeftOut(w, rel) {
      if Probe(w, rel) == FileKind {
        FileKept(t, w, rel, false, s);
      } else if Probe(w, rel) == FolderKind && !w.dirIgnored(rel) && p in w.walk(rel).files {
        FileKept(t, w, p, true, s);
      }
    }
  }

  // ---- applying ----

  method Forget(repo: Repo, p: string)
    modifies repo
    ensures repo.At(p) == EMPTY && forall q :: q != p ==> repo.At(q) == old(repo.At(q))
  {
    repo.RemoveFromIndex(p);
    repo.ledger := repo.ledger - {p};
  }

  /** Drops a path, and what is under it. */
  method RemovePathAndChildren(t: Tools, repo: Repo, rel: string, withChildren: bool) returns (removed: nat)
    requires repo.Valid(t)
    modifies repo
    ensures forall p :: repo.At(p) == if p == rel || (withChildren && Under(p, rel)) then EMPTY else old(repo.At(p))
  {
    hide InStep, Under;
    removed := 0;
    forall p ensures repo.At(p).entry.None? ==> repo.At(p) == EMPTY { NoEntry(t, p, repo.At(p)); }
    if rel in repo.ledger {
      Forget(repo, rel);
      removed := 1;
    }
    if withChildren {
      var children := set k <- repo.ledger | Under(k, rel);
      RemovePaths(repo, children);
      removed := removed + |children|;
    }
  }

  /** A file that is there, and not to be held: by its name, an ignore file (a walk has judged that), as a link, or by
      its size. */
  predicate TurnedDown(w: World, p: string, walked: bool)
    requires p in w.tree && w.tree[p].File?
  {
    var n := w.tree[p];
    w.rules(p) || (!walked && w.fileIgnored(p)) || (n.statted && (n.link || n.found.size > w.maxFileSize))
  }

  /** Does applying a file count as a change? Its document changes, or it is turned down and had an entry. */
  predicate FileChanges(t: Tools, w: World, p: string, walked: bool, s: Kept)
    requires p in w.tree && w.tree[p].File?
  {
    FileResult(t, w, p, walked, s).parts.doc != s.parts.doc || (TurnedDown(w, p, walked) && s.entry.Some?)
  }

  /** Applies one file. */
  method ApplyFile(t: Tools, w: World, repo: Repo, p: string, walked: bool) returns (changed: bool)
    requires InStep(t, p, repo.At(p)) && p in w.tree && w.tree[p].File? && w.tree[p].found.rel == p
    modifies repo
    ensures repo.At(p) == FileResult(t, w, p, walked, old(repo.At(p)))
    ensures forall q :: q != p ==> repo.At(q) == old(repo.At(q))
    ensures changed <==> FileChanges(t, w, p, walked, old(repo.At(p)))
  {
    hide Applied;
    changed := false;
    NoEntry(t, p, repo.At(p));
    var n := w.tree[p];
    if w.rules(p) || (!walked && w.fileIgnored(p)) {
      if p in repo.ledger { Forget(repo, p); changed := true; }
      return;
    }
    if !n.statted { return; }
    if n.link || n.found.size > w.maxFileSize {
      if p in repo.ledger { Forget(repo, p); changed := true; }
      return;
    }
    var kind, unread := repo.ApplyExistingFile(t, n.found, w.place, w.recordedBy);
    changed := kind != NoChange;
  }

  /** Applies what the walk of a folder found. */
  method ApplyWalked(t: Tools, w: World, repo: Repo, rel: string)
    requires ToolsOk(t) && WorldOk(w) && repo.Valid(t)
    modifies repo
    ensures repo.Valid(t)
    ensures forall p ::
            repo.At(p) == if InWalk(w, rel, p) then FileResult(t, w, p, true, old(repo.At(p))) else old(repo.At(p))
  {
    hide FileResult, WorldOk, InStep;
    var files := w.walk(rel).files;
    forall p | p in files ensures InWalk(w, rel, p) { WalkFinds(w, rel, p); }
    var todo := files;
    while todo != {}
      invariant todo <= files && repo.Valid(t)
      invariant forall p :: repo.At(p) ==
                  if InWalk(w, rel, p) && p !in todo then FileResult(t, w, p, true, old(repo.At(p)))
                  else old(repo.At(p))
      decreases |todo|
    {
      var p :| p in todo;
      WalkFinds(w, rel, p);
      FileKept(t, w, p, true, repo.At(p));
      var changed := ApplyFile(t, w, repo, p, true);
      todo := todo - {p};
    }
  }

  predicate InWalk(w: World, rel: string, p: string) {
    p in w.walk(rel).files && p in w.tree && w.tree[p].File?
  }

  lemma WalkFinds(w: World, rel: string, p: string)
    requires WorldOk(w) && p in w.walk(rel).files
    ensures Under(p, rel) && InWalk(w, rel, p) && w.tree[p].found.rel == p && !w.fileIgnored(p)
  {}

  lemma GoneBelow(w: World, k: string, p: string)
    requires WorldOk(w) && Probe(w, k) == Gone && Under(p, k)
    ensures Probe(w, p) == Gone
  {}

  lemma UnderUnder(p: string, k: string, d: string)
    requires Under(p, k) && Under(k, d)
    ensures Under(p, d)
  {
    assert p[..|d| + 1] == k[..|d| + 1];
  }

  predicate Droppable(w: World, p: string) { w.fileIgnored(p) || Probe(w, p).Gone? || Probe(w, p).FolderKind? }

  /** The paths that the disk did not answer for, and no ignore file leaves out. */
  function Unanswered(w: World, paths: set<string>): set<string> {
    set p <- paths | !w.fileIgnored(p) && Probe(w, p) == Unknown
  }

  lemma OneMoreUnanswered(w: World, paths: set<string>, k: string)
    ensures Unanswered(w, paths + {k}) ==
            Unanswered(w, paths) + if !w.fileIgnored(k) && Probe(w, k) == Unknown then {k} else {}
  {
    hide Probe;
  }

  /** After some of the stale paths: what was to go of them is gone, and nothing else is touched. */
  ghost predicate Dropping(w: World, stale: set<string>, todo: set<string>, was: string -> Kept, now: string -> Kept) {
    forall p ::
      && (now(p) == was(p) || (p in stale && Droppable(w, p) && now(p) == EMPTY))
      && (p in stale && p !in todo && Droppable(w, p) ==> now(p) == EMPTY)
  }

  lemma DroppingMore(w: World, stale: set<string>, todo: set<string>, k: string, was: string -> Kept,
                     mid: string -> Kept, now: string -> Kept)
    requires Dropping(w, stale, todo, was, mid)
    requires forall p :: now(p) == mid(p) || (p in stale && Droppable(w, p) && now(p) == EMPTY)
    requires Droppable(w, k) ==> now(k) == EMPTY
    ensures Dropping(w, stale, todo - {k}, was, now)
  {
    hide Droppable;
  }

  lemma DroppingStarts(w: World, stale: set<string>, was: string -> Kept)
    ensures Dropping(w, stale, stale, was, was)
  {}

  lemma DroppedAll(w: World, stale: set<string>, was: string -> Kept, now: string -> Kept)
    requires Dropping(w, stale, {}, was, now)
    ensures forall p :: now(p) == if p in stale && Droppable(w, p) then EMPTY else was(p)
  {
    hide Droppable;
  }

  method DropNext(t: Tools, w: World, repo: Repo, stale: set<string>, ghost todo: set<string>, k: string,
      ghost was: string -> Kept)
    returns (unknown: set<string>)
    requires ToolsOk(t) && WorldOk(w) && repo.Valid(t) && k in todo && todo <= stale
    requires forall p :: Probe(w, k) == Gone && Under(p, k) && p in repo.ledger ==> p in stale
    requires Dropping(w, stale, todo, was, All(repo))
    modifies repo
    ensures repo.Valid(t) && repo.ledger.Keys <= old(repo.ledger.Keys)
    ensures Dropping(w, stale, todo - {k}, was, All(repo))
    ensures Unanswered(w, stale - (todo - {k})) == Unanswered(w, stale - todo) + unknown
  {
    hide WorldOk, InStep, Under, Probe, Droppable, Unanswered, Dropping;
    ghost var mid := All(repo);
    AllIsAt(repo);
    DropOne(t, w, repo, stale, k);
    AllIsAt(repo);
    DroppingMore(w, stale, todo, k, was, mid, All(repo));
    OneMoreUnanswered(w, stale - todo, k);
    assert stale - todo + {k} == stale - (todo - {k});
    unknown := if !w.fileIgnored(k) && Probe(w, k) == Unknown then {k} else {};
  }

  /** Drops the paths that a walk did not find, where the disk confirms that the file is gone. */
  method DropStale(t: Tools, w: World, repo: Repo, stale: set<string>) returns (unsure: set<string>)
    requires ToolsOk(t) && WorldOk(w) && repo.Valid(t)
    requires forall k, p :: k in stale && Probe(w, k) == Gone && Under(p, k) && p in repo.ledger ==> p in stale
    modifies repo
    ensures forall p :: repo.At(p) == if p in stale && Droppable(w, p) then EMPTY else old(repo.At(p))
    ensures unsure == Unanswered(w, stale)
  {
    hide WorldOk, InStep, Under, Probe, Droppable, Unanswered, Dropping;
    NoneUnanswered(w);
    ghost var was, ledger := All(repo), repo.ledger.Keys;
    AllIsAt(repo);
    DroppingStarts(w, stale, was);
    unsure := {};
    var todo := stale;
    assert stale - todo == {};
    while todo != {}
      invariant todo <= stale && repo.Valid(t) && repo.ledger.Keys <= ledger
      invariant Dropping(w, stale, todo, was, All(repo))
      invariant unsure == Unanswered(w, stale - todo)
      decreases |todo|
    {
      var k :| k in todo;
      var unknown := DropNext(t, w, repo, stale, todo, k, was);
      unsure, todo := unsure + unknown, todo - {k};
    }
    assert stale - todo == stale;
    AllIsAt(repo);
    DroppedAll(w, stale, was, All(repo));
  }

  lemma NoneUnanswered(w: World)
    ensures Unanswered(w, {}) == {}
  {}

  method DropOne(t: Tools, w: World, repo: Repo, stale: set<string>, k: string)
    requires WorldOk(w) && repo.Valid(t) && k in stale
    requires forall p :: Probe(w, k) == Gone && Under(p, k) && p in repo.ledger ==> p in stale
    modifies repo
    ensures repo.Valid(t) && repo.ledger.Keys <= old(repo.ledger.Keys)
    ensures forall p :: repo.At(p) == old(repo.At(p)) || (p in stale && Droppable(w, p) && repo.At(p) == EMPTY)
    ensures Droppable(w, k) ==> repo.At(k) == EMPTY
  {
    hide WorldOk, InStep, Under, Probe;
    forall p ensures repo.At(p).entry.None? ==> repo.At(p) == EMPTY { NoEntry(t, p, repo.At(p)); }
    NothingInStep(t);
    if w.fileIgnored(k) || Probe(w, k) == FolderKind {
      var n := RemovePathAndChildren(t, repo, k, false);
    } else if Probe(w, k) == Gone {
      forall p | Under(p, k) ensures Probe(w, p) == Gone { GoneBelow(w, k, p); }
      var n := RemovePathAndChildren(t, repo, k, true);
    }
    forall p <- repo.ledger ensures p in old(repo.ledger) { assert repo.At(p).entry.Some?; }
  }

  /** The paths a folder leaves unsettled: those the walk did not find, and the disk did not answer for. */
  function Unsettled(w: World, ledger: set<string>, rel: string): set<string> {
    set p <- ledger | Under(p, rel) && p !in w.walk(rel).files && w.walk(rel).dropped == 0 && !w.fileIgnored(p) &&
                      Probe(w, p) == Unknown
  }

  lemma StaleBelow(w: World, rel: string, k: string, p: string)
    requires WorldOk(w) && Under(k, rel) && Probe(w, k) == Gone && Under(p, k)
    ensures Under(p, rel) && p !in w.walk(rel).files
  {
    UnderUnder(p, k, rel);
    GoneBelow(w, k, p);
    if p in w.walk(rel).files { WalkFinds(w, rel, p); }
  }

  lemma FolderStep(t: Tools, w: World, rel: string, p: string, was: Kept, walked: Kept)
    requires WorldOk(w) && InStep(t, p, walked)
    requires !LeftOut(w, rel) && Probe(w, rel) == FolderKind && !w.dirIgnored(rel)
    requires walked == if InWalk(w, rel, p) then FileResult(t, w, p, true, was) else was
    ensures StepOf(t, w, rel, p, was) ==
            if walked.entry.Some? && Under(p, rel) && p !in w.walk(rel).files && w.walk(rel).dropped == 0
              && Droppable(w, p)
            then EMPTY else walked
  {
    hide FileResult, WorldOk, InStep, Under, Probe, LeftOut;
    NoEntry(t, p, walked);
    if p in w.walk(rel).files { WalkFinds(w, rel, p); }
  }

  /** Applies a folder: what its walk finds, and then what the ledger has under it that the walk did not find. */
  method ApplyFolder(t: Tools, w: World, repo: Repo, rel: string) returns (unsure: set<string>)
    requires ToolsOk(t) && WorldOk(w) && repo.Valid(t)
    requires !LeftOut(w, rel) && Probe(w, rel) == FolderKind && !w.dirIgnored(rel)
    modifies repo
    ensures forall p :: repo.At(p) == StepOf(t, w, rel, p, old(repo.At(p)))
    ensures unsure == Unsettled(w, old(repo.ledger.Keys), rel)
  {
    hide FileResult, WorldOk, InStep, Under, Probe, StepOf;
    unsure := {};
    ghost var was := All(repo);
    AllIsAt(repo);
    ApplyWalked(t, w, repo, rel);
    ghost var walked := All(repo);
    AllIsAt(repo);
    if w.walk(rel).dropped == 0 {
      var stale := set k <- repo.ledger | Under(k, rel) && k !in w.walk(rel).files;
      forall k, p | k in stale && Probe(w, k) == Gone && Under(p, k) && p in repo.ledger ensures p in stale {
        StaleBelow(w, rel, k, p);
      }
      unsure := DropStale(t, w, repo, stale);
    }
    forall p ensures repo.At(p) == StepOf(t, w, rel, p, was(p)) {
      FolderStep(t, w, rel, p, was(p), walked(p));
    }
  }

  // ---- a batch ----

  function UnsureOf(w: World, ledger: set<string>, rel: string): set<string> {
    if LeftOut(w, rel) then {}
    else
      match Probe(w, rel)
      case FolderKind => if w.dirIgnored(rel) then {} else Unsettled(w, ledger, rel)
      case Unknown => {rel}
      case _ => {}
  }

  /** Does a changed path change an ignore file? It is one, not left out, and gone with its entry, or there and
      changed. */
  ghost predicate Moved(t: Tools, w: World, rel: string, s: Kept)
    requires WorldOk(w)
  {
    && w.isIgnoreFile(rel) && !LeftOut(w, rel)
    && match Probe(w, rel)
       case Gone => s.entry.Some?
       case FileKind => FileChanges(t, w, rel, false, s)
       case _ => false
  }

  /** Does a changed path reach the index? */
  ghost predicate Touches(w: World, ledger: set<string>, rel: string) {
    if LeftOut(w, rel) then exists k <- ledger :: k == rel || Under(k, rel) else Probe(w, rel) != Unknown
  }

  /** Applies one changed path. */
  method ApplyPath(t: Tools, w: World, repo: Repo, rel: string)
    returns (unsure: set<string>, touched: bool, ignoreChanged: bool)
    requires ToolsOk(t) && WorldOk(w) && repo.Valid(t)
    modifies repo
    ensures forall p :: repo.At(p) == StepOf(t, w, rel, p, old(repo.At(p)))
    ensures unsure == UnsureOf(w, old(repo.ledger.Keys), rel)
    ensures !touched ==> forall p :: repo.At(p) == old(repo.At(p))
    ensures touched <==> Touches(w, old(repo.ledger.Keys), rel)
    ensures ignoreChanged <==> Moved(t, w, rel, old(repo.At(rel)))
  {
    hide FileResult, WorldOk, InStep, Under, Unsettled, FileChanges;
    unsure, touched, ignoreChanged := {}, false, false;
    forall p ensures repo.At(p).entry.None? ==> repo.At(p) == EMPTY { NoEntry(t, p, repo.At(p)); }
    if LeftOut(w, rel) {
      touched := rel in repo.ledger || exists k :: k in repo.ledger && Under(k, rel);
      if touched { var n := RemovePathAndChildren(t, repo, rel, true); }
      return;
    }
    var kind := Probe(w, rel);
    touched := kind != Unknown;
    var known := rel in repo.ledger;
    if kind == Gone || (kind == FolderKind && w.dirIgnored(rel)) {
      ignoreChanged := kind == Gone && w.isIgnoreFile(rel) && known;
      var n := RemovePathAndChildren(t, repo, rel, true);
    } else if kind == FolderKind {
      unsure := ApplyFolder(t, w, repo, rel);
    } else if kind == FileKind {
      FileThere(w, rel);
      var changed := ApplyFile(t, w, repo, rel, false);
      ignoreChanged := changed && w.isIgnoreFile(rel);
    } else {
      unsure := {rel};
    }
  }

  lemma FileThere(w: World, rel: string)
    requires WorldOk(w) && Probe(w, rel) == FileKind
    ensures rel in w.tree && w.tree[rel].File? && w.tree[rel].found.rel == rel
  {}

  ghost predicate Covered(w: World, batch: seq<string>, p: string) { exists rel <- batch :: Settles(w, rel, p) }

  /** After some of a batch: what it covers is right, what was right still is, and the rest is untouched. */
  ghost predicate Midway(t: Tools, w: World, batch: seq<string>, was: string -> Kept, now: string -> Kept) {
    forall p ::
      && InStep(t, p, now(p))
      && (!Covered(w, batch, p) ==> now(p) == was(p))
      && (Answers(w) && (Right(t, w, p, was(p)) || Covered(w, batch, p)) ==> Right(t, w, p, now(p)))
  }

  lemma MidwayMore(t: Tools, w: World, batch: seq<string>, rel: string, was: string -> Kept, mid: string -> Kept,
                   now: string -> Kept)
    requires ToolsOk(t) && WorldOk(w) && Midway(t, w, batch, was, mid)
    requires forall p :: now(p) == StepOf(t, w, rel, p, mid(p))
    ensures Midway(t, w, batch + [rel], was, now)
  {
    hide InStep, Settles, Right, WorldOk, Answers;
    forall p ensures
        && InStep(t, p, now(p))
        && (!Covered(w, batch + [rel], p) ==> now(p) == was(p))
        && (Answers(w) && (Right(t, w, p, was(p)) || Covered(w, batch + [rel], p)) ==> Right(t, w, p, now(p)))
    {
      assert Midway(t, w, batch, was, mid) ==> InStep(t, p, mid(p));
      StepKept(t, w, rel, p, mid(p));
      CoveredMore(w, batch, rel, p);
    }
  }

  lemma CoveredMore(w: World, batch: seq<string>, rel: string, p: string)
    ensures Covered(w, batch + [rel], p) <==> Covered(w, batch, p) || Settles(w, rel, p)
  {
    hide Settles;
    assert forall r :: r in batch + [rel] <==> r in batch || r == rel;
  }

  /** A path named like an ignored file type, that the ledger holds nothing at or under and that is no folder. */
  predicate Irrelevant(w: World, ledger: set<string>, rel: string) {
    && w.ignoredType(rel) && rel !in ledger && (forall k <- ledger :: !Under(k, rel)) && Probe(w, rel) != FolderKind
  }

  lemma IrrelevantIsRight(t: Tools, w: World, ledger: set<string>, rel: string, p: string, s: Kept)
    requires WorldOk(w) && Answers(w) && Irrelevant(w, ledger, rel) && Settles(w, rel, p)
    requires InStep(t, p, s) && (p in ledger <==> s.entry.Some?)
    ensures Right(t, w, p, s)
  {
    NoEntry(t, p, s);
    assert p == rel || Under(p, rel);
  }

  predicate InFolder(p: string, dir: string) { dir == "" || Under(p, dir) }

  /** Drops what the ignore files leave out by now under the folders where one changed. */
  method ReJudge(t: Tools, w: World, repo: Repo, changed: set<string>)
    requires repo.Valid(t)
    modifies repo
    ensures repo.Valid(t)
    ensures forall p :: repo.At(p) ==
              if w.fileIgnored(p) && exists c <- changed :: InFolder(p, IgnoreFiles.Parent(c)) then EMPTY
              else old(repo.At(p))
  {
    hide InStep, Under;
    forall p ensures repo.At(p).entry.None? ==> repo.At(p) == EMPTY { NoEntry(t, p, repo.At(p)); }
    NothingInStep(t);
    var todo := set k <- repo.ledger | w.fileIgnored(k) && exists c <- changed :: InFolder(k, IgnoreFiles.Parent(c));
    RemovePaths(repo, todo);
  }

  lemma MidwayStart(t: Tools, w: World, was: string -> Kept)
    requires forall p :: InStep(t, p, was(p))
    ensures Midway(t, w, [], was, was)
  {
    hide InStep, Right, Settles;
  }

  lemma MidwayInStep(t: Tools, w: World, batch: seq<string>, was: string -> Kept, now: string -> Kept)
    requires Midway(t, w, batch, was, now)
    ensures forall p :: InStep(t, p, now(p))
    ensures forall p :: !Covered(w, batch, p) ==> now(p) == was(p)
  {
    hide InStep, Covered, Right;
  }

  /** Whom a path leaves unsure is told from that path's own entry. */
  lemma UnsureIs(w: World, ledger: set<string>, other: set<string>, rel: string, p: string)
    requires p in UnsureOf(w, ledger, rel)
    ensures Probe(w, p) == Unknown
    ensures p in other || p !in ledger ==> p in UnsureOf(w, other, rel)
  {
    hide Probe, LeftOut, Under;
  }

  lemma UnsureListed(w: World, ledger: set<string>, rel: string, p: string)
    requires p in UnsureOf(w, ledger, rel)
    ensures p == rel || p in ledger
  {
    hide Probe, LeftOut, Under;
  }

  /** A path that the name rules leave out never comes into the ledger. */
  lemma StaysOut(t: Tools, w: World, rel: string, p: string, s: Kept)
    requires WorldOk(w) && w.rules(p) && s.entry.None?
    ensures StepOf(t, w, rel, p, s).entry.None?
  {
    hide Applied;
  }

  lemma CoveredPrefix(w: World, batch: seq<string>, i: nat, p: string)
    requires i <= |batch| && Covered(w, batch[..i], p)
    ensures Covered(w, batch, p)
  {
    hide Settles;
  }

  /** Those a batch leaves unsure: what the disk did not answer for, and nothing else. */
  ghost predicate UnsureOk(w: World, batch: seq<string>, n: nat, ledger: set<string>, unsure: set<string>)
    requires n <= |batch|
  {
    && (forall p <- unsure :: Probe(w, p) == Unknown && (p in batch[..n] || p in ledger || !w.rules(p)))
    && (forall j :: 0 <= j < n && Probe(w, batch[j]) == Unknown && !LeftOut(w, batch[j]) ==> batch[j] in unsure)
    && (forall j, p :: 0 <= j < n && !Covered(w, batch, p) && p in UnsureOf(w, ledger, batch[j]) ==> p in unsure)
  }

  lemma UnsureMore(w: World, batch: seq<string>, n: nat, ledger: set<string>, now: set<string>, unsure: set<string>)
    requires n < |batch| && UnsureOk(w, batch, n, ledger, unsure)
    requires forall p :: !Covered(w, batch[..n], p) ==> (p in ledger <==> p in now)
    requires forall p :: w.rules(p) && p in now ==> p in ledger
    ensures UnsureOk(w, batch, n + 1, ledger, unsure + UnsureOf(w, now, batch[n]))
  {
    hide Probe, LeftOut, Covered;
    var more := UnsureOf(w, now, batch[n]);
    forall p <- more ensures Probe(w, p) == Unknown && (p in batch[..n + 1] || p in ledger || !w.rules(p)) {
      UnsureIs(w, now, now, batch[n], p);
      UnsureListed(w, now, batch[n], p);
      assert batch[n] in batch[..n + 1];
    }
    assert forall p <- batch[..n] :: p in batch[..n + 1];
    forall p | !Covered(w, batch, p) && p in UnsureOf(w, ledger, batch[n]) ensures p in more {
      if Covered(w, batch[..n], p) { CoveredPrefix(w, batch, n, p); }
      UnsureIs(w, ledger, now, batch[n], p);
    }
  }

  lemma OnTheWay(t: Tools, w: World, batch: seq<string>, i: nat, was: string -> Kept, mid: string -> Kept,
                 ledger: set<string>, now: set<string>, unsure: set<string>)
    requires WorldOk(w) && i < |batch| && UnsureOk(w, batch, i, ledger, unsure) && Midway(t, w, batch[..i], was, mid)
    requires forall p :: p in ledger <==> was(p).entry.Some?
    requires forall p :: p in now <==> mid(p).entry.Some?
    requires forall p :: w.rules(p) && mid(p).entry.Some? ==> was(p).entry.Some?
    ensures UnsureOk(w, batch, i + 1, ledger, unsure + UnsureOf(w, now, batch[i]))
    ensures forall p :: w.rules(p) && mid(p).entry.None? ==> StepOf(t, w, batch[i], p, mid(p)).entry.None?
  {
    hide WorldOk, StepOf, UnsureOk, UnsureOf, Covered, Right, InStep;
    forall p | !Covered(w, batch[..i], p) ensures p in ledger <==> p in now { assert mid(p) == was(p); }
    UnsureMore(w, batch, i, ledger, now, unsure);
    forall p | w.rules(p) && mid(p).entry.None? ensures StepOf(t, w, batch[i], p, mid(p)).entry.None? {
      StaysOut(t, w, batch[i], p, mid(p));
    }
  }

  /** What the first paths of a batch leave for a path. */
  ghost function Through(t: Tools, w: World, batch: seq<string>, n: nat, p: string, s: Kept): Kept
    requires WorldOk(w) && n <= |batch|
  {
    if n == 0 then s else StepOf(t, w, batch[n - 1], p, Through(t, w, batch, n - 1, p, s))
  }

  /** The path at this place of a batch changes an ignore file. */
  ghost predicate MovedAt(t: Tools, w: World, batch: seq<string>, i: nat, was: string -> Kept)
    requires WorldOk(w) && i < |batch|
  {
    Moved(t, w, batch[i], Through(t, w, batch, i, batch[i], was(batch[i])))
  }

  /** These are the ignore files that the first paths of a batch change. */
  ghost predicate MovedAre(t: Tools, w: World, batch: seq<string>, n: nat, was: string -> Kept, moved: set<string>)
    requires WorldOk(w) && n <= |batch|
  {
    forall c :: c in moved <==> exists i :: 0 <= i < n && batch[i] == c && MovedAt(t, w, batch, i, was)
  }

  lemma MovedMore(t: Tools, w: World, batch: seq<string>, n: nat, was: string -> Kept, moved: set<string>)
    requires WorldOk(w) && n < |batch| && MovedAre(t, w, batch, n, was, moved)
    ensures MovedAre(t, w, batch, n + 1, was, moved + if MovedAt(t, w, batch, n, was) then {batch[n]} else {})
  {
    hide WorldOk, MovedAt;
  }

  lemma NoneMoved(t: Tools, w: World, batch: seq<string>, was: string -> Kept)
    requires WorldOk(w)
    ensures MovedAre(t, w, batch, 0, was, {})
  {}

  ghost predicate AnyTouches(w: World, ledger: set<string>, batch: seq<string>, n: nat)
    requires n <= |batch|
  {
    exists i :: 0 <= i < n && Touches(w, ledger, batch[i])
  }

  lemma TouchesMore(w: World, ledger: set<string>, batch: seq<string>, n: nat)
    requires n < |batch|
    ensures AnyTouches(w, ledger, batch, n + 1) <==> AnyTouches(w, ledger, batch, n) || Touches(w, ledger, batch[n])
  {
    hide Touches;
  }

  lemma NoneTouches(w: World, ledger: set<string>, batch: seq<string>)
    ensures !AnyTouches(w, ledger, batch, 0)
  {}

  lemma LedgerIs(repo: Repo, was: string -> Kept, ledger: set<string>)
    requires (forall p :: p in ledger <==> was(p).entry.Some?) && forall p :: repo.At(p) == was(p)
    ensures repo.ledger.Keys == ledger
  {
    forall p ensures p in repo.ledger <==> p in ledger { assert p in repo.ledger <==> repo.At(p).entry.Some?; }
  }

  /** Applies the changed paths one by one. */
  method ApplyPaths(t: Tools, w: World, repo: Repo, batch: seq<string>)
    returns (unsure: set<string>, touched: bool, changed: set<string>)
    requires ToolsOk(t) && WorldOk(w) && repo.Valid(t)
    modifies repo
    ensures Midway(t, w, batch, old(All(repo)), All(repo))
    ensures forall p :: repo.At(p) == Through(t, w, batch, |batch|, p, old(repo.At(p)))
    ensures !touched ==> forall p :: repo.At(p) == old(repo.At(p))
    ensures touched <==> AnyTouches(w, old(repo.ledger.Keys), batch, |batch|)
    ensures MovedAre(t, w, batch, |batch|, old(All(repo)), changed)
    ensures UnsureOk(w, batch, |batch|, old(repo.ledger.Keys), unsure)
  {
    hide InStep, StepOf, Settles, Right, WorldOk, Answers, Under, LeftOut, Probe, UnsureOf, Covered, Midway, MovedAre,
         Moved, Touches, AnyTouches;
    unsure, touched, changed := {}, false, {};
    ghost var was, ledger := All(repo), repo.ledger.Keys;
    AllIsAt(repo);
    MidwayStart(t, w, was);
    NoneMoved(t, w, batch, was);
    NoneTouches(w, ledger, batch);
    assert batch[..0] == [];
    for i := 0 to |batch|
      invariant Midway(t, w, batch[..i], was, All(repo))
      invariant forall p :: repo.At(p) == Through(t, w, batch, i, p, was(p))
      invariant !touched ==> forall p :: repo.At(p) == was(p)
      invariant touched <==> AnyTouches(w, ledger, batch, i)
      invariant MovedAre(t, w, batch, i, was, changed)
      invariant UnsureOk(w, batch, i, ledger, unsure)
      invariant forall p :: w.rules(p) && repo.At(p).entry.Some? ==> was(p).entry.Some?
    {
      ghost var mid, now := All(repo), repo.ledger.Keys;
      AllIsAt(repo);
      MidwayInStep(t, w, batch[..i], was, mid);
      OnTheWay(t, w, batch, i, was, mid, ledger, now, unsure);
      MovedMore(t, w, batch, i, was, changed);
      TouchesMore(w, ledger, batch, i);
      if !touched { LedgerIs(repo, was, ledger); }
      var more, moved, ignoreChanged := ApplyPath(t, w, repo, batch[i]);
      AllIsAt(repo);
      MidwayMore(t, w, batch[..i], batch[i], was, mid, All(repo));
      assert batch[..i + 1] == batch[..i] + [batch[i]];
      unsure, touched := unsure + more, touched || moved;
      assert changed + {} == changed;
      if ignoreChanged { changed := changed + {batch[i]}; }
    }
    assert batch[..|batch|] == batch;
  }

  /** What the ignore files leave out is right to be dropped. */
  lemma ReJudged(t: Tools, w: World, batch: seq<string>, relevant: seq<string>, ledger: set<string>,
      was: string -> Kept, mid: string -> Kept, now: string -> Kept)
    requires WorldOk(w) && Midway(t, w, relevant, was, mid)
    requires forall rel <- relevant :: rel in batch
    requires forall rel <- batch :: rel in relevant || Irrelevant(w, ledger, rel)
    requires forall p :: InStep(t, p, was(p)) && (p in ledger <==> was(p).entry.Some?)
    requires forall p :: now(p) == mid(p) || (w.fileIgnored(p) && now(p) == EMPTY)
    ensures Answers(w) ==> forall p :: Right(t, w, p, was(p)) || Covered(w, batch, p) ==> Right(t, w, p, now(p))
    ensures (forall p :: now(p) == mid(p)) ==> forall p :: !Covered(w, batch, p) ==> now(p) == was(p)
  {
    hide InStep, WorldOk, Settles, Answers, Irrelevant;
    forall p | Answers(w) && (Right(t, w, p, was(p)) || Covered(w, batch, p)) ensures Right(t, w, p, now(p)) {
      if Covered(w, batch, p) && !Covered(w, relevant, p) {
        var rel :| rel in batch && Settles(w, rel, p);
        IrrelevantIsRight(t, w, ledger, rel, p, was(p));
      }
    }
  }

  /** The paths of a batch that are not passed over, each once. */
  function Relevant(w: World, ledger: set<string>, batch: seq<string>): (relevant: seq<string>)
    ensures forall rel <- relevant :: rel in batch && !Irrelevant(w, ledger, rel)
    ensures forall rel <- batch :: rel in relevant || Irrelevant(w, ledger, rel)
    ensures forall i, j :: 0 <= i < j < |relevant| ==> relevant[i] != relevant[j]
  {
    if batch == [] then []
    else
      var last := |batch| - 1;
      var before := Relevant(w, ledger, batch[..last]);
      assert batch == batch[..last] + [batch[last]];
      if batch[last] in before || Irrelevant(w, ledger, batch[last]) then before else before + [batch[last]]
  }

  method PassOver(w: World, ledger: set<string>, batch: seq<string>) returns (relevant: seq<string>)
    ensures relevant == Relevant(w, ledger, batch)
  {
    hide Irrelevant;
    relevant := [];
    assert batch[..0] == [];
    for i := 0 to |batch|
      invariant relevant == Relevant(w, ledger, batch[..i])
    {
      assert batch[..i + 1][..i] == batch[..i];
      if batch[i] !in relevant && !Irrelevant(w, ledger, batch[i]) { relevant := relevant + [batch[i]]; }
    }
    assert batch[..|batch|] == batch;
  }

  /** A path of the batch changes an ignore file that is in a folder above the path. */
  ghost predicate MovedAbove(t: Tools, w: World, batch: seq<string>, was: string -> Kept, p: string)
    requires WorldOk(w)
  {
    exists i :: 0 <= i < |batch| && MovedAt(t, w, batch, i, was) && InFolder(p, IgnoreFiles.Parent(batch[i]))
  }

  lemma MovedTouches(t: Tools, w: World, ledger: set<string>, batch: seq<string>, was: string -> Kept)
    requires WorldOk(w) && exists i :: 0 <= i < |batch| && MovedAt(t, w, batch, i, was)
    ensures AnyTouches(w, ledger, batch, |batch|)
  {
    hide WorldOk, LeftOut, Through;
    var i :| 0 <= i < |batch| && MovedAt(t, w, batch, i, was);
    assert Touches(w, ledger, batch[i]);
  }

  lemma MovedAreAbove(t: Tools, w: World, batch: seq<string>, was: string -> Kept, moved: set<string>)
    requires WorldOk(w) && MovedAre(t, w, batch, |batch|, was, moved)
    ensures moved != {} <==> exists i :: 0 <= i < |batch| && MovedAt(t, w, batch, i, was)
    ensures forall p :: MovedAbove(t, w, batch, was, p) <==> exists c <- moved :: InFolder(p, IgnoreFiles.Parent(c))
  {
    hide WorldOk, MovedAt, InFolder;
    forall i | 0 <= i < |batch| && MovedAt(t, w, batch, i, was) ensures batch[i] in moved {}
  }

  /** Applies a batch of changed paths. Where the disk answers, everything the batch covers is then as a full build
      would leave it, what was right stays so, and what it does not cover is untouched: so the whole index is right
      exactly when each path that was wrong was covered. */
  method ApplyChanges(t: Tools, w: World, repo: Repo, batch: seq<string>)
    returns (unsure: set<string>, touched: bool, ignoreFilesChanged: bool)
    requires ToolsOk(t) && WorldOk(w) && repo.Valid(t)
    modifies repo
    ensures repo.Valid(t)
    ensures Answers(w) ==>
            forall p :: Right(t, w, p, old(repo.At(p))) || Covered(w, batch, p) ==> Right(t, w, p, repo.At(p))
    ensures !ignoreFilesChanged ==> forall p :: !Covered(w, batch, p) ==> repo.At(p) == old(repo.At(p))
    ensures Answers(w) && !ignoreFilesChanged ==>
              ((forall p :: Right(t, w, p, repo.At(p))) <==>
               (forall p :: Right(t, w, p, old(repo.At(p))) || Covered(w, batch, p)))
    ensures !touched ==> forall p :: repo.At(p) == old(repo.At(p))
    ensures forall p <- unsure :: Probe(w, p) == Unknown
    ensures forall rel <- batch :: Probe(w, rel) == Unknown && !LeftOut(w, rel) ==>
              (rel in unsure <==> !Irrelevant(w, old(repo.ledger.Keys), rel))
    ensures forall p :: Probe(w, p) == Unknown && !w.fileIgnored(p) && !FoundByWalk(w, batch, p) ==>
            repo.At(p) == old(repo.At(p))
    ensures w.network && !w.rootAnswers ==>
              forall p :: p !in w.tree && !w.fileIgnored(p) ==> repo.At(p) == old(repo.At(p))
    ensures forall rel <- batch, p <- UnsureOf(w, old(repo.ledger.Keys), rel) ::
              !Irrelevant(w, old(repo.ledger.Keys), rel) && !Covered(w, batch, p) ==> p in unsure
    ensures var relevant := Relevant(w, old(repo.ledger.Keys), batch);
            && (touched <==> AnyTouches(w, old(repo.ledger.Keys), relevant, |relevant|))
            && (ignoreFilesChanged <==> exists i :: 0 <= i < |relevant| && MovedAt(t, w, relevant, i, old(All(repo))))
            && forall p :: repo.At(p) ==
                 if w.fileIgnored(p) && MovedAbove(t, w, relevant, old(All(repo)), p) then EMPTY
                 else Through(t, w, relevant, |relevant|, p, old(repo.At(p)))
  {
    hide InStep, Settles, Right, WorldOk, Answers, Under, LeftOut, Probe, UnsureOf, Covered, Midway, Irrelevant,
         FoundByWalk, MovedAt, Through, AnyTouches, MovedAre, MovedAbove, Relevant, UnsureOk;
    ghost var was, ledger := All(repo), repo.ledger.Keys;
    AllIsAt(repo);
    var relevant := PassOver(w, repo.ledger.Keys, batch);
    var changed;
    unsure, touched, changed := ApplyPaths(t, w, repo, relevant);
    ghost var mid := All(repo);
    AllIsAt(repo);
    MidwayInStep(t, w, relevant, was, mid);
    forall p | Probe(w, p) == Unknown && !w.fileIgnored(p) && !FoundByWalk(w, batch, p) ensures mid(p) == was(p) {
      UnknownUntouched(w, batch, relevant, p);
    }
    ignoreFilesChanged := changed != {};
    MovedAreAbove(t, w, relevant, was, changed);
    if changed != {} { MovedTouches(t, w, ledger, relevant, was); }
    if ignoreFilesChanged { ReJudge(t, w, repo, changed); }
    AllIsAt(repo);
    ReJudged(t, w, batch, relevant, ledger, was, mid, All(repo));
    MissingIsUnknown(w, batch);
    InUnsure(w, batch, relevant, ledger, unsure);
  }

  lemma InUnsure(w: World, batch: seq<string>, relevant: seq<string>, ledger: set<string>, unsure: set<string>)
    requires UnsureOk(w, relevant, |relevant|, ledger, unsure)
    requires forall rel <- relevant :: rel in batch
    requires forall rel <- batch :: rel in relevant || Irrelevant(w, ledger, rel)
    requires WorldOk(w) && forall rel <- relevant :: !Irrelevant(w, ledger, rel)
    ensures forall p <- unsure :: Probe(w, p) == Unknown
    ensures forall rel <- batch, p <- UnsureOf(w, ledger, rel) ::
              !Irrelevant(w, ledger, rel) && !Covered(w, batch, p) ==> p in unsure
    ensures forall rel <- batch :: Probe(w, rel) == Unknown && !LeftOut(w, rel) ==>
              (rel in unsure <==> !Irrelevant(w, ledger, rel))
  {
    forall rel | Irrelevant(w, ledger, rel) ensures rel !in ledger && w.rules(rel) { IrrelevantIsOut(w, ledger, rel); }
    hide Probe, LeftOut, Irrelevant, UnsureOf, Settles, WorldOk;
    assert relevant[..|relevant|] == relevant;
  }

  lemma IrrelevantIsOut(w: World, ledger: set<string>, rel: string)
    requires WorldOk(w) && Irrelevant(w, ledger, rel)
    ensures rel !in ledger && w.rules(rel)
  {}

  /** Did a walk of one of the folders find the path? */
  ghost predicate FoundByWalk(w: World, batch: seq<string>, p: string) { exists rel <- batch :: p in w.walk(rel).files }

  /** A path that the disk did not answer for is settled by nothing but an ignore file, or a walk that found it. */
  lemma UnknownUnsettled(w: World, rel: string, p: string)
    requires WorldOk(w) && Probe(w, p) == Unknown && !w.fileIgnored(p) && p !in w.walk(rel).files
    ensures !Settles(w, rel, p)
  {
    if Under(p, rel) && Probe(w, rel) == Gone { GoneBelow(w, rel, p); }
  }

  /** While the root of a share does not answer, what is missing there is not known to be gone. */
  lemma MissingIsUnknown(w: World, batch: seq<string>)
    requires WorldOk(w)
    ensures w.network && !w.rootAnswers ==>
              forall p :: p !in w.tree ==> Probe(w, p) == Unknown && !FoundByWalk(w, batch, p)
  {}

  lemma UnknownUntouched(w: World, batch: seq<string>, relevant: seq<string>, p: string)
    requires WorldOk(w) && Probe(w, p) == Unknown && !w.fileIgnored(p) && !FoundByWalk(w, batch, p)
    requires forall rel <- relevant :: rel in batch
    ensures !Covered(w, relevant, p)
  {
    forall rel <- relevant ensures !Settles(w, rel, p) { UnknownUnsettled(w, rel, p); }
    hide Settles;
  }

  /** The walk of a folder is complete: it finds just the files that are wanted. */
  ghost predicate WalksWell(w: World, rel: string) {
    w.walk(rel).dropped == 0 && forall p :: p in w.walk(rel).files <==> Under(p, rel) && Wanted(w, p)
  }

  /** What a changed path does not bring to where a build would: its own entry as a file, where it is a folder now;
      the entries under it, where it is a file now; and an unwanted file under a folder - a link, over the size cap,
      left out by a name rule - that no ignore file leaves out. */
  predicate Missed(w: World, rel: string, p: string) {
    && !LeftOut(w, rel)
    && match Probe(w, rel)
       case FolderKind =>
         !w.dirIgnored(rel) && (p == rel || (p in w.tree && w.tree[p].File? && !Wanted(w, p) && !w.fileIgnored(p)))
       case FileKind => p != rel
       case _ => false
  }

  /** Where the disk answers, a changed path settles itself and what is under it, but for what it misses. */
  lemma SettlesAllBut(w: World, rel: string, p: string)
    requires WorldOk(w) && Answers(w) && WalksWell(w, rel)
    ensures Settles(w, rel, p) <==> (p == rel || Under(p, rel)) && !Missed(w, rel, p)
  {
    assert !Under(rel, rel);
    if Under(p, rel) && Probe(w, rel) == FolderKind { assert Probe(w, p) != Unknown; }
  }

  /** Where the disk answers and walks are complete, a batch covers the paths that are in it, or under a folder in it,
      that some path of the batch does not miss - and no other. */
  lemma BatchCovers(w: World, batch: seq<string>, p: string)
    requires WorldOk(w) && Answers(w) && forall rel <- batch :: WalksWell(w, rel)
    ensures Covered(w, batch, p) <==> exists rel <- batch :: (p == rel || Under(p, rel)) && !Missed(w, rel, p)
  {
    forall rel <- batch ensures Settles(w, rel, p) <==> (p == rel || Under(p, rel)) && !Missed(w, rel, p) {
      SettlesAllBut(w, rel, p);
    }
    hide Settles, Missed, Under, WorldOk, Answers, WalksWell;
  }

  /** A file on a share that does not answer for it, of an ignored type and of no ledger entry, is not asked about
      again. */
  lemma PassedOver() returns (w: World, rel: string)
    ensures WorldOk(w) && Probe(w, rel) == Unknown && !LeftOut(w, rel) && Irrelevant(w, {}, rel)
  {
    rel := "a";
    w := World.World(map[], {rel}, true, true, p => p == "a", p => p == "a", _ => false, _ => false, _ => false,
               _ => Listing({}, 0), 1, Place(true, false), 0);
    forall d ensures !Under(rel, d) { assert (d + "/")[|d|] == '/'; }
  }

  /** A path that was a file and is a folder by now keeps its old entry, if nothing but itself is in the batch. */
  lemma SwitchMissed(w: World, rel: string)
    requires Probe(w, rel) == FolderKind && !w.dirIgnored(rel)
    ensures !Covered(w, [rel], rel)
  {
    assert !Under(rel, rel);
  }

  // ---- a tree for each case that a batch misses ----

  const IN_FOLDER := "d/x.cs"

  /** A local tree, where nothing is left out, and no file is wanted under "d". */
  function Local(tree: map<string, Node>): World {
    World.World(tree, {}, false, true, _ => false, _ => false, _ => false, _ => false, _ => false,
                _ => Listing({}, 0), 1, Place(false, false), 0)
  }

  function FileNode(rel: string, size: nat): Node {
    File(FileOf(rel, seq(size, _ => 0x61)), true, false)
  }

  /** What was a file is a folder; what was a folder is a file; and a file in a folder has grown over the size cap. */
  function NowFolder(): World { Local(map["d" := Folder]) }

  function NowFile(): World { Local(map["d" := FileNode("d", 1)]) }

  function NowBig(): World { Local(map["d" := Folder, IN_FOLDER := FileNode(IN_FOLDER, 2)]) }

  lemma JustInD(p: string, d: string)
    requires Under(p, d) && (p == "d" || p == IN_FOLDER)
    ensures d == "d" && p == IN_FOLDER
  {
    assert p[|d|] == (d + "/")[|d|] == '/' && p[..|d|] == (d + "/")[..|d|] == d;
    assert forall k | 0 <= k < |IN_FOLDER| :: IN_FOLDER[k] == '/' ==> k == 1;
  }

  ghost predicate InOrder(w: World) { WorldOk(w) && Answers(w) && WalksWell(w, "d") }

  // In each of them, "d" alone is in the batch, and a path is missed.

  lemma FolderMisses()
    ensures InOrder(NowFolder()) && Missed(NowFolder(), "d", "d") && !Wanted(NowFolder(), "d")
  {
    forall d | Under("d", d) ensures false { JustInD("d", d); }
  }

  lemma FileMisses()
    ensures InOrder(NowFile()) && Missed(NowFile(), "d", IN_FOLDER) && !Wanted(NowFile(), IN_FOLDER)
  {
    forall d | Under("d", d) ensures false { JustInD("d", d); }
  }

  lemma BigMisses()
    ensures InOrder(NowBig()) && Missed(NowBig(), "d", IN_FOLDER) && !Wanted(NowBig(), IN_FOLDER)
  {
    forall d | Under("d", d) ensures false { JustInD("d", d); }
    forall d | Under(IN_FOLDER, d) ensures d == "d" { JustInD(IN_FOLDER, d); }
  }

  /** An index that holds a file which is not to be held any more, after a batch that does not cover it. */
  method KeptWrong(t: Tools, text: Bytes, w: World, rel: string, p: string) returns (repo: Repo)
    requires ToolsOk(t) && WorldOk(w) && !Wanted(w, p) && !Covered(w, [rel], p) && !w.isIgnoreFile(rel)
    ensures fresh(repo) && repo.At(p).entry.Some? && !Right(t, w, p, repo.At(p))
  {
    hide Shows, InStep, WorldOk, Settles;
    var f := FileOf(p, text);
    repo := Build(t, Walk([f], 0), w.place.network);
    ghost var before := repo.At(p);
    assert before.entry.Some? by { HasEntry(t, p, before, text); }
    var unsure, touched, ignoreFiles := ApplyChanges(t, w, repo, [rel]);
    assert repo.At(p) == before;
  }

  lemma HasEntry(t: Tools, p: string, s: Kept, text: Bytes)
    requires Shows(t, p, s, text)
    ensures s.entry.Some?
  {}

  /** So each index is left wrong: with the entry of a file that is a folder now; of one that was in a folder, and
      there is a file in the folder's place; and of one that is there, but over the cap. */
  method EachLeftWrong(t: Tools, text: Bytes) returns (folder: Repo, file: Repo, big: Repo)
    requires ToolsOk(t)
    ensures !Right(t, NowFolder(), "d", folder.At("d"))
    ensures !Right(t, NowFile(), IN_FOLDER, file.At(IN_FOLDER))
    ensures !Right(t, NowBig(), IN_FOLDER, big.At(IN_FOLDER))
  {
    FolderMisses();
    FileMisses();
    BigMisses();
    BatchCovers(NowFolder(), ["d"], "d");
    BatchCovers(NowFile(), ["d"], IN_FOLDER);
    BatchCovers(NowBig(), ["d"], IN_FOLDER);
    hide WorldOk, Answers, WalksWell, Covered, Wanted, Missed, Right;
    folder := KeptWrong(t, text, NowFolder(), "d", "d");
    file := KeptWrong(t, text, NowFile(), "d", IN_FOLDER);
    big := KeptWrong(t, text, NowBig(), "d", IN_FOLDER);
  }

  // ---- an ignore file that changes ----

  lemma {:induction false} ThroughOthers(t: Tools, w: World, batch: seq<string>, i: nat, n: nat, p: string, s: Kept)
    requires WorldOk(w) && i < |batch| && n <= |batch|
    requires forall j :: 0 <= j < |batch| && j != i ==> !Settles(w, batch[j], p)
    ensures Through(t, w, batch, n, p, s) == if n <= i then s else StepOf(t, w, batch[i], p, s)
  {
    hide WorldOk, Settles;
    if n > 0 { ThroughOthers(t, w, batch, i, n - 1, p, s); }
  }

  /** A path of the batch that no other path of it settles changes an ignore file exactly if it is one, not left out,
      and is gone with its entry, or there with another document than before the batch, or there and turned down with
      its entry. */
  lemma MovedAlone(t: Tools, w: World, batch: seq<string>, i: nat, was: string -> Kept)
    requires WorldOk(w) && i < |batch|
    requires forall j :: 0 <= j < |batch| && j != i ==> !Settles(w, batch[j], batch[i])
    ensures var rel, s := batch[i], was(batch[i]);
            MovedAt(t, w, batch, i, was) <==>
              && w.isIgnoreFile(rel) && !LeftOut(w, rel)
              && match Probe(w, rel)
                 case Gone => s.entry.Some?
                 case FileKind =>
                   || Through(t, w, batch, |batch|, rel, s).parts.doc != s.parts.doc
                   || (s.entry.Some? && TurnedDown(w, rel, false))
                 case _ => false
  {
    hide WorldOk, Applied;
    ThroughOthers(t, w, batch, i, i, batch[i], was(batch[i]));
    ThroughOthers(t, w, batch, i, |batch|, batch[i], was(batch[i]));
    hide LeftOut, FileResult, TurnedDown;
  }

  /** Of these trees' root files, "debug.log" is ignored by now: ".gitignore" has just been made. */
  function NewPattern(): World {
    Local(map[".gitignore" := FileNode(".gitignore", 1), "debug.log" := FileNode("debug.log", 1)])
    .(fileIgnored := p => p == "debug.log", isIgnoreFile := p => p == ".gitignore")
  }

  lemma NewPatternOk()
    ensures WorldOk(NewPattern())
  {
    forall d ensures !Under(".gitignore", d) && !Under("debug.log", d) { assert '/' in d + "/"; }
    hide FileOf;
  }

  const NEW_FILE := [".gitignore"]

  lemma PatternMoves(t: Tools, was: string -> Kept)
    requires WorldOk(NewPattern()) && !Binary(t, seq(1, _ => 0x61)) && was(".gitignore") == EMPTY
    ensures MovedAt(t, NewPattern(), NEW_FILE, 0, was)
    ensures MovedAbove(t, NewPattern(), NEW_FILE, was, "debug.log") && NewPattern().fileIgnored("debug.log")
  {
    hide Binary, Rec, WorldOk;
    var w := NewPattern();
    var f := w.tree[".gitignore"].found;
    assert Applied(t, f, w.place, w.recordedBy, EMPTY).parts.doc == f.read;
    assert Through(t, w, NEW_FILE, 0, ".gitignore", was(".gitignore")) == EMPTY;
    assert IgnoreFiles.Parent(".gitignore") == "" by { IgnoreFiles.NoSlashNoParent(".gitignore"); }
  }

  lemma PatternRelevant(ledger: set<string>)
    ensures Relevant(NewPattern(), ledger, NEW_FILE) == NEW_FILE
  {
    assert NEW_FILE[..0] == [];
  }

  /** The batch names the new ignore file alone: it is reported, and what it leaves out is dropped. */
  method NewPatternDrops(t: Tools, text: Bytes) returns (repo: Repo, before: Kept, ignoreFilesChanged: bool)
    requires ToolsOk(t) && !Binary(t, seq(1, _ => 0x61))
    ensures before.entry.Some? && repo.At("debug.log") == EMPTY && ignoreFilesChanged
  {
    hide Shows, InStep, Settles, Binary, Irrelevant, Applied, NewPattern, WorldOk, MovedAt, MovedAbove, Relevant, Right,
         Answers, Covered;
    var f := FileOf("debug.log", text);
    repo := Build(t, Walk([f], 0), false);
    before := repo.At("debug.log");
    HasEntry(t, "debug.log", before, text);
    NewPatternOk();
    AllIsAt(repo);
    assert repo.At(".gitignore") == EMPTY;
    PatternMoves(t, All(repo));
    PatternRelevant(repo.ledger.Keys);
    var unsure, touched;
    unsure, touched, ignoreFilesChanged := ApplyChanges(t, NewPattern(), repo, NEW_FILE);
  }

  /** An index that is right about every path shows the files of the tree, as a build from a walk of it does. */
  lemma RightIsFresh(t: Tools, w: World, repo: Repo, files: seq<Found>)
    requires WorldOk(w) && forall p :: Right(t, w, p, repo.At(p))
    requires forall f <- files :: Wanted(w, f.rel) && w.tree[f.rel].found == f
    requires forall p :: Wanted(w, p) ==> w.tree[p].found in files
    ensures Fresh(t, repo, files)
  {
    hide Shows;
    forall f <- files ensures f.read.Some? && Shows(t, f.rel, repo.At(f.rel), f.read.value) {
      assert Right(t, w, f.rel, repo.At(f.rel));
    }
    forall p | Wanted(w, p) ensures p in Rels(files) { assert w.tree[p].found.rel == p; }
    forall p | p !in Rels(files) ensures repo.At(p) == EMPTY { assert Right(t, w, p, repo.At(p)); }
  }
}

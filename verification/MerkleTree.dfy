/** A tree over a snapshot, with a hash for every folder that is taken of its entries: two trees are compared by their
    hashes first, and walked only where these differ. */
module MerkleTree {
  import opened Common
  import opened Ordinal
  import opened PathParts
  import opened MerkleText


  datatype Node = Node(dirs: map<string, Node>, files: map<string, string>, hash: string)

  const EMPTY := Node(map[], map[], "")

  type Hasher = string -> string

  /** No two texts share a hash; a hash holds neither colon nor newline. */
  ghost predicate HasherOk(h: Hasher) {
    (forall s, t :: h(s) == h(t) ==> s == t) && forall s :: ':' !in h(s) && '\n' !in h(s)
  }

  /** The hash of a file in the tree. */
  function Lookup(n: Node, k: Parts): Option<string>
    decreases k
  {
    if k == [] then None
    else if |k| == 1 then Get(n.files, k[0])
    else if k[0] in n.dirs then Lookup(n.dirs[k[0]], k[1..])
    else None
  }

  // ---- building ----

  /** Puts a file into the tree, and the folders it lacks. */
  function Insert(n: Node, k: Parts, h: string): Node
    requires k != []
    decreases k
  {
    if |k| == 1 then n.(files := n.files[k[0] := h])
    else
      var child := if k[0] in n.dirs then n.dirs[k[0]] else EMPTY;
      n.(dirs := n.dirs[k[0] := Insert(child, k[1..], h)])
  }

  lemma {:induction false} InsertLookup(n: Node, k: Parts, h: string, other: Parts)
    requires k != []
    ensures Lookup(Insert(n, k, h), other) == if other == k then Some(h) else Lookup(n, other)
    decreases k
  {
    if |k| > 1 && |other| > 1 && k[0] == other[0] {
      var child := if k[0] in n.dirs then n.dirs[k[0]] else EMPTY;
      InsertLookup(child, k[1..], h, other[1..]);
      assert k == [k[0]] + k[1..] && other == [other[0]] + other[1..];
    } else if |k| == 1 && |other| == 1 {
      assert (k == other) == (k[0] == other[0]);
    }
  }

  // ---- hashing ----

  ghost function DirLines(dirs: map<string, Node>, names: seq<string>): seq<Line>
    requires forall name <- names :: name in dirs
  {
    seq(|names|, i requires 0 <= i < |names| => Line('D', names[i], dirs[names[i]].hash))
  }

  ghost function FileLines(files: map<string, string>, names: seq<string>): seq<Line>
    requires forall name <- names :: name in files
  {
    seq(|names|, i requires 0 <= i < |names| => Line('F', names[i], files[names[i]]))
  }

  lemma NamesIn<V>(m: map<string, V>)
    ensures forall name <- InOrder(m.Keys) :: name in m
  {
    InOrderIs(m.Keys);
  }

  /** The entries of a folder: its folders in order, then its files. */
  ghost function Lines(dirs: map<string, Node>, files: map<string, string>): seq<Line> {
    NamesIn(dirs);
    NamesIn(files);
    DirLines(dirs, InOrder(dirs.Keys)) + FileLines(files, InOrder(files.Keys))
  }

  /** Every folder's hash is that of its entries. */
  ghost predicate Hashed(h: Hasher, n: Node) {
    n.hash == h(RenderAll(Lines(n.dirs, n.files))) && forall name <- n.dirs :: Hashed(h, n.dirs[name])
  }

  /** The shape of a tree is that of another: the same files under the same folders. */
  ghost predicate SameShape(a: Node, b: Node) {
    a.files == b.files && a.dirs.Keys == b.dirs.Keys && forall name <- a.dirs :: SameShape(a.dirs[name], b.dirs[name])
  }

  lemma {:induction false} SameLookup(a: Node, b: Node, k: Parts)
    requires SameShape(a, b)
    ensures Lookup(a, k) == Lookup(b, k)
    decreases k
  {
    if |k| > 1 && k[0] in a.dirs { SameLookup(a.dirs[k[0]], b.dirs[k[0]], k[1..]); }
  }

  /** A folder's names, in order. */
  method Names<V>(m: map<string, V>) returns (names: seq<string>)
    ensures names == InOrder(m.Keys) && forall name <- names :: name in m
  {
    hide Less;
    names := Sorted(m.Keys);
    InOrderIs(m.Keys);
    forall p ensures p in names <==> p in m.Keys { assert p in (set q <- names) <==> p in m.Keys; }
    OrderedUnique(names, InOrder(m.Keys));
  }

  /** Some of a folder's folders, with their hashes. */
  ghost predicate HashedSome(h: Hasher, n: Node, dirs: map<string, Node>, names: seq<string>) {
    && (forall p :: p in dirs <==> p in names)
    && forall name <- dirs :: name in n.dirs && Hashed(h, dirs[name]) && SameShape(n.dirs[name], dirs[name])
  }

  lemma OneMoreDir(h: Hasher, n: Node, dirs: map<string, Node>, names: seq<string>, i: nat, child: Node)
    requires Ordered(names) && i < |names| && HashedSome(h, n, dirs, names[..i])
    requires names[i] in n.dirs && Hashed(h, child) && SameShape(n.dirs[names[i]], child)
    ensures var more := dirs[names[i] := child];
            && HashedSome(h, n, more, names[..i + 1])
            && RenderAll(DirLines(more, names[..i + 1])) ==
               RenderAll(DirLines(dirs, names[..i])) + Render(Line('D', names[i], child.hash))
  {
    hide Less, RenderAll, Hashed, SameShape;
    var more := dirs[names[i] := child];
    assert names[..i + 1] == names[..i] + [names[i]];
    forall j | 0 <= j < i ensures names[j] != names[i] { OrderedDistinctNames(names, j, i); }
    assert DirLines(more, names[..i + 1]) == DirLines(dirs, names[..i]) + [Line('D', names[i], child.hash)];
    RenderAppend(DirLines(dirs, names[..i]), Line('D', names[i], child.hash));
  }

  /** What the folders below come to, each with its hash, and their part of the text. */
  method HashDirs(h: Hasher, n: Node, names: seq<string>) returns (dirs: map<string, Node>, sb: string)
    requires names == InOrder(n.dirs.Keys) && forall name <- names :: name in n.dirs
    ensures HashedSome(h, n, dirs, names) && sb == RenderAll(DirLines(dirs, names))
    decreases n, 0
  {
    hide Hashed, SameShape, Less, RenderAll, InOrder, HashedSome;
    sb, dirs := "", map[];
    NoDirs(h, n);
    InOrderIs(n.dirs.Keys);
    assert names[..0] == [];
    for i := 0 to |names|
      invariant HashedSome(h, n, dirs, names[..i]) && (forall name <- names[..i] :: name in dirs)
      invariant sb == RenderAll(DirLines(dirs, names[..i]))
    {
      var child := ComputeHash(h, n.dirs[names[i]]);
      OneMoreDir(h, n, dirs, names, i, child);
      dirs := dirs[names[i] := child];
      SomeIn(h, n, dirs, names[..i + 1]);
      sb := sb + Render(Line('D', names[i], child.hash));
    }
    assert names[..|names|] == names;
  }

  lemma SomeIn(h: Hasher, n: Node, dirs: map<string, Node>, names: seq<string>)
    requires HashedSome(h, n, dirs, names)
    ensures forall name <- names :: name in dirs
  {
    hide Hashed, SameShape;
  }

  lemma NoDirs(h: Hasher, n: Node)
    ensures HashedSome(h, n, map[], []) && RenderAll(DirLines(map[], [])) == ""
  {}

  /** The text of a folder's files, after that of its folders. */
  method FilesText(files: map<string, string>, names: seq<string>, sb0: string, ghost before: seq<Line>)
      returns (sb: string)
    requires names == InOrder(files.Keys) && (forall name <- names :: name in files) && sb0 == RenderAll(before)
    ensures sb == RenderAll(before + FileLines(files, names))
  {
    hide Less, RenderAll, InOrder;
    sb := sb0;
    assert before + [] == before && FileLines(files, names[..0]) == [];
    for i := 0 to |names|
      invariant sb == RenderAll(before + FileLines(files, names[..i]))
    {
      var line := Line('F', names[i], files[names[i]]);
      assert before + FileLines(files, names[..i + 1]) == before + FileLines(files, names[..i]) + [line];
      RenderAppend(before + FileLines(files, names[..i]), line);
      sb := sb + Render(line);
    }
    assert names[..|names|] == names;
  }

  /** Fills in the hashes, of the folders below first. */
  method ComputeHash(h: Hasher, n: Node) returns (r: Node)
    ensures Hashed(h, r) && SameShape(n, r)
    decreases n, 1
  {
    hide Hashed, SameShape, Less, RenderAll, InOrder;
    InOrderIs(n.dirs.Keys);
    var names := Names(n.dirs);
    var files := Names(n.files);
    var dirs, sb := HashDirs(h, n, names);
    sb := FilesText(n.files, files, sb, DirLines(dirs, names));
    r := Node(dirs, n.files, h(sb));
    Filled(h, n, r);
  }

  lemma OrderedDistinctNames(names: seq<string>, i: nat, j: nat)
    requires Ordered(names) && i < j < |names|
    ensures names[i] != names[j]
  {
    LessIsStrict(names[i], names[j]);
  }

  lemma Filled(h: Hasher, n: Node, r: Node)
    requires r.files == n.files && r.dirs.Keys == n.dirs.Keys
    requires forall name <- r.dirs :: Hashed(h, r.dirs[name]) && SameShape(n.dirs[name], r.dirs[name])
    requires r.hash == h(RenderAll(Lines(r.dirs, r.files)))
    ensures Hashed(h, r) && SameShape(n, r)
  {}

  // ---- what a tree stands for ----

  ghost predicate CleanName(name: string) { name != "" && '/' !in name && '\n' !in name }

  ghost predicate CleanHash(hash: string) { ':' !in hash && '\n' !in hash }

  /** Names that are no more than names, and hashes that are hashes. */
  ghost predicate CleanTree(n: Node) {
    && (forall name <- n.dirs :: CleanName(name) && CleanTree(n.dirs[name]))
    && forall name <- n.files :: CleanName(name) && CleanHash(n.files[name])
  }

  ghost predicate CleanParts(k: Parts) { forall i :: 0 <= i < |k| ==> CleanName(k[i]) }

  /** Paths whose parts are names, and hashes that are hashes. */
  ghost predicate CleanSnapshot(snapshot: map<string, string>) {
    forall p <- snapshot :: CleanParts(Split(p)) && CleanHash(snapshot[p])
  }

  lemma {:induction false} InsertClean(n: Node, k: Parts, h: string)
    requires k != [] && CleanTree(n) && CleanParts(k) && CleanHash(h)
    ensures CleanTree(Insert(n, k, h))
    decreases k
  {
    hide CleanName, CleanHash;
    if |k| > 1 {
      var child := if k[0] in n.dirs then n.dirs[k[0]] else EMPTY;
      assert CleanTree(EMPTY);
      InsertClean(child, k[1..], h);
    }
  }

  lemma {:induction false} ShapeClean(a: Node, b: Node)
    requires SameShape(a, b) && CleanTree(a)
    ensures CleanTree(b)
    decreases a
  {
    hide CleanName, CleanHash;
    forall name <- b.dirs ensures CleanTree(b.dirs[name]) { ShapeClean(a.dirs[name], b.dirs[name]); }
  }

  /** The tree holds the paths of the snapshot, and nothing else. */
  ghost predicate Represents(n: Node, snapshot: map<string, string>) {
    forall k :: Lookup(n, k) == if k != [] && NoSlash(k) then Get(snapshot, Join(k)) else None
  }

  ghost predicate Partly(n: Node, snapshot: map<string, string>, todo: set<string>) {
    forall k :: Lookup(n, k) ==
      if k != [] && NoSlash(k) && Join(k) in snapshot && Join(k) !in todo then Some(snapshot[Join(k)]) else None
  }

  lemma OnePathMore(n: Node, snapshot: map<string, string>, todo: set<string>, p: string)
    requires Partly(n, snapshot, todo) && p in snapshot && p in todo
    ensures Partly(Insert(n, Split(p), snapshot[p]), snapshot, todo - {p})
  {
    hide Insert, Lookup, Split, Join, NoSlash;
    var parts := Split(p);
    SplitParts(p);
    JoinSplit(p);
    forall k ensures Lookup(Insert(n, parts, snapshot[p]), k) ==
        if k != [] && NoSlash(k) && Join(k) in snapshot && Join(k) !in todo - {p} then Some(snapshot[Join(k)]) else None
    {
      InsertLookup(n, parts, snapshot[p], k);
      if k != [] && NoSlash(k) && Join(k) == p { SplitJoin(k); }
    }
  }

  method Build(h: Hasher, snapshot: map<string, string>) returns (root: Node)
    ensures Hashed(h, root) && Represents(root, snapshot)
    ensures CleanSnapshot(snapshot) ==> CleanTree(root)
  {
    hide Hashed, SameShape, Insert, Partly, CleanTree, CleanParts, CleanHash;
    var n, todo := EMPTY, snapshot.Keys;
    NothingYet(snapshot);
    while todo != {}
      invariant todo <= snapshot.Keys && Partly(n, snapshot, todo)
      invariant CleanSnapshot(snapshot) ==> CleanTree(n)
      decreases |todo|
    {
      var p :| p in todo;
      OnePathMore(n, snapshot, todo, p);
      if CleanSnapshot(snapshot) { InsertClean(n, Split(p), snapshot[p]); }
      n, todo := Insert(n, Split(p), snapshot[p]), todo - {p};
    }
    root := ComputeHash(h, n);
    AllDone(n, root, snapshot);
    if CleanSnapshot(snapshot) { ShapeClean(n, root); }
  }

  lemma NothingYet(snapshot: map<string, string>)
    ensures Partly(EMPTY, snapshot, snapshot.Keys) && CleanTree(EMPTY)
  {}

  lemma AllDone(n: Node, root: Node, snapshot: map<string, string>)
    requires Partly(n, snapshot, {}) && SameShape(n, root)
    ensures Represents(root, snapshot)
  {
    hide Lookup, Join, NoSlash;
    forall k ensures Lookup(root, k) == Lookup(n, k) { SameLookup(n, root, k); }
  }

  // ---- equal hashes ----

  lemma LinesClean(h: Hasher, n: Node)
    requires HasherOk(h) && Hashed(h, n) && CleanTree(n)
    ensures AllClean(Lines(n.dirs, n.files))
  {
    hide InOrder, Less;
    NamesIn(n.dirs);
    NamesIn(n.files);
    var dirs, files := InOrder(n.dirs.Keys), InOrder(n.files.Keys);
    forall i | 0 <= i < |dirs| ensures Clean(DirLines(n.dirs, dirs)[i]) { assert dirs[i] in n.dirs; }
    forall i | 0 <= i < |files| ensures Clean(FileLines(n.files, files)[i]) { assert files[i] in n.files; }
  }

  lemma OneBoundary(s: seq<Line>, m: nat, n: nat)
    requires m <= |s| && n <= |s|
    requires forall i :: 0 <= i < |s| ==> (s[i].kind == 'D' <==> i < m)
    requires forall i :: 0 <= i < |s| ==> (s[i].kind == 'D' <==> i < n)
    ensures m == n
  {
    var k := if m < n then m else n;
    if k < |s| {
      var kind := s[k].kind;
    }
  }

  /** Where one folder's lines end in another's, told from their kinds. */
  lemma LinesSplit(a: seq<Line>, x: seq<Line>, b: seq<Line>, y: seq<Line>)
    requires a + x == b + y
    requires (forall l <- a :: l.kind == 'D') && forall l <- b :: l.kind == 'D'
    requires (forall l <- x :: l.kind == 'F') && forall l <- y :: l.kind == 'F'
    ensures a == b && x == y
  {
    var s, t := a + x, b + y;
    assert forall i :: 0 <= i < |s| ==> (s[i].kind == 'D' <==> i < |a|);
    assert forall i :: 0 <= i < |t| ==> (t[i].kind == 'D' <==> i < |b|);
    OneBoundary(s, |a|, |b|);
    assert a == s[..|a|] && b == s[..|b|] && x == s[|a|..] && y == s[|b|..];
  }

  lemma SameEntries(a: Node, b: Node)
    requires Lines(a.dirs, a.files) == Lines(b.dirs, b.files)
    ensures a.files == b.files && a.dirs.Keys == b.dirs.Keys
    ensures forall name <- a.dirs :: a.dirs[name].hash == b.dirs[name].hash
  {
    hide InOrder, Less;
    NamesIn(a.dirs);
    NamesIn(b.dirs);
    NamesIn(a.files);
    NamesIn(b.files);
    var da, db := InOrder(a.dirs.Keys), InOrder(b.dirs.Keys);
    var fa, fb := InOrder(a.files.Keys), InOrder(b.files.Keys);
    LinesSplit(DirLines(a.dirs, da), FileLines(a.files, fa), DirLines(b.dirs, db), FileLines(b.files, fb));
    SameDirs(a.dirs, da, b.dirs, db);
    SameFiles(a.files, fa, b.files, fb);
    InOrderIs(a.dirs.Keys);
    InOrderIs(b.dirs.Keys);
    InOrderIs(a.files.Keys);
    InOrderIs(b.files.Keys);
    assert forall name :: name in a.dirs <==> name in da;
    assert forall name :: name in b.dirs <==> name in db;
    assert forall name :: name in a.files <==> name in fa;
    assert forall name :: name in b.files <==> name in fb;
  }

  lemma SameDirs(a: map<string, Node>, da: seq<string>, b: map<string, Node>, db: seq<string>)
    requires (forall name <- da :: name in a) && (forall name <- db :: name in b) && DirLines(a, da) == DirLines(b, db)
    ensures da == db && forall name <- da :: a[name].hash == b[name].hash
  {
    assert |da| == |DirLines(a, da)| == |db|;
    forall i | 0 <= i < |da| ensures da[i] == db[i] && a[da[i]].hash == b[da[i]].hash {
      assert DirLines(a, da)[i] == DirLines(b, db)[i];
    }
  }

  lemma SameFiles(a: map<string, string>, fa: seq<string>, b: map<string, string>, fb: seq<string>)
    requires (forall name <- fa :: name in a) && (forall name <- fb :: name in b)
             && FileLines(a, fa) == FileLines(b, fb)
    ensures fa == fb && forall name <- fa :: a[name] == b[name]
  {
    assert |fa| == |FileLines(a, fa)| == |fb|;
    forall i | 0 <= i < |fa| ensures fa[i] == fb[i] && a[fa[i]] == b[fa[i]] {
      assert FileLines(a, fa)[i] == FileLines(b, fb)[i];
    }
  }

  /** Folders with the same hash are the same, all the way down. */
  lemma {:induction false} EqualHash(h: Hasher, a: Node, b: Node)
    requires HasherOk(h) && Hashed(h, a) && Hashed(h, b) && CleanTree(a) && CleanTree(b) && a.hash == b.hash
    ensures a == b
    decreases a
  {
    hide Lines, RenderAll, CleanName, CleanHash, AllClean;
    LinesClean(h, a);
    LinesClean(h, b);
    RenderInjective(Lines(a.dirs, a.files), Lines(b.dirs, b.files));
    SameEntries(a, b);
    forall name <- a.dirs ensures a.dirs[name] == b.dirs[name] { EqualHash(h, a.dirs[name], b.dirs[name]); }
  }
}

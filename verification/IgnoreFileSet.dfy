/** Judging any path of a tree by its ignore files: walking down to it, or asking a table that is filled as paths are
    judged. The two agree, whatever was asked before. */
module IgnoreFileSet {
  import opened Common
  import opened GlobPattern
  import opened IgnoreFiles

  /** The ignore files that apply inside a folder, deepest first. */
  datatype Scope = NoFiles | With(parent: Scope, file: IgnoreFile)

  /** What the disk and the rules say: the patterns of a folder's ignore files (None where it has none), and whether a
      folder of this name is kept whatever they say. */
  datatype Tree = Tree(cs: Casing, patterns: string -> Option<seq<Pattern>>, kept: string -> bool) {
    function read(dir: string): Option<IgnoreFile> {
      match patterns(dir) case None => None case Some(ps) => Some(IgnoreFile(dir, ps))
    }
  }

  function Enter(s: Scope, file: Option<IgnoreFile>): Scope {
    if file.None? || file.value.patterns == [] then s else With(s, file.value)
  }

  predicate IsIgnoreFileName(name: string) { name == ".gitignore" || name == ".ignore" }

  /** The deepest file with a pattern that applies decides. */
  ghost predicate Ignores(cs: Casing, s: Scope, entry: string, isDir: bool) {
    match s
    case NoFiles => false
    case With(parent, f) =>
      match Verdict(cs, f, RelFrom(f.baseRel, entry), isDir)
      case Some(ignored) => ignored
      case None => Ignores(cs, parent, entry, isDir)
  }

  /** Is an entry of a folder left out, in that folder's scope? Kept folders and ignore files never are. */
  ghost predicate IgnoredIn(t: Tree, s: Scope, rel: string, isDir: bool) {
    && s != NoFiles
    && !(if isDir then t.kept(Name(rel)) else IsIgnoreFileName(Name(rel)))
    && Ignores(t.cs, s, rel, isDir)
  }

  /** Every ignore file in a folder and above it, whatever is ignored. */
  ghost function AllFiles(t: Tree, dir: string): Scope
    decreases |dir|
  {
    Enter(if dir == "" then NoFiles else AllFiles(t, Parent(dir)), t.read(dir))
  }

  /** Is the path q itself left out by the ignore files above it? */
  ghost predicate LeftOut(t: Tree, q: string, isDir: bool) {
    IgnoredIn(t, AllFiles(t, Parent(q)), q, isDir)
  }

  /** Is q the path p, or a folder above it (the root not counted)? */
  predicate AtOrAbove(q: string, p: string)
    decreases |p|
  {
    p != "" && (q == p || AtOrAbove(q, Parent(p)))
  }

  /** No pattern leaves an ignore file out itself, in whatever folder. */
  lemma IgnoreFilesStay(t: Tree, dir: string, name: string)
    requires name == ".gitignore" || name == ".ignore"
    ensures !LeftOut(t, if dir == "" then name else dir + "/" + name, false)
  {
    hide AllFiles, Ignores;
    var rel := if dir == "" then name else dir + "/" + name;
    NameOf(dir, name);
    assert Name(rel) == name;
  }

  lemma NameOf(dir: string, name: string)
    requires '/' !in name
    ensures Name(if dir == "" then name else dir + "/" + name) == name
  {
    if dir == "" {
      LastSlashOf(name, -1);
    } else {
      var rel := dir + "/" + name;
      assert rel[|dir| + 1..] == name;
      LastSlashOf(rel, |dir|);
    }
  }

  /** Folder d, or one above it, is left out. */
  ghost predicate Closed(t: Tree, d: string) {
    exists q :: AtOrAbove(q, d) && LeftOut(t, q, true)
  }

  /** A path is ignored exactly when it is left out, or a folder above it is. */
  ghost predicate Ignored(t: Tree, rel: string, isDir: bool) {
    LeftOut(t, rel, isDir) || Closed(t, Parent(rel))
  }

  /** The scope a walk of the folder starts in; None where the folder is ignored. */
  ghost function ScopeOf(t: Tree, dir: string): Option<Scope> {
    if Closed(t, dir) then None else Some(AllFiles(t, dir))
  }

  lemma ClosedStep(t: Tree, d: string)
    requires d != ""
    ensures Closed(t, d) <==> LeftOut(t, d, true) || Closed(t, Parent(d))
  {
    if LeftOut(t, d, true) { assert AtOrAbove(d, d); }
    if q :| AtOrAbove(q, Parent(d)) && LeftOut(t, q, true) { assert AtOrAbove(q, d); }
  }

  lemma ScopeStep(t: Tree, dir: string)
    ensures ScopeOf(t, "") == Some(Enter(NoFiles, t.read("")))
    ensures dir != "" ==>
              var parent := ScopeOf(t, Parent(dir));
              ScopeOf(t, dir) ==
              if parent.None? || IgnoredIn(t, parent.value, dir, true) then None
              else Some(Enter(parent.value, t.read(dir)))
  {
    hide IgnoredIn;
    if dir != "" { ClosedStep(t, dir); }
  }

  // ---- which ignore file decides ----

  /** Is the path in the folder, or below? */
  predicate InFolder(q: string, d: string) { d == "" || d + "/" <= q }

  function Below(d: string, q: string): string
    requires InFolder(q, d)
  {
    if d == "" then q else q[|d| + 1..]
  }

  /** What a folder's own ignore files say of a path below it. */
  ghost function Says(t: Tree, d: string, q: string, isDir: bool): Option<bool>
    requires InFolder(q, d)
  {
    match t.patterns(d)
    case None => None
    case Some(ps) => Verdict(t.cs, IgnoreFile(d, ps), Below(d, q), isDir)
  }

  /** A folder's ignore files say this of a path, and no deeper folder's say anything. */
  ghost predicate Decides(t: Tree, d: string, q: string, isDir: bool, ignored: bool) {
    && InFolder(q, d) && Says(t, d, q, isDir) == Some(ignored)
    && forall d' :: InFolder(q, d') && |d'| > |d| ==> Says(t, d', q, isDir) == None
  }

  predicate Exempt(t: Tree, q: string, isDir: bool) {
    if isDir then t.kept(Name(q)) else IsIgnoreFileName(Name(q))
  }

  /** The deepest ignore file above a path that says something of it says that it is ignored - and it is none of those
      that are kept whatever is said. */
  ghost predicate SaidOut(t: Tree, q: string, isDir: bool) {
    !Exempt(t, q, isDir) && exists d :: Decides(t, d, q, isDir, true)
  }

  /** The folders that a walk up from a folder comes to. */
  predicate Upward(d: string, dir: string) { d == "" || AtOrAbove(d, dir) }

  lemma UpwardStep(d: string, dir: string)
    ensures Upward(d, dir) <==> d == dir || (dir != "" && Upward(d, Parent(dir)))
  {}

  lemma {:induction false} UpwardShorter(d: string, dir: string)
    requires Upward(d, dir)
    ensures |d| <= |dir| && (d != dir ==> |d| < |dir|)
    decreases |dir|
  {
    UpwardStep(d, dir);
    if d != dir { UpwardShorter(d, Parent(dir)); }
  }

  lemma SlashAfter(q: string, d: string)
    requires InFolder(q, d) && d != ""
    ensures |d| <= LastSlash(q)
  {
    assert q[|d|] == (d + "/")[|d|] == '/';
  }

  /** The folders above a path are those that it is in. */
  lemma {:induction false} FoldersAbove(q: string, d: string)
    ensures Upward(d, Parent(q)) <==> InFolder(q, d)
    decreases |q|
  {
    var p := Parent(q);
    if InFolder(q, d) && d != "" { SlashAfter(q, d); }
    if p != "" {
      UpwardStep(d, p);
      FoldersAbove(p, d);
      assert q[..|p|] == p && q[|p|] == '/';
      if InFolder(q, d) && d != "" {
        if |d| < |p| { assert p[..|d| + 1] == q[..|d| + 1] == d + "/"; } else { assert d == p; }
      }
      if InFolder(p, d) && d != "" { assert q[..|d| + 1] == p[..|d| + 1]; }
      if d == p { assert q[..|d| + 1] == d + "/"; }
    }
  }

  /** Of the folders from this one up: its ignore files say this of a path, and no deeper one's say anything. */
  ghost predicate DecidesFrom(t: Tree, dir: string, d: string, q: string, isDir: bool, ignored: bool) {
    && Upward(d, dir) && InFolder(q, d) && Says(t, d, q, isDir) == Some(ignored)
    && forall d' :: Upward(d', dir) && InFolder(q, d') && |d'| > |d| ==> Says(t, d', q, isDir) == None
  }

  lemma FileSays(t: Tree, d: string, q: string, isDir: bool)
    requires InFolder(q, d) && t.read(d).Some?
    ensures Verdict(t.cs, t.read(d).value, RelFrom(t.read(d).value.baseRel, q), isDir) == Says(t, d, q, isDir)
  {
    assert RelFrom(d, q) == Below(d, q);
    hide Verdict, RelFrom, Below, InFolder;
  }

  lemma NoPatterns(t: Tree, d: string, q: string, isDir: bool)
    requires InFolder(q, d) && t.patterns(d) == Some([])
    ensures Says(t, d, q, isDir) == None
  {}

  /** The folder itself decides, if it says something; else what decides from above. */
  lemma DecidesStep(t: Tree, dir: string, q: string, isDir: bool)
    requires InFolder(q, dir)
    ensures Says(t, dir, q, isDir) == Some(true) ==> DecidesFrom(t, dir, dir, q, isDir, true)
    ensures Says(t, dir, q, isDir) == Some(false) ==> !exists d :: DecidesFrom(t, dir, d, q, isDir, true)
    ensures Says(t, dir, q, isDir) == None ==>
              forall d :: DecidesFrom(t, dir, d, q, isDir, true) <==>
                          dir != "" && DecidesFrom(t, Parent(dir), d, q, isDir, true)
  {
    forall d | Upward(d, dir) ensures |d| <= |dir| && (d != dir ==> |d| < |dir|) { UpwardShorter(d, dir); }
    forall d ensures Upward(d, dir) <==> d == dir || (dir != "" && Upward(d, Parent(dir))) { UpwardStep(d, dir); }
    hide Upward, InFolder, Says;
  }

  lemma EnterSays(t: Tree, dir: string, above: Scope, q: string, isDir: bool)
    requires InFolder(q, dir)
    ensures Ignores(t.cs, Enter(above, t.read(dir)), q, isDir) ==
            match Says(t, dir, q, isDir) case Some(ignored) => ignored case None => Ignores(t.cs, above, q, isDir)
  {
    if t.read(dir).Some? { FileSays(t, dir, q, isDir); }
    if t.patterns(dir) == Some([]) { NoPatterns(t, dir, q, isDir); }
    hide Verdict, InFolder, Says, RelFrom;
  }

  lemma {:induction false} ScopeSays(t: Tree, dir: string, q: string, isDir: bool)
    requires InFolder(q, dir)
    ensures Ignores(t.cs, AllFiles(t, dir), q, isDir) <==> exists d :: DecidesFrom(t, dir, d, q, isDir, true)
    decreases |dir|
  {
    DecidesStep(t, dir, q, isDir);
    EnterSays(t, dir, if dir == "" then NoFiles else AllFiles(t, Parent(dir)), q, isDir);
    if dir != "" {
      ParentHolds(q, dir);
      ScopeSays(t, Parent(dir), q, isDir);
    }
    hide DecidesFrom, InFolder, Says, Enter;
  }

  lemma ParentHolds(q: string, dir: string)
    requires InFolder(q, dir)
    ensures InFolder(q, Parent(dir))
  {
    var p := Parent(dir);
    if p != "" { assert q[..|p| + 1] == dir[..|p| + 1] == p + "/"; }
  }

  /** A path is left out in its folder's scope exactly if the deepest ignore file that says something of it says so. */
  lemma LeftOutIs(t: Tree, q: string, isDir: bool)
    ensures LeftOut(t, q, isDir) <==> SaidOut(t, q, isDir)
  {
    FoldersAbove(q, Parent(q));
    ScopeSays(t, Parent(q), q, isDir);
    forall d ensures Upward(d, Parent(q)) <==> InFolder(q, d) { FoldersAbove(q, d); }
    hide AllFiles, Upward, InFolder, Says;
    forall d ensures DecidesFrom(t, Parent(q), d, q, isDir, true) <==> Decides(t, d, q, isDir, true) {}
  }

  /** That is said of the path, or of a folder that it is in. */
  ghost predicate SaidIgnored(t: Tree, rel: string, isDir: bool) {
    SaidOut(t, rel, isDir) || exists q :: q != "" && InFolder(rel, q) && SaidOut(t, q, true)
  }

  /** A path is ignored exactly if it, or a folder that it is in, is left out by the deepest ignore file that says
      something of it. */
  lemma IgnoredIs(t: Tree, rel: string, isDir: bool)
    ensures Ignored(t, rel, isDir) <==> SaidIgnored(t, rel, isDir)
  {
    LeftOutIs(t, rel, isDir);
    forall q ensures LeftOut(t, q, true) <==> SaidOut(t, q, true) { LeftOutIs(t, q, true); }
    forall q | q != "" ensures AtOrAbove(q, Parent(rel)) <==> InFolder(rel, q) { FoldersAbove(rel, q); }
    hide LeftOut, SaidOut, AtOrAbove, InFolder;
    NotAboveAll(Parent(rel));
  }

  /** A folder has no scope if it is ignored, and else one that leaves out what is said to be. */
  lemma ScopeJudges(t: Tree, dir: string)
    ensures ScopeOf(t, dir).None? <==> dir != "" && SaidIgnored(t, dir, true)
    ensures ScopeOf(t, dir).Some? ==> forall q, isDir :: Parent(q) == dir ==>
              (IgnoredIn(t, ScopeOf(t, dir).value, q, isDir) <==> SaidOut(t, q, isDir))
  {
    if dir != "" {
      ClosedStep(t, dir);
      IgnoredIs(t, dir, true);
    }
    forall q, isDir | Parent(q) == dir
      ensures LeftOut(t, q, isDir) <==> SaidOut(t, q, isDir)
    {
      LeftOutIs(t, q, isDir);
    }
    hide SaidOut, IgnoredIn, InFolder;
  }

  lemma {:induction false} NotAboveAll(p: string)
    ensures !AtOrAbove("", p)
    decreases |p|
  {
    if p != "" { NotAboveAll(Parent(p)); }
  }

  method IsIgnoredBy(cs: Casing, s: Scope, entry: string, isDir: bool) returns (ignored: bool)
    requires cs.Valid() && '\0' !in entry
    ensures ignored == Ignores(cs, s, entry, isDir)
  {
    var at := s;
    while at != NoFiles
      invariant Ignores(cs, s, entry, isDir) == Ignores(cs, at, entry, isDir)
      decreases at
    {
      var verdict := Match(cs, at.file, RelFrom(at.file.baseRel, entry), isDir);
      if verdict.Some? { return verdict.value; }
      at := at.parent;
    }
    return false;
  }

  class IgnoreFileSet {
    const t: Tree
    var scopes: map<string, Option<Scope>>

    /** The table holds nothing but what the files say. */
    ghost predicate Valid()
      reads this
    {
      t.cs.Valid() && forall d <- scopes :: scopes[d] == ScopeOf(t, d)
    }

    constructor (t: Tree)
      requires t.cs.Valid()
      ensures Valid() && this.t == t
    {
      this.t := t;
      scopes := map[];
    }

    method ScopeIn(dirRel: string) returns (scope: Option<Scope>)
      requires Valid() && '\0' !in dirRel
      modifies this`scopes
      ensures Valid() && scope == ScopeOf(t, dirRel)
      ensures scope.None? <==> dirRel != "" && SaidIgnored(t, dirRel, true)
      ensures scope.Some? ==> forall q, isDir :: Parent(q) == dirRel ==>
                (IgnoredIn(t, scope.value, q, isDir) <==> SaidOut(t, q, isDir))
      decreases |dirRel|
    {
      ScopeJudges(t, dirRel);
      hide ScopeOf, IgnoredIn, Enter;
      ScopeStep(t, dirRel);
      if dirRel in scopes { return scopes[dirRel]; }
      if |dirRel| == 0 {
        scope := Some(Enter(NoFiles, t.read("")));
      } else {
        var cut := LastSlash(dirRel);
        var parent := ScopeIn(if cut < 0 then "" else dirRel[..cut]);
        scope := None;
        if parent.Some? {
          var ignored := EntryIgnored(parent.value, dirRel, true);
          if !ignored { scope := Some(Enter(parent.value, t.read(dirRel))); }
        }
      }
      scopes := scopes[dirRel := scope];
    }

    method EntryIgnored(scope: Scope, rel: string, isDir: bool) returns (ignored: bool)
      requires t.cs.Valid() && '\0' !in rel
      ensures ignored == IgnoredIn(t, scope, rel, isDir)
    {
      if scope == NoFiles { return false; }
      var name := Name(rel);
      if if isDir then t.kept(name) else IsIgnoreFileName(name) { return false; }
      ignored := IsIgnoredBy(t.cs, scope, rel, isDir);
    }

    /** Whatever was asked before, the answer is the one the files give. */
    method IsIgnored(rel: string, isDir: bool) returns (ignored: bool)
      requires Valid() && '\0' !in rel
      modifies this`scopes
      ensures Valid() && ignored == Ignored(t, rel, isDir)
      ensures ignored <==> SaidIgnored(t, rel, isDir)
    {
      IgnoredIs(t, rel, isDir);
      hide SaidIgnored, SaidOut, AllFiles, Closed, IgnoredIn;
      var cut := LastSlash(rel);
      var scope := ScopeIn(if cut < 0 then "" else rel[..cut]);
      ignored := true;
      if scope.Some? { ignored := EntryIgnored(scope.value, rel, isDir); }
    }
  }

  // ---- the walk ----

  /** What is in a folder of the disk. */
  datatype Node = File | Folder(entries: map<string, Node>)

  function Child(rel: string, name: string): string {
    if rel == "" then name else rel + "/" + name
  }

  /** Names are not empty and hold no slash. */
  ghost predicate WellNamed(node: Node) {
    node.Folder? ==> forall name <- node.entries :: name != "" && '/' !in name && WellNamed(node.entries[name])
  }

  ghost predicate FileAt(node: Node, rel: string, path: string) {
    match node
    case File => path == rel
    case Folder(entries) => exists name <- entries :: FileAt(entries[name], Child(rel, name), path)
  }

  /** Does a walk of the node, entered with this scope, come to the file? It passes over what the scope leaves out. */
  ghost predicate Walked(t: Tree, node: Node, rel: string, s: Scope, path: string)
    decreases node, 0
  {
    match node
    case File => path == rel
    case Folder(entries) =>
      exists name <- entries :: WalkedVia(t, entries[name], Child(rel, name), s, path)
  }

  /** The walk through one entry of a folder. */
  ghost predicate WalkedVia(t: Tree, child: Node, entry: string, s: Scope, path: string)
    decreases child, 1
  {
    && !IgnoredIn(t, s, entry, child.Folder?)
    && Walked(t, child, entry, if child.Folder? then Enter(s, t.read(entry)) else s, path)
  }

  lemma ChildIn(rel: string, name: string)
    requires name != "" && '/' !in name
    ensures Parent(Child(rel, name)) == rel && Child(rel, name) != ""
  {
    var e := Child(rel, name);
    LastSlashOf(e, if rel == "" then -1 else |rel|);
  }

  lemma {:induction false} LastSlashOf(s: string, i: int)
    requires -1 <= i < |s| && (i >= 0 ==> s[i] == '/') && forall k :: i < k < |s| ==> s[k] != '/'
    ensures LastSlash(s) == i
  {}

  /** Nothing under a folder that is left out is ever judged kept. */
  lemma {:induction false} UnderClosed(t: Tree, node: Node, rel: string, path: string)
    requires node.Folder? && WellNamed(node) && Closed(t, rel) && FileAt(node, rel, path)
    ensures Ignored(t, path, false)
    decreases node
  {
    hide LeftOut;
    var name :| name in node.entries && FileAt(node.entries[name], Child(rel, name), path);
    ChildIn(rel, name);
    if node.entries[name].Folder? {
      ClosedStep(t, Child(rel, name));
      UnderClosed(t, node.entries[name], Child(rel, name), path);
    }
  }

  /** The files a walk comes to are the files of the tree that are not judged ignored. */
  lemma {:induction false} WalkAgrees(t: Tree, node: Node, rel: string, path: string)
    requires node.Folder? && WellNamed(node) && !Closed(t, rel)
    ensures Walked(t, node, rel, AllFiles(t, rel), path) <==> FileAt(node, rel, path) && !Ignored(t, path, false)
    decreases node, 1
  {
    var s := AllFiles(t, rel);
    forall name <- node.entries
      ensures EntryAgrees(t, node, rel, name, path)
    {
      WalkEntry(t, node, rel, name, path);
    }
  }

  ghost predicate EntryAgrees(t: Tree, node: Node, rel: string, name: string, path: string)
    requires node.Folder? && name in node.entries
  {
    WalkedVia(t, node.entries[name], Child(rel, name), AllFiles(t, rel), path) <==>
    FileAt(node.entries[name], Child(rel, name), path) && !Ignored(t, path, false)
  }

  lemma WalkEntry(t: Tree, node: Node, rel: string, name: string, path: string)
    requires node.Folder? && WellNamed(node) && !Closed(t, rel) && name in node.entries
    ensures EntryAgrees(t, node, rel, name, path)
    decreases node, 0
  {
    var entry := Child(rel, name);
    var child := node.entries[name];
    ChildIn(rel, name);
    if child.Folder? {
      ClosedStep(t, entry);
      if LeftOut(t, entry, true) {
        if FileAt(child, entry, path) { UnderClosed(t, child, entry, path); }
      } else {
        WalkAgrees(t, child, entry, path);
      }
    }
  }

  /** The table and the walk from the root agree on every file, whatever the tree and its ignore files. */
  lemma TableAgreesWithWalk(t: Tree, root: Node, path: string)
    requires root.Folder? && WellNamed(root)
    ensures Walked(t, root, "", Enter(NoFiles, t.read("")), path) <==>
            FileAt(root, "", path) && !Ignored(t, path, false)
  {
    assert !Closed(t, "");
    WalkAgrees(t, root, "", path);
  }
}

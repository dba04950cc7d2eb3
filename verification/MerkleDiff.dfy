/** What differs between two trees: found by walking only the folders whose hashes differ. */
module MerkleDiff {
  import opened Common
  import opened Ordinal
  import opened PathParts
  import opened MerkleTree

  datatype Kind = Added | Removed | Modified

  datatype Lists<T> = Lists(added: seq<T>, removed: seq<T>, modified: seq<T>) {
    function Of(kind: Kind): seq<T> {
      match kind
      case Added => added
      case Removed => removed
      case Modified => modified
    }
  }

  function LookupIn(n: Option<Node>, k: Parts): Option<string> { if n.None? then None else Lookup(n.value, k) }

  predicate Differs(kind: Kind, was: Option<string>, now: Option<string>) {
    match kind
    case Added => was.None? && now.Some?
    case Removed => was.Some? && now.None?
    case Modified => was.Some? && now.Some? && was != now
  }

  predicate Changed(kind: Kind, was: Option<Node>, now: Option<Node>, k: Parts) {
    Differs(kind, LookupIn(was, k), LookupIn(now, k))
  }

  ghost predicate Once<T>(s: seq<T>) { forall i, j :: 0 <= i < j < |s| ==> s[i] != s[j] }

  /** The keys of what changed, each once: in the folder itself, and in those of its folders that are done. */
  ghost predicate Exactly(kind: Kind, was: Option<Node>, now: Option<Node>, keys: seq<Parts>, done: set<string>) {
    Once(keys) && forall k :: k in keys <==> Changed(kind, was, now, k) && (|k| == 1 || (k != [] && k[0] in done))
  }

  // ---- names under a prefix ----

  function PathOf(prefix: string, name: string): string { if |prefix| == 0 then name else prefix + "/" + name }

  lemma PathOfIs(at: Parts, name: string)
    requires NoneEmpty(at)
    ensures PathOf(Join(at), name) == Join(at + [name])
  {
    JoinAppend(at, [name]);
    if at != [] { JoinNotEmpty(at); }
  }

  ghost function Joined(at: Parts, keys: seq<Parts>): seq<string> {
    seq(|keys|, i requires 0 <= i < |keys| => Join(at + keys[i]))
  }

  ghost function Prefixed(name: string, keys: seq<Parts>): seq<Parts> {
    seq(|keys|, i requires 0 <= i < |keys| => [name] + keys[i])
  }

  ghost function Singles(names: seq<string>): seq<Parts> { seq(|names|, i requires 0 <= i < |names| => [names[i]]) }

  ghost function Named(prefix: string, names: seq<string>): seq<string> {
    seq(|names|, i requires 0 <= i < |names| => PathOf(prefix, names[i]))
  }

  lemma JoinedAppend(at: Parts, a: seq<Parts>, b: seq<Parts>)
    ensures Joined(at, a + b) == Joined(at, a) + Joined(at, b)
  {
    hide Join;
  }

  lemma JoinedPrefixed(at: Parts, name: string, keys: seq<Parts>)
    ensures Joined(at, Prefixed(name, keys)) == Joined(at + [name], keys)
  {
    hide Join;
    forall i | 0 <= i < |keys| ensures at + ([name] + keys[i]) == at + [name] + keys[i] {}
  }

  lemma JoinedSingles(at: Parts, names: seq<string>)
    requires NoneEmpty(at)
    ensures Joined(at, Singles(names)) == Named(Join(at), names)
  {
    hide Join, PathOf;
    forall i | 0 <= i < |names| ensures PathOf(Join(at), names[i]) == Join(at + [names[i]]) { PathOfIs(at, names[i]); }
  }

  // ---- the files of a folder ----

  ghost function Filter(names: seq<string>, keep: string -> bool): seq<string> {
    if names == [] then []
    else Filter(names[..|names| - 1], keep) + if keep(names[|names| - 1]) then [names[|names| - 1]] else []
  }

  lemma {:induction false} FilterIs(names: seq<string>, keep: string -> bool)
    requires Once(names)
    ensures Once(Filter(names, keep)) && forall x :: x in Filter(names, keep) <==> x in names && keep(x)
    decreases |names|
  {
    if names != [] {
      var front, last := names[..|names| - 1], names[|names| - 1];
      assert names == front + [last];
      FilterIs(front, keep);
    }
  }

  lemma FilterMore(names: seq<string>, i: nat, keep: string -> bool)
    requires i < |names|
    ensures Filter(names[..i + 1], keep) == Filter(names[..i], keep) + if keep(names[i]) then [names[i]] else []
  {
    assert names[..i + 1][..i] == names[..i];
  }

  lemma NamedMore(prefix: string, names: seq<string>, name: string)
    ensures Named(prefix, names + [name]) == Named(prefix, names) + [PathOf(prefix, name)]
  {
    hide PathOf;
  }

  /** One name further, what is listed under a prefix grows by that name, if it is kept. */
  lemma ListMore(base: seq<string>, prefix: string, names: seq<string>, i: nat, keep: string -> bool)
    requires i < |names|
    ensures var so := base + Named(prefix, Filter(names[..i], keep));
            base + Named(prefix, Filter(names[..i + 1], keep)) ==
            if keep(names[i]) then so + [PathOf(prefix, names[i])] else so
  {
    hide PathOf, Named, Filter;
    FilterMore(names, i, keep);
    var kept := Filter(names[..i], keep);
    NamedMore(prefix, kept, names[i]);
    assert kept + [] == kept;
  }

  ghost function IsNew(files: map<string, string>): string -> bool { (n: string) => n !in files }

  ghost function IsOther(was: map<string, string>, now: map<string, string>): string -> bool {
    (n: string) => n in was && n in now && was[n] != now[n]
  }

  /** The files of the new folder: those the old one lacks, and those whose hash is another. */
  method NewFiles(prefix: string, was: map<string, string>, now: map<string, string>, names: seq<string>,
      diff: Lists<string>)
    returns (r: Lists<string>)
    requires forall n <- names :: n in now
    ensures r.removed == diff.removed
    ensures r.added == diff.added + Named(prefix, Filter(names, IsNew(was)))
    ensures r.modified == diff.modified + Named(prefix, Filter(names, IsOther(was, now)))
  {
    hide PathOf, Named, Filter;
    r := diff;
    NoNames(prefix, names[..0], IsNew(was));
    NoNames(prefix, names[..0], IsOther(was, now));
    for i := 0 to |names|
      invariant r.removed == diff.removed
      invariant r.added == diff.added + Named(prefix, Filter(names[..i], IsNew(was)))
      invariant r.modified == diff.modified + Named(prefix, Filter(names[..i], IsOther(was, now)))
    {
      var name := names[i];
      var p := PathOf(prefix, name);
      ListMore(diff.added, prefix, names, i, IsNew(was));
      ListMore(diff.modified, prefix, names, i, IsOther(was, now));
      if name !in was { r := r.(added := r.added + [p]); }
      else if was[name] != now[name] { r := r.(modified := r.modified + [p]); }
    }
    assert names[..|names|] == names;
  }

  lemma NoNames(prefix: string, names: seq<string>, keep: string -> bool)
    requires names == []
    ensures Named(prefix, Filter(names, keep)) == []
  {}

  /** The files of the old folder that the new one lacks. */
  method OldFiles(prefix: string, now: map<string, string>, names: seq<string>, diff: Lists<string>)
      returns (r: Lists<string>)
    ensures r == diff.(removed := diff.removed + Named(prefix, Filter(names, IsNew(now))))
  {
    hide PathOf, Named, Filter;
    r := diff;
    NoNames(prefix, names[..0], IsNew(now));
    for i := 0 to |names|
      invariant r == diff.(removed := diff.removed + Named(prefix, Filter(names[..i], IsNew(now))))
    {
      ListMore(diff.removed, prefix, names, i, IsNew(now));
      if names[i] !in now { r := r.(removed := r.removed + [PathOf(prefix, names[i])]); }
    }
    assert names[..|names|] == names;
  }

  function FilesOf(n: Option<Node>): map<string, string> { if n.None? then map[] else n.value.files }

  function DirsOf(n: Option<Node>): map<string, Node> { if n.None? then map[] else n.value.dirs }

  /** The keys of the files that changed in a folder itself. */
  ghost function FileKeys(was: Option<Node>, now: Option<Node>): Lists<Parts> {
    var o, n := FilesOf(was), FilesOf(now);
    Lists(Singles(Filter(InOrder(n.Keys), IsNew(o))), Singles(Filter(InOrder(o.Keys), IsNew(n))),
          Singles(Filter(InOrder(n.Keys), IsOther(o, n))))
  }

  lemma OnceInOrder(s: set<string>)
    ensures Once(InOrder(s)) && forall x :: x in InOrder(s) <==> x in s
  {
    hide Less;
    InOrderIs(s);
    var names := InOrder(s);
    forall i, j | 0 <= i < j < |names| ensures names[i] != names[j] { LessIsStrict(names[i], names[j]); }
  }

  lemma SinglesOnce(names: seq<string>)
    requires Once(names)
    ensures Once(Singles(names)) && forall k :: k in Singles(names) <==> |k| == 1 && k[0] in names
  {
    var s := Singles(names);
    forall k | |k| == 1 && k[0] in names ensures k in s {
      var i :| 0 <= i < |names| && names[i] == k[0];
      assert s[i] == k;
    }
    forall i, j | 0 <= i < j < |s| ensures s[i] != s[j] { assert s[i][0] == names[i] && s[j][0] == names[j]; }
  }

  lemma FileKeysExact(kind: Kind, was: Option<Node>, now: Option<Node>)
    ensures Exactly(kind, was, now, FileKeys(was, now).Of(kind), {})
  {
    hide InOrder, Filter, Singles;
    var o, n := FilesOf(was), FilesOf(now);
    var names := InOrder(if kind == Removed then o.Keys else n.Keys);
    var keep := match kind case Added => IsNew(o) case Removed => IsNew(n) case Modified => IsOther(o, n);
    OnceInOrder(if kind == Removed then o.Keys else n.Keys);
    FilterIs(names, keep);
    SinglesOnce(Filter(names, keep));
    forall k ensures k in Singles(Filter(names, keep)) <==> Changed(kind, was, now, k) && |k| == 1 {
      if |k| == 1 { OneName(kind, was, now, k); }
    }
  }

  lemma OneName(kind: Kind, was: Option<Node>, now: Option<Node>, k: Parts)
    requires |k| == 1
    ensures Changed(kind, was, now, k) <==> Differs(kind, Get(FilesOf(was), k[0]), Get(FilesOf(now), k[0]))
  {}

  // ---- folder by folder ----

  ghost function Height(n: Node): nat
    decreases n, 1
  {
    HeightOf(n, n.dirs.Keys)
  }

  ghost function HeightOf(n: Node, names: set<string>): nat
    requires names <= n.dirs.Keys
    decreases n, 0, names
  {
    if names == {} then 0
    else
      var x :| x in names;
      var a, b := Height(n.dirs[x]) + 1, HeightOf(n, names - {x});
      if a > b then a else b
  }

  lemma {:induction false} Lower(n: Node, names: set<string>, name: string)
    requires names <= n.dirs.Keys && name in names
    ensures Height(n.dirs[name]) < HeightOf(n, names)
    decreases names
  {
    var x :| x in names && HeightOf(n, names) ==
      (var a, b := Height(n.dirs[x]) + 1, HeightOf(n, names - {x}); if a > b then a else b);
    if x != name { Lower(n, names - {x}, name); }
  }

  ghost function HeightIn(n: Option<Node>): nat { if n.None? then 0 else Height(n.value) + 1 }

  function Child(n: Option<Node>, name: string): Option<Node> { Get(DirsOf(n), name) }

  lemma ChildLower(n: Option<Node>, name: string)
    ensures HeightIn(Child(n, name)) <= HeightIn(n) && (name in DirsOf(n) ==> HeightIn(Child(n, name)) < HeightIn(n))
  {
    if name in DirsOf(n) { Lower(n.value, n.value.dirs.Keys, name); }
  }

  lemma ChildLookup(n: Option<Node>, k: Parts)
    requires |k| > 1
    ensures LookupIn(n, k) == LookupIn(Child(n, k[0]), k[1..])
  {}

  lemma NothingWithout(was: Option<Node>, now: Option<Node>, kind: Kind, k: Parts)
    requires Changed(kind, was, now, k)
    ensures |k| > 0 && (|k| > 1 ==> k[0] in DirsOf(was) || k[0] in DirsOf(now))
  {}

  ghost function Plus(keys: Lists<Parts>, name: string, child: Lists<Parts>): Lists<Parts> {
    Lists(keys.added + Prefixed(name, child.added), keys.removed + Prefixed(name, child.removed),
          keys.modified + Prefixed(name, child.modified))
  }

  lemma PrefixedIs(name: string, keys: seq<Parts>)
    requires Once(keys)
    ensures Once(Prefixed(name, keys))
    ensures forall k :: k in Prefixed(name, keys) <==> |k| > 0 && k[0] == name && k[1..] in keys
  {
    var s := Prefixed(name, keys);
    forall k | |k| > 0 && k[0] == name && k[1..] in keys ensures k in s {
      var i :| 0 <= i < |keys| && keys[i] == k[1..];
      assert s[i] == [name] + k[1..] == k;
    }
    forall i | 0 <= i < |s| ensures s[i][0] == name && s[i][1..] == keys[i] {}
    forall i, j | 0 <= i < j < |s| ensures s[i] != s[j] { assert s[i][1..] != s[j][1..]; }
  }

  /** One folder more is done. */
  lemma FolderDone(kind: Kind, was: Option<Node>, now: Option<Node>, keys: seq<Parts>, done: set<string>, name: string,
                   child: seq<Parts>)
    requires Exactly(kind, was, now, keys, done) && name !in done
    requires Once(child) && forall k :: k in child <==> Changed(kind, Child(was, name), Child(now, name), k)
    ensures Exactly(kind, was, now, keys + Prefixed(name, child), done + {name})
  {
    hide Changed, Prefixed, Child;
    PrefixedIs(name, child);
    var more := keys + Prefixed(name, child);
    forall k ensures k in more <==> Changed(kind, was, now, k) && (|k| == 1 || (k != [] && k[0] in done + {name})) {
      ChangedBelow(kind, was, now, k);
    }
    forall k | k in keys ensures k !in Prefixed(name, child) { NoneBelow(kind, was, now, child, name, k); }
    OnceAppend(keys, Prefixed(name, child));
  }

  lemma ChangedBelow(kind: Kind, was: Option<Node>, now: Option<Node>, k: Parts)
    ensures Changed(kind, was, now, k) ==> |k| > 0
    ensures |k| > 1 ==> (Changed(kind, was, now, k) <==> Changed(kind, Child(was, k[0]), Child(now, k[0]), k[1..]))
    ensures !Changed(kind, Child(was, ""), Child(now, ""), [])
    ensures |k| == 1 ==> !Changed(kind, Child(was, k[0]), Child(now, k[0]), k[1..])
  {
    if |k| > 1 {
      ChildLookup(was, k);
      ChildLookup(now, k);
    }
  }

  lemma NoneBelow(kind: Kind, was: Option<Node>, now: Option<Node>, child: seq<Parts>, name: string, k: Parts)
    requires forall q :: q in child <==> Changed(kind, Child(was, name), Child(now, name), q)
    requires |k| == 1 || (k != [] && k[0] != name)
    requires Once(child)
    ensures k !in Prefixed(name, child)
  {
    PrefixedIs(name, child);
    if |k| == 1 && k[0] == name { ChangedBelow(kind, was, now, k); }
  }

  lemma OnceAppend<T>(a: seq<T>, b: seq<T>)
    requires Once(a) && Once(b) && forall x :: x in a ==> x !in b
    ensures Once(a + b)
  {
    var s := a + b;
    forall i, j | 0 <= i < j < |s| ensures s[i] != s[j] {
      if i < |a| && j >= |a| { assert s[i] in a && s[j] in b; }
    }
  }

  // ---- the walk ----

  const NO_KEYS: Lists<Parts> := Lists([], [], [])

  ghost predicate Good(h: Hasher, n: Option<Node>) { n.Some? ==> Hashed(h, n.value) && CleanTree(n.value) }

  /** A list grew by the paths of these keys. */
  ghost predicate Grew(before: Lists<string>, after: Lists<string>, at: Parts, keys: Lists<Parts>) {
    forall kind :: after.Of(kind) == before.Of(kind) + Joined(at, keys.Of(kind))
  }

  /** These are the keys of all that changed, each once. */
  ghost predicate Complete(was: Option<Node>, now: Option<Node>, keys: Lists<Parts>) {
    forall kind :: Once(keys.Of(kind)) && forall k :: k in keys.Of(kind) <==> Changed(kind, was, now, k)
  }

  /** Two folders with one hash: nothing below changed. */
  lemma SkipIsRight(h: Hasher, was: Option<Node>, now: Option<Node>)
    requires HasherOk(h) && Good(h, was) && Good(h, now) && was.Some? && now.Some? && was.value.hash == now.value.hash
    ensures Complete(was, now, NO_KEYS)
  {
    EqualHash(h, was.value, now.value);
    forall kind, k ensures !Changed(kind, was, now, k) {}
  }

  lemma NoneGrew(diff: Lists<string>, at: Parts)
    ensures Grew(diff, diff, at, NO_KEYS)
  {
    forall kind: Kind ensures diff.Of(kind) == diff.Of(kind) + Joined(at, NO_KEYS.Of(kind)) {
      assert Joined(at, []) == [];
    }
  }

  lemma Associates<T>(a: seq<T>, b: seq<T>, c: seq<T>)
    ensures a + b + c == a + (b + c)
  {}

  lemma GrewTwice(a: Lists<string>, b: Lists<string>, c: Lists<string>, at: Parts, keys: Lists<Parts>, name: string,
                  child: Lists<Parts>)
    requires Grew(a, b, at, keys) && Grew(b, c, at + [name], child)
    ensures Grew(a, c, at, Plus(keys, name, child))
  {
    hide Joined, Prefixed;
    forall kind: Kind ensures c.Of(kind) == a.Of(kind) + Joined(at, Plus(keys, name, child).Of(kind)) {
      var own, below := keys.Of(kind), child.Of(kind);
      JoinedPrefixed(at, name, below);
      JoinedAppend(at, own, Prefixed(name, below));
      assert Plus(keys, name, child).Of(kind) == own + Prefixed(name, below);
      Associates(a.Of(kind), Joined(at, own), Joined(at + [name], below));
    }
  }

  /** What changed among a folder's own files. */
  method DiffFiles(prefix: string, was: Option<Node>, now: Option<Node>, diff: Lists<string>, ghost at: Parts)
    returns (r: Lists<string>)
    requires prefix == Join(at) && NoneEmpty(at)
    ensures Grew(diff, r, at, FileKeys(was, now))
  {
    hide Join, Named, Joined, Filter, Singles, InOrder;
    r := diff;
    var o, n := FilesOf(was), FilesOf(now);
    var newNames := Names(n);
    r := NewFiles(prefix, o, n, newNames, r);
    var oldNames := Names(o);
    r := OldFiles(prefix, n, oldNames, r);
    JoinedSingles(at, Filter(newNames, IsNew(o)));
    JoinedSingles(at, Filter(oldNames, IsNew(n)));
    JoinedSingles(at, Filter(newNames, IsOther(o, n)));
  }

  /** After the folders' first names are done. */
  ghost predicate Upto(was: Option<Node>, now: Option<Node>, keys: Lists<Parts>, done: set<string>) {
    forall kind :: Exactly(kind, was, now, keys.Of(kind), done)
  }

  lemma UptoStart(was: Option<Node>, now: Option<Node>)
    ensures Upto(was, now, FileKeys(was, now), {})
  {
    hide Exactly, FileKeys;
    forall kind: Kind
      ensures Exactly(kind, was, now, FileKeys(was, now).Of(kind), {})
    {
      FileKeysExact(kind, was, now);
    }
  }

  lemma UptoMore(was: Option<Node>, now: Option<Node>, keys: Lists<Parts>, done: set<string>, name: string,
      child: Lists<Parts>)
    requires Upto(was, now, keys, done) && name !in done && Complete(Child(was, name), Child(now, name), child)
    ensures Upto(was, now, Plus(keys, name, child), done + {name})
  {
    hide Exactly, Child, Changed, Prefixed;
    forall kind: Kind ensures Exactly(kind, was, now, Plus(keys, name, child).Of(kind), done + {name}) {
      FolderDone(kind, was, now, keys.Of(kind), done, name, child.Of(kind));
      assert Plus(keys, name, child).Of(kind) == keys.Of(kind) + Prefixed(name, child.Of(kind));
    }
  }

  lemma UptoAll(was: Option<Node>, now: Option<Node>, keys: Lists<Parts>, done: set<string>)
    requires Upto(was, now, keys, done) && DirsOf(was).Keys + DirsOf(now).Keys <= done
    ensures Complete(was, now, keys)
  {
    hide Changed, DirsOf;
    forall kind: Kind ensures Once(keys.Of(kind)) && forall k :: k in keys.Of(kind) <==> Changed(kind, was, now, k) {
      assert Exactly(kind, was, now, keys.Of(kind), done);
      forall k | Changed(kind, was, now, k)
        ensures |k| == 1 || (k != [] && k[0] in done)
      {
        NothingWithout(was, now, kind, k);
      }
    }
  }

  lemma GoodChild(h: Hasher, n: Option<Node>, name: string)
    requires Good(h, n)
    ensures Good(h, Child(n, name))
    ensures name in DirsOf(n) ==> CleanName(name)
  {}

  method DiffNodes(h: Hasher, prefix: string, was: Option<Node>, now: Option<Node>, diff: Lists<string>,
      ghost at: Parts)
    returns (r: Lists<string>, ghost keys: Lists<Parts>)
    requires HasherOk(h) && Good(h, was) && Good(h, now) && prefix == Join(at) && NoneEmpty(at)
    ensures Grew(diff, r, at, keys) && Complete(was, now, keys)
    decreases HeightIn(was) + HeightIn(now)
  {
    hide Join, Good, Grew, Complete, Upto, Plus, FileKeys, HeightIn, Child, InOrder, Less, DirsOf;
    if was.Some? && now.Some? && was.value.hash == now.value.hash {
      SkipIsRight(h, was, now);
      NoneGrew(diff, at);
      return diff, NO_KEYS;
    }
    r := DiffFiles(prefix, was, now, diff, at);
    keys := FileKeys(was, now);
    UptoStart(was, now);
    var names := Sorted(DirsOf(was).Keys + DirsOf(now).Keys);
    ghost var done: set<string> := {};
    for i := 0 to |names|
      invariant Grew(diff, r, at, keys) && Upto(was, now, keys, done) && (forall p :: p in done <==> p in names[..i])
    {
      var name := names[i];
      assert name in (set p <- names);
      assert name in DirsOf(was).Keys + DirsOf(now).Keys;
      forall j | 0 <= j < i ensures names[j] != name { OrderedDistinctNames(names, j, i); }
      ghost var child;
      ghost var so := r;
      r, child := DiffChild(h, prefix, was, now, name, r, at);
      GrewTwice(diff, so, r, at, keys, name, child);
      UptoMore(was, now, keys, done, name, child);
      keys, done := Plus(keys, name, child), done + {name};
      assert names[..i + 1] == names[..i] + [name];
    }
    assert names[..|names|] == names;
    forall p <- DirsOf(was).Keys + DirsOf(now).Keys ensures p in done { assert p in (set q <- names); }
    UptoAll(was, now, keys, done);
  }

  method DiffChild(h: Hasher, prefix: string, was: Option<Node>, now: Option<Node>, name: string, diff: Lists<string>,
                   ghost at: Parts) returns (r: Lists<string>, ghost child: Lists<Parts>)
    requires HasherOk(h) && Good(h, was) && Good(h, now) && prefix == Join(at) && NoneEmpty(at)
    requires name in DirsOf(was) || name in DirsOf(now)
    ensures Grew(diff, r, at + [name], child) && Complete(Child(was, name), Child(now, name), child)
    decreases HeightIn(was) + HeightIn(now), 0
  {
    hide Join, Good, Grew, Complete, HeightIn, Child, CleanTree, Hashed;
    GoodChild(h, was, name);
    GoodChild(h, now, name);
    var o, n := Child(was, name), Child(now, name);
    if o.Some? && n.Some? && o.value.hash == n.value.hash {
      SkipIsRight(h, o, n);
      NoneGrew(diff, at + [name]);
      return diff, NO_KEYS;
    }
    ChildLower(was, name);
    ChildLower(now, name);
    PathOfIs(at, name);
    r, child := DiffNodes(h, PathOf(prefix, name), o, n, diff, at + [name]);
  }

  // ---- what the difference lists ----

  lemma KeyIsPath(kind: Kind, was: Node, now: Node, before: map<string, string>, after: map<string, string>, k: Parts)
    requires Represents(was, before) && Represents(now, after)
    ensures Changed(kind, Some(was), Some(now), k) <==>
            k != [] && NoSlash(k) && Differs(kind, Get(before, Join(k)), Get(after, Join(k)))
  {
    hide Lookup, Join, NoSlash;
  }

  lemma KeysArePaths(kind: Kind, was: Node, now: Node, before: map<string, string>, after: map<string, string>,
                     keys: seq<Parts>, paths: seq<string>)
    requires Represents(was, before) && Represents(now, after)
    requires Once(keys) && forall k :: k in keys <==> Changed(kind, Some(was), Some(now), k)
    requires paths == Joined([], keys)
    ensures Once(paths) && forall p :: p in paths <==> Differs(kind, Get(before, p), Get(after, p))
  {
    hide Represents, Changed, Join, Split, NoSlash, Differs;
    forall i | 0 <= i < |keys|
      ensures paths[i] == Join(keys[i]) && keys[i] != [] && NoSlash(keys[i])
              && Differs(kind, Get(before, paths[i]), Get(after, paths[i]))
    {
      assert keys[i] in keys && [] + keys[i] == keys[i];
      KeyIsPath(kind, was, now, before, after, keys[i]);
    }
    forall p | Differs(kind, Get(before, p), Get(after, p)) ensures p in paths {
      SplitParts(p);
      JoinSplit(p);
      KeyIsPath(kind, was, now, before, after, Split(p));
      var i :| 0 <= i < |keys| && keys[i] == Split(p);
      assert paths[i] == p;
    }
    forall i, j | 0 <= i < j < |paths| ensures paths[i] != paths[j] {
      if paths[i] == paths[j] { JoinInjective(keys[i], keys[j]); }
    }
  }

  /** The paths that were added, removed and modified between two snapshots: all of them, each once, and nothing
      else. */
  method Diff(h: Hasher, was: Node, now: Node, ghost before: map<string, string>, ghost after: map<string, string>)
    returns (diff: Lists<string>)
    requires HasherOk(h) && Hashed(h, was) && Hashed(h, now) && CleanTree(was) && CleanTree(now)
    requires Represents(was, before) && Represents(now, after)
    ensures forall kind ::
              Once(diff.Of(kind)) && forall p :: p in diff.Of(kind) <==> Differs(kind, Get(before, p), Get(after, p))
  {
    hide Represents, Hashed, CleanTree, Changed, Join, Joined, Differs, Once;
    ghost var keys;
    NoPrefix();
    diff, keys := DiffNodes(h, "", Some(was), Some(now), Lists([], [], []), []);
    forall kind: Kind
      ensures Once(diff.Of(kind)) && forall p :: p in diff.Of(kind) <==> Differs(kind, Get(before, p), Get(after, p))
    {
      assert Lists([], [], []).Of(kind) + Joined([], keys.Of(kind)) == Joined([], keys.Of(kind));
      KeysArePaths(kind, was, now, before, after, keys.Of(kind), diff.Of(kind));
    }
  }

  lemma NoPrefix()
    ensures Join([]) == "" && NoneEmpty([])
  {}

  /** A root hash stands for the whole snapshot. */
  lemma RootHashTells(h: Hasher, was: Node, now: Node, before: map<string, string>, after: map<string, string>)
    requires HasherOk(h) && Hashed(h, was) && Hashed(h, now) && CleanTree(was) && CleanTree(now)
    requires Represents(was, before) && Represents(now, after) && was.hash == now.hash
    ensures before == after
  {
    hide Lookup, Join, Split, NoSlash, Hashed, CleanTree;
    EqualHash(h, was, now);
    forall p ensures Get(before, p) == Get(after, p) {
      SplitParts(p);
      JoinSplit(p);
      assert Lookup(was, Split(p)) == Get(before, Join(Split(p)));
      assert Lookup(now, Split(p)) == Get(after, Join(Split(p)));
    }
    forall p ensures (p in before <==> p in after) && (p in before ==> before[p] == after[p]) {
      assert Get(before, p) == Get(after, p);
    }
  }
}

/** Any number of processes that serve and write the same index caches. A write holds the cache's lock, reloads what
    another process committed before it changes anything, and ends by publishing a fresh generation token. A session
    can be re-pointed to another workspace at any time. */
module WriteProtocol {
  import opened Common

  type Edit = nat
  type Docs = set<Edit>

  /** A cache on disk: its token, which edits its documents show, who holds its write lock, and whether the holder has
      written since the token was published. */
  datatype Cache = Cache(gen: nat, docs: Docs, writer: Option<nat>, dirty: bool)

  /** Where a process is in an operation. All but Idle hold the process's build gate. */
  datatype Op =
    | Idle
    | Gated(epoch: nat)
    | Locked(epoch: nat, root: nat)
    | Checked(epoch: nat, root: nat)
    | InRw(epoch: nat, root: nat)
    | Refreshing(epoch: nat, root: nat, gen: nat)
    | Refreshed(epoch: nat, root: nat)
    | Wrote(epoch: nat, root: nat)
    | Rewriting(epoch: nat, root: nat, loaded: Docs)
    | Rewrote(epoch: nat, root: nat, built: Docs)
    | Built(epoch: nat, root: nat, built: Docs, gen: nat)
    | ReadGen(gen: nat)
    | ReadEpoch(gen: nat, epoch: nat)
    | LoadedIndex(gen: nat, epoch: nat, root: nat, loaded: Docs)

  /** A process: the workspace it serves, counted re-points, the edits of it that wait for an index, the index in
      memory (and, for the proof, of which workspace), the token it reflects, and whether every change made to it was
      also written. */
  datatype Proc = Proc(root: nat, epoch: nat, pending: Docs, mem: Option<Docs>, memRoot: nat, loadedGen: Option<nat>,
                       clean: bool, op: Op)

  /** The caches, the processes, and the edits made in each workspace: one workspace may lie in another. */
  datatype World = World(cache: nat -> Cache, proc: nat -> Proc, nextGen: nat, tree: nat -> Docs)

  // ---- steps ----

  ghost predicate SameTree(w: World, w': World) { forall r :: w'.tree(r) == w.tree(r) }

  ghost predicate SameCaches(w: World, w': World) {
    SameTree(w, w') && w'.nextGen == w.nextGen && forall r :: w'.cache(r) == w.cache(r)
  }

  ghost predicate OnlyProc(w: World, w': World, p: nat, s: Proc) {
    w'.proc(p) == s && forall q :: q != p ==> w'.proc(q) == w.proc(q)
  }

  ghost predicate OnlyCache(w: World, w': World, r: nat, c: Cache) {
    w'.cache(r) == c && forall q :: q != r ==> w'.cache(q) == w.cache(q)
  }

  /** A file of the tree changes. */
  ghost predicate EditTree(w: World, w': World) {
    && (forall r :: w.tree(r) <= w'.tree(r)) && w'.nextGen == w.nextGen
    && (forall r :: w'.cache(r) == w.cache(r)) && forall q :: w'.proc(q) == w.proc(q)
  }

  /** Re-pointed to another workspace (or to the same one anew): never inside a section that holds the index lock. */
  ghost predicate Repoint(w: World, w': World, p: nat, root: nat) {
    var s := w.proc(p);
    && !InSection(s.op)
    && SameCaches(w, w') && OnlyProc(w, w', p, s.(root := root, epoch := s.epoch + 1, pending := {}, mem := None,
                                                       loadedGen := None))
  }

  /** The watcher tells of edits that cannot be applied now. */
  ghost predicate Capture(w: World, w': World, p: nat, more: Docs) {
    var s := w.proc(p);
    && more <= w.tree(s.root) && !InSection(s.op)
    && SameCaches(w, w') && OnlyProc(w, w', p, s.(pending := s.pending + more))
  }

  /** The first query loads the index, whoever is writing. The token is read before: it may have been replaced since. */
  ghost predicate FirstLoad(w: World, w': World, p: nat) {
    var s := w.proc(p);
    var c := w.cache(s.root);
    && s.mem.None? && !InSection(s.op)
    && SameCaches(w, w') && w'.proc(p).loadedGen.Some? && w'.proc(p).loadedGen.value <= c.gen
    && OnlyProc(w, w', p, s.(mem := Some(c.docs), memRoot := s.root, loadedGen := w'.proc(p).loadedGen, clean := true))
  }

  ghost predicate Gate(w: World, w': World, p: nat) {
    var s := w.proc(p);
    s.op.Idle? && SameCaches(w, w') && OnlyProc(w, w', p, s.(op := Gated(s.epoch)))
  }

  ghost predicate Lock(w: World, w': World, p: nat) {
    var s := w.proc(p);
    var c := w.cache(s.root);
    && s.op.Gated? && c.writer.None?
    && SameTree(w, w') && w'.nextGen == w.nextGen && OnlyCache(w, w', s.root, c.(writer := Some(p)))
    && OnlyProc(w, w', p, s.(op := Locked(s.op.epoch, s.root)))
  }

  /** Gives up before anything is written: the lock is released, and no token is published. */
  ghost predicate GiveUp(w: World, w': World, p: nat) {
    var s := w.proc(p);
    && (s.op.Locked? || s.op.Checked? || s.op.InRw? || s.op.Refreshing? || s.op.Refreshed?)
    && SameTree(w, w') && w'.nextGen == w.nextGen
    && OnlyCache(w, w', s.op.root, w.cache(s.op.root).(writer := None))
    && OnlyProc(w, w', p, s.(op := Idle))
  }

  ghost predicate Leave(w: World, w': World, p: nat) {
    var s := w.proc(p);
    && (s.op.Gated? || s.op.ReadGen? || s.op.ReadEpoch?)
    && SameCaches(w, w') && OnlyProc(w, w', p, s.(op := Idle))
  }

  /** Holding the lock, it looks whether it was re-pointed while it waited. */
  ghost predicate Check(w: World, w': World, p: nat) {
    var s := w.proc(p);
    && s.op.Locked? && s.op.epoch == s.epoch
    && SameCaches(w, w') && OnlyProc(w, w', p, s.(op := Checked(s.op.epoch, s.op.root)))
  }

  /** Takes the index lock - some time after that look. */
  ghost predicate EnterRw(w: World, w': World, p: nat) {
    var s := w.proc(p);
    && s.op.Checked? && SameCaches(w, w') && OnlyProc(w, w', p, s.(op := InRw(s.op.epoch, s.op.root)))
  }

  /** The index in memory is that of the token on disk, or the token is read to reload. */
  ghost predicate Compare(w: World, w': World, p: nat) {
    var s := w.proc(p);
    var gen := w.cache(s.root).gen;
    && s.op.InRw? && SameCaches(w, w')
    && OnlyProc(w, w', p, s.(op := if s.mem.Some? && s.loadedGen == Some(gen) then Refreshed(s.op.epoch, s.op.root)
                                   else Refreshing(s.op.epoch, s.op.root, gen)))
  }

  ghost predicate Refresh(w: World, w': World, p: nat) {
    var s := w.proc(p);
    && s.op.Refreshing? && SameCaches(w, w')
    && OnlyProc(w, w', p,
       s.(mem := Some(w.cache(s.root).docs), memRoot := s.root, loadedGen := Some(s.op.gen), clean := true,
         op := Refreshed(s.op.epoch, s.op.root)))
  }

  /** What a section can apply: edits of its batch, or that were pending, that lie in the workspace it finds itself
      in. */
  function Applicable(w: World, s: Proc): Docs
    requires s.op.Refreshed? || InSection(s.op)
  {
    w.tree(s.root) * (w.tree(s.op.root) + s.pending)
  }

  /** Applies edits to the index in memory and writes it - where there is one to apply: else nothing is written. One
      that fails may have applied some, and written some of those. */
  ghost predicate ApplyWrite(w: World, w': World, p: nat) {
    var s, s' := w.proc(p), w'.proc(p);
    var c, c' := w.cache(s.root), w'.cache(s.root);
    && s.op.Refreshed? && s.mem.Some? && s'.mem.Some? && Applicable(w, s) != {}
    && s.mem.value <= s'.mem.value <= s.mem.value + Applicable(w, s)
    && (if s'.clean then c'.docs == s'.mem.value else c.docs * s.mem.value <= c'.docs <= s'.mem.value)
    && SameTree(w, w') && w'.nextGen == w.nextGen && OnlyCache(w, w', s.root, c.(docs := c'.docs, dirty := true))
    && OnlyProc(w, w', p,
       s.(pending := {}, mem := s'.mem, clean := s'.clean && s.clean, op := Wrote(s.op.epoch, s.op.root)))
  }

  /** Publishes the write and releases the lock. */
  ghost predicate Commit(w: World, w': World, p: nat) {
    var s := w.proc(p);
    && s.op.Wrote? && SameTree(w, w') && w'.nextGen == w.nextGen + 1
    && OnlyCache(w, w', s.op.root, w.cache(s.op.root).(gen := w.nextGen, dirty := false, writer := None))
    && OnlyProc(w, w', p, s.(loadedGen := Some(w.nextGen), op := Idle))
  }

  /** A build, an update, a compaction: it loads what is on disk, under the lock. */
  ghost predicate StartRewrite(w: World, w': World, p: nat) {
    var s := w.proc(p);
    && (s.op.Locked? || s.op.Checked?) && s.op.root == s.root
    && SameCaches(w, w') && OnlyProc(w, w', p, s.(op := Rewriting(s.op.epoch, s.op.root, w.cache(s.op.root).docs)))
  }

  ghost predicate Rewrite(w: World, w': World, p: nat) {
    var s, s' := w.proc(p), w'.proc(p);
    && s.op.Rewriting? && s'.op.Rewrote? && s.op.loaded <= s'.op.built <= s.op.loaded + w.tree(s.op.root)
    && SameTree(w, w') && w'.nextGen == w.nextGen
    && OnlyCache(w, w', s.op.root, w.cache(s.op.root).(docs := s'.op.built, dirty := true))
    && OnlyProc(w, w', p, s.(op := Rewrote(s.op.epoch, s.op.root, s'.op.built)))
  }

  ghost predicate CommitRewrite(w: World, w': World, p: nat) {
    var s := w.proc(p);
    && s.op.Rewrote? && SameTree(w, w') && w'.nextGen == w.nextGen + 1
    && OnlyCache(w, w', s.op.root, w.cache(s.op.root).(gen := w.nextGen, dirty := false))
    && OnlyProc(w, w', p, s.(op := Built(s.op.epoch, s.op.root, s.op.built, w.nextGen)))
  }

  /** Installs what was built, unless re-pointed meanwhile; releases the lock. */
  ghost predicate SwapBuilt(w: World, w': World, p: nat) {
    var s := w.proc(p);
    && s.op.Built? && SameTree(w, w') && w'.nextGen == w.nextGen
    && OnlyCache(w, w', s.op.root, w.cache(s.op.root).(writer := None))
    && OnlyProc(w, w', p,
                if s.op.epoch == s.epoch
                then s.(mem := Some(s.op.built), memRoot := s.op.root, loadedGen := Some(s.op.gen),
                  clean := true, op := Idle)
                else s.(op := Idle))
  }

  /** A reload for a query: token, epoch and index are read one after the other, under no lock of the cache's. */
  ghost predicate StartReload(w: World, w': World, p: nat) {
    var s := w.proc(p);
    s.op.Idle? && SameCaches(w, w') && OnlyProc(w, w', p, s.(op := ReadGen(w.cache(s.root).gen)))
  }

  ghost predicate TakeEpoch(w: World, w': World, p: nat) {
    var s := w.proc(p);
    s.op.ReadGen? && SameCaches(w, w') && OnlyProc(w, w', p, s.(op := ReadEpoch(s.op.gen, s.epoch)))
  }

  ghost predicate LoadIndex(w: World, w': World, p: nat) {
    var s := w.proc(p);
    && s.op.ReadEpoch? && SameCaches(w, w')
    && OnlyProc(w, w', p, s.(op := LoadedIndex(s.op.gen, s.op.epoch, s.root, w.cache(s.root).docs)))
  }

  ghost predicate SwapLoaded(w: World, w': World, p: nat) {
    var s := w.proc(p);
    && s.op.LoadedIndex? && SameCaches(w, w')
    && OnlyProc(w, w', p,
                if s.op.epoch == s.epoch
                then s.(mem := Some(s.op.loaded), memRoot := s.op.root, loadedGen := Some(s.op.gen),
                  clean := true, op := Idle)
                else s.(op := Idle))
  }

  ghost predicate ProcStep(w: World, w': World, p: nat) {
    || FirstLoad(w, w', p) || Gate(w, w', p) || Lock(w, w', p) || GiveUp(w, w', p) || Leave(w, w', p)
    || Check(w, w', p) || EnterRw(w, w', p) || Compare(w, w', p) || Refresh(w, w', p) || ApplyWrite(w, w', p)
    || Commit(w, w', p) || StartRewrite(w, w', p) || Rewrite(w, w', p) || CommitRewrite(w, w', p) || SwapBuilt(w, w', p)
    || StartReload(w, w', p) || TakeEpoch(w, w', p) || LoadIndex(w, w', p) || SwapLoaded(w, w', p)
  }

  ghost predicate Next(w: World, w': World) {
    || EditTree(w, w') || (exists p :: ProcStep(w, w', p)) || (exists p, root :: Repoint(w, w', p, root))
    || (exists p, more :: Capture(w, w', p, more))
  }

  predicate InSection(op: Op) { op.InRw? || op.Refreshing? || op.Refreshed? }

  /** A process that entered the section that writes although it was re-pointed to another workspace since it looked -
      and that has something to write there: an edit that lies in both workspaces, or one that was pending for the new
      one. */
  ghost predicate Slipped(w: World) {
    exists p :: InSection(w.proc(p).op) && w.proc(p).op.root != w.proc(p).root && Applicable(w, w.proc(p)) != {}
  }

  // ---- what every run keeps ----

  predicate Holds(op: Op) {
    op.Locked? || op.Checked? || op.InRw? || op.Refreshing? || op.Refreshed? || op.Wrote? || op.Rewriting?
      || op.Rewrote? || op.Built?
  }

  ghost predicate CacheOk(w: World, r: nat) {
    var c := w.cache(r);
    && c.gen < w.nextGen && c.docs <= w.tree(r)
    && (c.writer.Some? ==> var op := w.proc(c.writer.value).op;
          Holds(op) && op.root == r && (c.dirty ==> op.Wrote? || op.Rewrote?))
    && (c.dirty ==> c.writer.Some?)
  }

  /** Locks are held by one process each, and an operation of the current epoch is about the current workspace. */
  ghost predicate LocksOk(w: World, p: nat) {
    var s := w.proc(p);
    && (Holds(s.op) ==> w.cache(s.op.root).writer == Some(p))
    && (Holds(s.op) || s.op.LoadedIndex? ==> s.op.epoch <= s.epoch && (s.op.epoch == s.epoch ==> s.op.root == s.root))
    && (s.op.Gated? || s.op.ReadEpoch? ==> s.op.epoch <= s.epoch)
    && (s.loadedGen.Some? ==> s.loadedGen.value < w.nextGen)
  }

  /** The index in memory holds all that the cache holds, and nothing else if every change to it was written. */
  ghost predicate Covers(s: Proc, docs: Docs) {
    s.mem.Some? && docs <= s.mem.value && (s.clean ==> s.mem.value == docs)
  }

  /** The index in memory is of the workspace that is served. Where its token is the one on disk, and nobody else has
      written since, it covers what is on disk. */
  ghost predicate MemOk(w: World, p: nat) {
    var s := w.proc(p);
    var c := w.cache(s.root);
    && (s.mem.Some? ==> s.memRoot == s.root && s.mem.value <= w.tree(s.root)) && s.pending <= w.tree(s.root)
    && (s.mem.Some? && s.loadedGen == Some(c.gen) && (c.dirty ==> c.writer == Some(p) && s.op.Wrote?) ==>
       Covers(s, c.docs))
    && (s.mem.Some? && s.op.Wrote? && s.op.root == s.root ==> Covers(s, c.docs))
  }

  /** What an operation loaded or built is what is on disk. */
  ghost predicate OpOk(w: World, p: nat) {
    var s := w.proc(p);
    match s.op
    case Refreshing(e, r, g) => g < w.nextGen && (r == s.root ==> g == w.cache(r).gen)
    case Refreshed(e, r) => r == s.root ==> Covers(s, w.cache(r).docs) && s.loadedGen == Some(w.cache(r).gen)
    case Rewriting(e, r, d) => d == w.cache(r).docs
    case Rewrote(e, r, d) => d == w.cache(r).docs
    case Built(e, r, d, g) => d == w.cache(r).docs && g == w.cache(r).gen && !w.cache(r).dirty
    case ReadGen(g) => g < w.nextGen
    case ReadEpoch(g, e) => g < w.nextGen
    case LoadedIndex(g, e, r, d) => d <= w.tree(r) && g < w.nextGen
         && (g == w.cache(r).gen && !w.cache(r).dirty ==> d == w.cache(r).docs)
    case _ => true
  }

  ghost predicate ProcOk(w: World, p: nat) { LocksOk(w, p) && MemOk(w, p) && OpOk(w, p) }

  ghost predicate Inv(w: World) { (forall r :: CacheOk(w, r)) && forall p :: ProcOk(w, p) }

  /** Nothing that a cache shows is ever lost from it. */
  ghost predicate Keeps(w: World, w': World) { forall r :: w.cache(r).docs <= w'.cache(r).docs }

  /** What a step by p leaves of a cache: its lock taken or released, or - by its holder - its documents added to, or a
      token never used before published. */
  ghost predicate CacheStep(w: World, w': World, p: nat, r: nat) {
    var c, c' := w.cache(r), w'.cache(r);
    && w.nextGen <= w'.nextGen && (forall q :: w.tree(q) <= w'.tree(q))
    && (c' != c ==> c.writer == None || c.writer == Some(p))
    && (c'.writer != c.writer ==> c'.writer == None || c'.writer == Some(p))
    && (c'.docs != c.docs ==> c.writer == Some(p) && c'.dirty)
    && (c'.gen != c.gen ==> c'.gen >= w.nextGen)
    && (c.dirty && !c'.dirty ==> c'.gen != c.gen)
    && (c'.dirty && !c.dirty ==> c.writer == Some(p))
  }

  /** A step by one process leaves every other one right. */
  lemma OthersOk(w: World, w': World, p: nat, q: nat)
    requires Inv(w) && p != q && w'.proc(q) == w.proc(q)
    requires forall r :: CacheStep(w, w', p, r)
    ensures ProcOk(w', q)
  {
    assert ProcOk(w, q) && CacheOk(w, w.proc(q).root);
    var s := w.proc(q);
    assert CacheStep(w, w', p, s.root);
    if Holds(s.op) || s.op.LoadedIndex? { assert CacheStep(w, w', p, s.op.root) && CacheOk(w, s.op.root); }
  }

  /** What a step by p has to show: for the caches, and for p itself. */
  ghost predicate StepOk(w: World, w': World, p: nat) {
    && (forall r :: CacheStep(w, w', p, r) && CacheOk(w', r) && w.cache(r).docs <= w'.cache(r).docs)
    && (forall q :: q != p ==> w'.proc(q) == w.proc(q))
    && ProcOk(w', p)
  }

  lemma StepKeeps(w: World, w': World, p: nat)
    requires Inv(w) && StepOk(w, w', p)
    ensures Inv(w') && Keeps(w, w')
  {
    hide CacheOk, CacheStep;
    forall q ensures ProcOk(w', q) { if q != p { OthersOk(w, w', p, q); } }
  }

  /** A step that touches no cache. */
  lemma LocalKeeps(w: World, w': World, p: nat)
    requires Inv(w) && SameCaches(w, w') && (forall q :: q != p ==> w'.proc(q) == w.proc(q)) && ProcOk(w', p)
    requires w'.proc(p).op == w.proc(p).op || (Holds(w'.proc(p).op) == Holds(w.proc(p).op) &&
               (Holds(w.proc(p).op) ==> w'.proc(p).op.root == w.proc(p).op.root && !w.cache(w.proc(p).op.root).dirty))
    ensures StepOk(w, w', p)
  {
    hide ProcOk;
    forall r ensures CacheStep(w, w', p, r) && CacheOk(w', r) && w.cache(r).docs <= w'.cache(r).docs {
      assert CacheOk(w, r);
    }
  }

  lemma LoadingKeeps(w: World, w': World, p: nat)
    requires Inv(w)
    requires FirstLoad(w, w', p) || Gate(w, w', p) || Leave(w, w', p) || StartReload(w, w', p) || TakeEpoch(w, w', p)
             || LoadIndex(w, w', p) || SwapLoaded(w, w', p)
    ensures StepOk(w, w', p)
  {
    assert ProcOk(w, p) && CacheOk(w, w.proc(p).root);
    LocalKeeps(w, w', p);
  }

  lemma WritingKeeps(w: World, w': World, p: nat)
    requires Inv(w)
    requires Check(w, w', p) || EnterRw(w, w', p) || StartRewrite(w, w', p) || Compare(w, w', p) || Refresh(w, w', p)
    ensures StepOk(w, w', p)
  {
    assert ProcOk(w, p) && CacheOk(w, w.proc(p).root) && CacheOk(w, w.proc(p).op.root);
    LocalKeeps(w, w', p);
  }

  lemma LockingKeeps(w: World, w': World, p: nat)
    requires Inv(w)
    requires Lock(w, w', p) || GiveUp(w, w', p) || SwapBuilt(w, w', p)
    ensures StepOk(w, w', p)
  {
    assert ProcOk(w, p) && CacheOk(w, w.proc(p).root);
    if Holds(w.proc(p).op) { assert CacheOk(w, w.proc(p).op.root); }
    forall r ensures CacheStep(w, w', p, r) && CacheOk(w', r) && w.cache(r).docs <= w'.cache(r).docs {
      assert CacheOk(w, r);
    }
  }

  lemma ApplyKeeps(w: World, w': World, p: nat)
    requires Inv(w) && ApplyWrite(w, w', p) && w.proc(p).op.root == w.proc(p).root
    ensures StepOk(w, w', p)
  {
    assert ProcOk(w, p) && CacheOk(w, w.proc(p).root);
    forall r ensures CacheStep(w, w', p, r) && CacheOk(w', r) && w.cache(r).docs <= w'.cache(r).docs {
      assert CacheOk(w, r);
    }
  }

  lemma RewriteKeeps(w: World, w': World, p: nat)
    requires Inv(w) && Rewrite(w, w', p)
    ensures StepOk(w, w', p)
  {
    assert ProcOk(w, p) && CacheOk(w, w.proc(p).op.root);
    forall r ensures CacheStep(w, w', p, r) && CacheOk(w', r) && w.cache(r).docs <= w'.cache(r).docs {
      assert CacheOk(w, r);
    }
  }

  lemma CommitKeeps(w: World, w': World, p: nat)
    requires Inv(w)
    requires Commit(w, w', p) || CommitRewrite(w, w', p)
    ensures StepOk(w, w', p)
  {
    assert ProcOk(w, p) && CacheOk(w, w.proc(p).op.root) && CacheOk(w, w.proc(p).root);
    forall r ensures CacheStep(w, w', p, r) && CacheOk(w', r) && w.cache(r).docs <= w'.cache(r).docs {
      assert CacheOk(w, r);
    }
  }

  lemma EditKeeps(w: World, w': World)
    requires Inv(w) && EditTree(w, w')
    ensures Inv(w') && Keeps(w, w')
  {
    forall r ensures CacheOk(w', r) { assert CacheOk(w, r); }
    forall p ensures ProcOk(w', p) { assert ProcOk(w, p); }
  }

  lemma RepointKeeps(w: World, w': World, p: nat, root: nat)
    requires Inv(w) && Repoint(w, w', p, root)
    ensures StepOk(w, w', p)
  {
    assert ProcOk(w, p);
    if Holds(w.proc(p).op) { assert CacheOk(w, w.proc(p).op.root); }
    LocalKeeps(w, w', p);
  }

  lemma CaptureKeeps(w: World, w': World, p: nat, more: Docs)
    requires Inv(w) && Capture(w, w', p, more)
    ensures StepOk(w, w', p)
  {
    assert ProcOk(w, p);
    if Holds(w.proc(p).op) { assert CacheOk(w, w.proc(p).op.root); }
    LocalKeeps(w, w', p);
  }

  lemma StepOfOneKeeps(w: World, w': World, p: nat)
    requires Inv(w) && !Slipped(w) && ProcStep(w, w', p)
    ensures StepOk(w, w', p)
  {
    hide Inv, StepOk, FirstLoad, Gate, Leave, StartReload, TakeEpoch, LoadIndex, SwapLoaded, Lock, GiveUp, SwapBuilt,
         Rewrite, CommitRewrite, Commit, StartRewrite, Check, EnterRw;
    if ApplyWrite(w, w', p) { ApplyKeeps(w, w', p); }
    else if Rewrite(w, w', p) { RewriteKeeps(w, w', p); }
    else if Commit(w, w', p) || CommitRewrite(w, w', p) { CommitKeeps(w, w', p); }
    else if Lock(w, w', p) || GiveUp(w, w', p) || SwapBuilt(w, w', p) { LockingKeeps(w, w', p); }
    else if Check(w, w', p) || EnterRw(w, w', p) || StartRewrite(w, w', p) || Compare(w, w', p) || Refresh(w, w', p) {
      WritingKeeps(w, w', p);
    } else { LoadingKeeps(w, w', p); }
  }

  /** Whatever any process does next, everything stays right and no cache loses a document - as long as no write slipped
      past a re-point. */
  lemma NextKeeps(w: World, w': World)
    requires Inv(w) && !Slipped(w) && Next(w, w')
    ensures Inv(w') && Keeps(w, w')
  {
    hide Inv, ProcStep, StepOk, Keeps, EditTree, Repoint, Capture, Slipped;
    if EditTree(w, w') {
      EditKeeps(w, w');
    } else {
      if p :| ProcStep(w, w', p) {
        StepOfOneKeeps(w, w', p);
        StepKeeps(w, w', p);
      } else if p, root :| Repoint(w, w', p, root) {
        RepointKeeps(w, w', p, root);
        StepKeeps(w, w', p);
      } else {
        var p, more :| Capture(w, w', p, more);
        CaptureKeeps(w, w', p, more);
        StepKeeps(w, w', p);
      }
    }
  }

  // ---- runs ----

  ghost predicate Init(w: World) {
    && (forall r ::
       w.cache(r).gen < w.nextGen && w.cache(r).docs <= w.tree(r) && w.cache(r).writer == None && !w.cache(r).dirty)
    && (forall p :: w.proc(p).op == Idle && w.proc(p).mem == None && w.proc(p).loadedGen == None &&
                   w.proc(p).pending == {})
  }

  ghost predicate IsRun(run: seq<World>) {
    run != [] && Init(run[0]) && forall i :: 0 < i < |run| ==> Next(run[i - 1], run[i])
  }

  lemma {:induction false} RunKeeps(run: seq<World>, n: nat)
    requires IsRun(run) && n < |run| && forall i :: 0 <= i < n ==> !Slipped(run[i])
    ensures Inv(run[n])
    decreases n
  {
    hide Next, Slipped;
    if n == 0 {
      forall r ensures CacheOk(run[0], r) {}
      forall p ensures ProcOk(run[0], p) {}
    } else {
      RunKeeps(run, n - 1);
      NextKeeps(run[n - 1], run[n]);
    }
  }

  /** No commit drops what another writer committed: what a cache once shows, it shows ever after. */
  lemma {:induction false} NothingDropped(run: seq<World>, i: nat, j: nat, r: nat)
    requires IsRun(run) && i <= j < |run| && forall k :: 0 <= k < j ==> !Slipped(run[k])
    ensures run[i].cache(r).docs <= run[j].cache(r).docs
    decreases j - i
  {
    hide Next, Slipped, Inv;
    if i < j {
      NothingDropped(run, i, j - 1, r);
      RunKeeps(run, j - 1);
      NextKeeps(run[j - 1], run[j]);
    }
  }

  /** An edit is applied to an index in memory that holds all that is on disk - and nothing else, unless an earlier
      apply to it failed - by the process that holds the lock of the very cache it writes. */
  lemma AppliedToCurrent(run: seq<World>, n: nat, p: nat)
    requires IsRun(run) && n + 1 < |run| && forall k :: 0 <= k <= n ==> !Slipped(run[k])
    requires ApplyWrite(run[n], run[n + 1], p)
    ensures var s := run[n].proc(p);
            && Covers(s, run[n].cache(s.root).docs) && run[n].cache(s.root).writer == Some(p)
               && !run[n].cache(s.root).dirty
  {
    hide Next;
    RunKeeps(run, n);
    assert ProcOk(run[n], p) && CacheOk(run[n], run[n].proc(p).op.root);
  }

  /** Once it has published a write of its workspace - not re-pointed meanwhile - a process has the index of the token
      on disk in memory, free of any lock: until another process publishes, it need not reload. */
  lemma OwnWriteIsCurrent(w: World, w': World, p: nat)
    requires Inv(w)
    requires var s := w.proc(p);
             || (Commit(w, w', p) && s.op.root == s.root && s.mem.Some?)
             || (SwapBuilt(w, w', p) && s.op.epoch == s.epoch)
    ensures var s := w'.proc(p);
            var c := w'.cache(s.root);
            s.op.Idle? && s.loadedGen == Some(c.gen) && c.writer.None? && !c.dirty && Covers(s, c.docs)
  {
    assert ProcOk(w, p) && CacheOk(w, w.proc(p).root);
  }

  /** What is served is the index of the workspace that the session serves now: nothing built or loaded before a
      re-point is installed after it. */
  lemma ServesItsOwn(run: seq<World>, n: nat, p: nat)
    requires IsRun(run) && n < |run| && forall k :: 0 <= k < n ==> !Slipped(run[k])
    ensures run[n].proc(p).mem.Some? ==> run[n].proc(p).memRoot == run[n].proc(p).root
  {
    hide Next;
    RunKeeps(run, n);
    assert ProcOk(run[n], p);
  }

  // ---- a write that slips past a re-point ----

  function With<V>(f: nat -> V, k: nat, v: V): nat -> V { (x: nat) => if x == k then v else f(x) }

  /** Process p, and cache r, change. */
  lemma Moves(w: World, p: nat, s: Proc, r: nat, c: Cache) returns (w': World)
    ensures w'.nextGen == w.nextGen && SameTree(w, w') && OnlyProc(w, w', p, s) && OnlyCache(w, w', r, c)
  {
    w' := World(With(w.cache, r, c), With(w.proc, p, s), w.nextGen, w.tree);
  }

  lemma Extends(run: seq<World>, w: World)
    requires IsRun(run) && Next(run[|run| - 1], w)
    ensures IsRun(run + [w])
  {
    hide Next, Init;
  }

  const NEW := Cache(0, {}, None, false)

  function Session(root: nat, epoch: nat, mem: Option<Docs>, gen: Option<nat>, op: Op): Proc {
    Proc(root, epoch, {}, mem, root, gen, true, op)
  }

  /** A session that was re-pointed, and has loaded nothing since. */
  function Repointed(op: Op): Proc { Proc(1, 1, {}, None, 0, None, true, op) }

  lemma Did(run: seq<World>, w: World, p: nat)
    requires IsRun(run) && ProcStep(run[|run| - 1], w, p)
    ensures IsRun(run + [w])
  {
    Extends(run, w);
  }

  /** Workspace 1 lies in workspace 0, and so do its edits. A session holds the lock of workspace 0, and looked; then
      it is re-pointed to workspace 1, and enters. */
  lemma Slips() returns (run: seq<World>)
    ensures run != [] && IsRun(run) && var w := run[|run| - 1];
            w.cache(1) == NEW && w.tree(0) == w.tree(1) == {1, 2} && w.proc(0) == Repointed(InRw(0, 0))
            && w.proc(1) == Session(1, 0, None, None, Idle)
  {
    var w0 := World((_: nat) => NEW, (p: nat) => Session(p, 0, None, None, Idle), 1,
                    (r: nat) => if r <= 1 then {1, 2} else {});
    run := [w0];
    assert IsRun(run);
    hide Next, IsRun;
    var w1 := Moves(w0, 0, Session(0, 0, None, None, Gated(0)), 0, NEW);
    Did(run, w1, 0) by { assert Gate(w0, w1, 0); }
    var w2 := Moves(w1, 0, Session(0, 0, None, None, Locked(0, 0)), 0, NEW.(writer := Some(0)));
    Did(run + [w1], w2, 0) by { assert Lock(w1, w2, 0); }
    var w3 := Moves(w2, 0, Session(0, 0, None, None, Checked(0, 0)), 0, NEW.(writer := Some(0)));
    Did(run + [w1] + [w2], w3, 0) by { assert Check(w2, w3, 0); }
    run := run + [w1] + [w2] + [w3];
    var w4 := Moves(w3, 0, Repointed(Checked(0, 0)), 0, NEW.(writer := Some(0)));
    RepointIsNext(w3, w4, 0, 1);
    Extends(run, w4);
    var w5 := Moves(w4, 0, Repointed(InRw(0, 0)), 0, NEW.(writer := Some(0)));
    Did(run + [w4], w5, 0) by { assert EnterRw(w4, w5, 0); }
    run := run + [w4] + [w5];
  }

  lemma RepointIsNext(w: World, w': World, p: nat, root: nat)
    requires Repoint(w, w', p, root)
    ensures Next(w, w')
  {
    hide Repoint, EditTree, ProcStep;
  }

  /** It loads workspace 1, and before it writes it, another process writes it too. */
  lemma WrittenMeanwhile() returns (run: seq<World>)
    ensures run != [] && IsRun(run) && var w := run[|run| - 1];
            w.cache(1) == Cache(0, {2}, Some(1), true) && w.tree(0) == w.tree(1) == {1, 2}
            && w.proc(0) == Session(1, 1, Some({}), Some(0), Refreshed(0, 0))
  {
    hide Next, IsRun;
    run := Slips();
    var w5 := run[|run| - 1];
    var w6 := Moves(w5, 0, Repointed(Refreshing(0, 0, 0)), 1, NEW);
    Did(run, w6, 0) by { assert Compare(w5, w6, 0); }
    var w7 := Moves(w6, 0, Session(1, 1, Some({}), Some(0), Refreshed(0, 0)), 1, NEW);
    Did(run + [w6], w7, 0) by { assert Refresh(w6, w7, 0); }
    run := run + [w6] + [w7];
    var w8 := Moves(w7, 1, Session(1, 0, None, None, Gated(0)), 1, NEW);
    Did(run, w8, 1) by { assert Gate(w7, w8, 1); }
    var w9 := Moves(w8, 1, Session(1, 0, None, None, Locked(0, 1)), 1, NEW.(writer := Some(1)));
    Did(run + [w8], w9, 1) by { assert Lock(w8, w9, 1); }
    var w10 := Moves(w9, 1, Session(1, 0, None, None, Rewriting(0, 1, {})), 1, NEW.(writer := Some(1)));
    Did(run + [w8] + [w9], w10, 1) by { assert StartRewrite(w9, w10, 1); }
    var w11 := Moves(w10, 1, Session(1, 0, None, None, Rewrote(0, 1, {2})), 1, Cache(0, {2}, Some(1), true));
    Did(run + [w8] + [w9] + [w10], w11, 1) by { assert Rewrite(w10, w11, 1); }
    run := run + [w8] + [w9] + [w10] + [w11];
  }

  /** Not so if a session is re-pointed between its look and its entry: it then writes the new workspace's cache under
      the old one's lock, and what another process wrote meanwhile is dropped. */
  lemma SlippedDrops() returns (run: seq<World>)
    ensures run != [] && IsRun(run) && exists i: nat, r ::
            i < |run| && !(run[i].cache(r).docs <= run[|run| - 1].cache(r).docs)
  {
    run := WrittenMeanwhile();
    var n, w := |run| - 1, run[|run| - 1];
    var w' := Moves(w, 0, Session(1, 1, Some({1}), Some(0), Wrote(0, 0)), 1, Cache(0, {1}, Some(1), true));
    assert ApplyWrite(w, w', 0);
    Did(run, w', 0);
    run := run + [w'];
    assert 2 in run[n].cache(1).docs && 2 !in run[|run| - 1].cache(1).docs;
  }
}

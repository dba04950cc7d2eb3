/** A repository's index through its whole history: builds, updates, files indexed by themselves and removals, with
    writes, listings, reads and records of every file in between, by machines whose clocks need not agree. The entries
    of the ledger are those that the trust rule recorded along the way, so whatever an update skips holds the text
    that the index has. */
module RepoHistory {
  import opened Common
  import opened LedgerTrust
  import opened RepoIndex
  import opened RepoUpdate

  /** What is kept for each path, the paths that have an entry, and what happened to each file so far. */
  datatype State = State(kept: string -> Kept, ledger: set<string>, runs: string -> seq<World>)

  datatype Event =
    | BuildAll(w: Walk, network: bool)
    | UpdateAll(w: Walk, again: Walk, at: Place, recordedBy: int)
    | IndexOne(f: Found, at: Place, recordedBy: int)
    | RemoveAll(paths: set<string>)

  function Last<T>(all: seq<T>): T
    requires all != []
  {
    all[|all| - 1]
  }

  // ---- one file ----

  /** More happens to a file, and its entry is what it was. */
  ghost predicate Goes(s: Setup, run: seq<World>, more: seq<World>) {
    run != [] && run <= more && Run(s, more) && Last(more).slot == Last(run).slot
  }

  /** More happens to a file, and its entry is gone in the end. */
  ghost predicate Clears(s: Setup, run: seq<World>, more: seq<World>) {
    run <= more && Run(s, more) && Last(more).slot == None
  }

  /** A listing shows the file as found, and a read of it would give what was found. */
  ghost predicate ListedAs(w: World, f: Found) {
    && w.writes != [] && Latest(w).size == f.size && Latest(w).stamp == f.mtime
    && (f.read.Some? ==> Latest(w).content == AsContent(f.read.value))
  }

  function SizeOf(t: Tools, f: Found, b: Bytes): int {
    if Binary(t, b) && f.size >= STREAM_THRESHOLD then f.size else |b|
  }

  /** A machine has listed, read and hashed the file as found, by a clock of its own. The bound it has on when entries
      were recorded is one, and a ledger that is not on a share is its own. */
  ghost predicate HashedAs(t: Tools, s: Setup, w: World, f: Found, b: Bytes, at: Place, recordedBy: int) {
    && w.visit.Hashed?
    && var v := w.visit;
       var clock := s.skew(v.who);
       && v.size == f.size && v.mtime == f.mtime && v.before == f.before && v.after == f.after
       && v.hash == Verdict(t, b) && v.recordedSize == SizeOf(t, f, b) && s.network(v.who) == at.network
       && f.readStart == v.readStart + clock && f.readStart > 0
       && f.recordedAt == w.now + clock && f.recordedAt > 0
       && (w.slot.Some? && recordedBy > 0 ==> recordedBy >= w.slot.value.at + clock)
       && (w.slot.Some? && !at.cacheDirIsNetwork ==> w.slot.value.who == v.who)
  }

  function Recorded(w: World, e: FileState): World
    requires w.visit.Hashed?
  {
    w.(visit := Idle, slot := Some(Slot(e, w.visit.who, w.now, w.visit.readStart, w.visit.seen)))
  }

  /** What indexing a file does to its run. */
  ghost predicate Indexing(t: Tools, s: Setup, k: Kept, run: seq<World>, f: Found, at: Place, recordedBy: int,
                           k': Kept, run': seq<World>) {
    && k' == Applied(t, f, at, recordedBy, k)
    && match f.read
       case None => if f.size >= STREAM_THRESHOLD then Clears(s, run, run') else Goes(s, run, run')
       case Some(b) =>
         && |run'| > 1 && k'.entry.Some?
         && var more := run'[..|run'| - 1];
            && Goes(s, run, more) && HashedAs(t, s, Last(more), f, b, at, recordedBy)
            && Last(run') == Recorded(Last(more), k'.entry.value)
  }

  /** What an update does about a file that its walk found. */
  ghost predicate Updating(t: Tools, s: Setup, k: Kept, run: seq<World>, f: Found, at: Place, recordedBy: int,
                           k': Kept, run': seq<World>) {
    if Skips(f, recordedBy, at.network, k) then k' == k && Goes(s, run, run') && ListedAs(Last(run'), f)
    else Indexing(t, s, k, run, f, at, recordedBy, k', run')
  }

  /** What a build does about a file: whatever was there before is not asked. */
  ghost predicate Building(t: Tools, s: Setup, run: seq<World>, f: Found, network: bool, k': Kept, run': seq<World>) {
    exists mid :: Clears(s, run, mid) && Indexing(t, s, EMPTY, mid, f, Place(network, false), 0, k', run')
  }

  ghost predicate Gone(s: Setup, run: seq<World>, k': Kept, run': seq<World>) { k' == EMPTY && Clears(s, run, run') }

  ghost predicate Stays(s: Setup, k: Kept, run: seq<World>, k': Kept, run': seq<World>) {
    k' == k && Goes(s, run, run')
  }

  // ---- the repository ----

  ghost predicate Walks(t: Tools, s: Setup, st: State, w: Walk, at: Place, recordedBy: int, st': State) {
    && (forall f <- w.files ::
          Updating(t, s, st.kept(f.rel), st.runs(f.rel), f, at, recordedBy, st'.kept(f.rel), st'.runs(f.rel)))
    && forall p :: p !in Rels(w.files) ==>
         if w.dropped == 0 then Gone(s, st.runs(p), st'.kept(p), st'.runs(p))
         else Stays(s, st.kept(p), st.runs(p), st'.kept(p), st'.runs(p))
  }

  ghost predicate Builds(t: Tools, s: Setup, st: State, w: Walk, network: bool, st': State) {
    && (forall f <- w.files :: Building(t, s, st.runs(f.rel), f, network, st'.kept(f.rel), st'.runs(f.rel)))
    && forall p :: p !in Rels(w.files) ==> Gone(s, st.runs(p), st'.kept(p), st'.runs(p))
  }

  ghost predicate Indexes(t: Tools, s: Setup, st: State, f: Found, at: Place, recordedBy: int, st': State) {
    && Indexing(t, s, st.kept(f.rel), st.runs(f.rel), f, at, recordedBy, st'.kept(f.rel), st'.runs(f.rel))
    && forall p :: p != f.rel ==> Stays(s, st.kept(p), st.runs(p), st'.kept(p), st'.runs(p))
  }

  ghost predicate Removes(s: Setup, st: State, paths: set<string>, st': State) {
    forall p ::
      if p in paths then Gone(s, st.runs(p), st'.kept(p), st'.runs(p))
      else Stays(s, st.kept(p), st.runs(p), st'.kept(p), st'.runs(p))
  }

  ghost predicate LedgerIs(st: State) { forall p :: p in st.ledger <==> st.kept(p).entry.Some? }

  ghost predicate Rebuilds(t: Tools, st: State, w: Walk, at: Place, recordedBy: int) {
    ChangeCount(t, w, at, recordedBy, st.kept, st.ledger) > REBUILD_THRESHOLD
  }

  /** An event takes the repository, and what happened to each file, from one state to another. */
  ghost predicate Step(t: Tools, s: Setup, st: State, e: Event, st': State) {
    && LedgerIs(st')
    && match e
       case BuildAll(w, network) => Once(w.files) && Builds(t, s, st, w, network, st')
       case UpdateAll(w, again, at, recordedBy) =>
         && Once(w.files) && Once(again.files)
         && (exists mid :: UpdateVia(t, s, st, w, again, at, recordedBy, mid, st'))
       case IndexOne(f, at, recordedBy) => Indexes(t, s, st, f, at, recordedBy, st')
       case RemoveAll(paths) => Removes(s, st, paths, st')
  }

  ghost predicate UpdateVia(t: Tools, s: Setup, st: State, w: Walk, again: Walk, at: Place, recordedBy: int, mid: State,
                            st': State) {
    && Walks(t, s, st, w, at, recordedBy, mid)
    && if Rebuilds(t, st, w, at, recordedBy) then Builds(t, s, mid, again, at.network, st') else st' == mid
  }

  /** Nothing is kept yet, and each file has been written. */
  ghost predicate Start(s: Setup, st: State) {
    LedgerIs(st) && forall p :: st.kept(p) == EMPTY && Run(s, st.runs(p)) && Last(st.runs(p)).slot == None
  }

  ghost predicate History(t: Tools, s: Setup, events: seq<Event>, states: seq<State>) {
    && |states| == |events| + 1 && Start(s, states[0])
    && forall i :: 0 <= i < |events| ==> Step(t, s, states[i], events[i], states[i + 1])
  }

  /** What the world must grant, of every file. */
  ghost predicate Granted(s: Setup, st: State) {
    forall p :: st.runs(p) != [] && StampsLagLittle(s, Last(st.runs(p))) && TicksAreShort(Last(st.runs(p)))
  }

  ghost predicate HashIs(t: Tools, s: Setup) { forall b: Bytes :: s.hash(AsContent(b)) == Verdict(t, b) }

  // ---- the ledger's entries are those that the trust rule recorded ----

  ghost predicate Follows(s: Setup, k: Kept, run: seq<World>) {
    && Run(s, run)
    && match k.entry
       case None => Last(run).slot == None
       case Some(e) => Last(run).slot.Some? && Last(run).slot.value.entry == e && e.hashedAt > 0
  }

  ghost predicate Tracks(s: Setup, st: State) {
    LedgerIs(st) && forall p :: Follows(s, st.kept(p), st.runs(p))
  }

  /** Only where the prior entry is pending does it matter whose clock it was recorded by. */
  lemma OursOnlyForPending(read: ReadStamp, network: bool, prior: Option<FileState>, bound: int, size: int,
                           hash: string, ours: bool)
    requires prior.Some? ==> prior.value.mtime >= 0
    ensures Record(read, network, prior, bound, size, hash, true) ==
            Record(read, network, prior, bound, size, hash, ours)
  {}

  /** Indexing a file that was read records its entry as the trust rule does. */
  lemma RecordsByRule(t: Tools, s: Setup, k: Kept, more: seq<World>, f: Found, at: Place, recordedBy: int, b: Bytes)
    requires Follows(s, k, more) && f.read == Some(b) && HashedAs(t, s, Last(more), f, b, at, recordedBy)
    ensures Last(more).visit.Hashed?
    ensures var e := Applied(t, f, at, recordedBy, k).entry;
            e.Some? && Follows(s, Applied(t, f, at, recordedBy, k), more + [Recorded(Last(more), e.value)])
  {
    hide Binary, Verdict, Decide, Init, Made;
    var w := Last(more);
    var k' := Applied(t, f, at, recordedBy, k);
    var w' := Recorded(w, k'.entry.value);
    var read := ReadStamp(f.size, f.mtime, f.before, f.after, f.readStart, f.recordedAt);
    var ours := k.entry.Some? && k.entry.value.mtime < 0 && !at.cacheDirIsNetwork;
    EntryIs(t, f, at, recordedBy, k, b);
    if !(k.entry.Some? && k.entry.value.mtime < 0) {
      OursOnlyForPending(read, at.network, k.entry, recordedBy, SizeOf(t, f, b), Verdict(t, b), ours);
    }
    assert k'.entry.value == Record(read, at.network, k.entry, recordedBy, SizeOf(t, f, b), Verdict(t, b), ours);
    assert RecordEntry(s, w, w', recordedBy, ours);
    RunGoesOn(s, more, w');
  }

  lemma EntryIs(t: Tools, f: Found, at: Place, recordedBy: int, k: Kept, b: Bytes)
    requires f.read == Some(b)
    ensures Applied(t, f, at, recordedBy, k).entry ==
            Some(Rec(f, at, k.entry, recordedBy, SizeOf(t, f, b), Verdict(t, b)))
  {
    hide Rec, Binary;
  }

  lemma RunGoesOn(s: Setup, run: seq<World>, w: World)
    requires Run(s, run) && Next(s, Last(run), w)
    ensures Run(s, run + [w])
  {
    hide Next, Init;
    var run' := run + [w];
    forall i | 0 < i < |run'| ensures Next(s, run'[i - 1], run'[i]) {
      if i < |run| { assert run'[i - 1] == run[i - 1] && run'[i] == run[i]; }
    }
  }

  lemma IndexingFollows(t: Tools, s: Setup, k: Kept, run: seq<World>, f: Found, at: Place, recordedBy: int, k': Kept,
                        run': seq<World>)
    requires Follows(s, k, run) && Indexing(t, s, k, run, f, at, recordedBy, k', run')
    ensures Follows(s, k', run') && run <= run'
  {
    hide Run, HashedAs, Rec, Binary, Made;
    if f.read.Some? {
      var more := run'[..|run'| - 1];
      assert Follows(s, k, more);
      RecordsByRule(t, s, k, more, f, at, recordedBy, f.read.value);
      assert run' == more + [Recorded(Last(more), k'.entry.value)];
    }
  }

  lemma UpdatingFollows(t: Tools, s: Setup, k: Kept, run: seq<World>, f: Found, at: Place, recordedBy: int, k': Kept,
                        run': seq<World>)
    requires Follows(s, k, run) && Updating(t, s, k, run, f, at, recordedBy, k', run')
    ensures Follows(s, k', run') && run <= run'
  {
    hide Run, Indexing, Skips;
    if !Skips(f, recordedBy, at.network, k) { IndexingFollows(t, s, k, run, f, at, recordedBy, k', run'); }
  }

  lemma BuildingFollows(t: Tools, s: Setup, run: seq<World>, f: Found, network: bool, k': Kept, run': seq<World>)
    requires Building(t, s, run, f, network, k', run')
    ensures Follows(s, k', run') && run <= run'
  {
    hide Run, Indexing;
    var mid :| Clears(s, run, mid) && Indexing(t, s, EMPTY, mid, f, Place(network, false), 0, k', run');
    IndexingFollows(t, s, EMPTY, mid, f, Place(network, false), 0, k', run');
  }

  ghost predicate Grows(st: State, st': State) { forall p :: st.runs(p) <= st'.runs(p) }

  ghost predicate AllFollow(s: Setup, st: State) { forall p :: Follows(s, st.kept(p), st.runs(p)) }

  lemma WalksFollow(t: Tools, s: Setup, st: State, w: Walk, at: Place, recordedBy: int, st': State)
    requires AllFollow(s, st) && Walks(t, s, st, w, at, recordedBy, st')
    ensures AllFollow(s, st') && Grows(st, st')
  {
    hide Run, Updating;
    forall p ensures Follows(s, st'.kept(p), st'.runs(p)) && st.runs(p) <= st'.runs(p) {
      if p in Rels(w.files) {
        var f :| f in w.files && f.rel == p;
        UpdatingFollows(t, s, st.kept(p), st.runs(p), f, at, recordedBy, st'.kept(p), st'.runs(p));
      }
    }
  }

  lemma BuildsFollow(t: Tools, s: Setup, st: State, w: Walk, network: bool, st': State)
    requires Builds(t, s, st, w, network, st')
    ensures AllFollow(s, st') && Grows(st, st')
  {
    hide Run, Building;
    forall p ensures Follows(s, st'.kept(p), st'.runs(p)) && st.runs(p) <= st'.runs(p) {
      if p in Rels(w.files) {
        var f :| f in w.files && f.rel == p;
        BuildingFollows(t, s, st.runs(p), f, network, st'.kept(p), st'.runs(p));
      }
    }
  }

  lemma IndexesFollow(t: Tools, s: Setup, st: State, f: Found, at: Place, recordedBy: int, st': State)
    requires AllFollow(s, st) && Indexes(t, s, st, f, at, recordedBy, st')
    ensures AllFollow(s, st') && Grows(st, st')
  {
    hide Run, Indexing;
    forall p ensures Follows(s, st'.kept(p), st'.runs(p)) && st.runs(p) <= st'.runs(p) {
      if p == f.rel {
        IndexingFollows(t, s, st.kept(p), st.runs(p), f, at, recordedBy, st'.kept(p), st'.runs(p));
      }
    }
  }

  lemma RemovesFollow(s: Setup, st: State, paths: set<string>, st': State)
    requires AllFollow(s, st) && Removes(s, st, paths, st')
    ensures AllFollow(s, st') && Grows(st, st')
  {
    hide Run;
    forall p ensures Follows(s, st'.kept(p), st'.runs(p)) && st.runs(p) <= st'.runs(p) {}
  }

  lemma StepTracks(t: Tools, s: Setup, st: State, e: Event, st': State)
    requires Tracks(s, st) && Step(t, s, st, e, st')
    ensures Tracks(s, st') && Grows(st, st')
  {
    hide Follows, Walks, Builds, Indexes, Removes, Rebuilds;
    match e
    case BuildAll(w, network) => BuildsFollow(t, s, st, w, network, st');
    case UpdateAll(w, again, at, recordedBy) =>
      var mid :| UpdateVia(t, s, st, w, again, at, recordedBy, mid, st');
      WalksFollow(t, s, st, w, at, recordedBy, mid);
      if Rebuilds(t, st, w, at, recordedBy) { BuildsFollow(t, s, mid, again, at.network, st'); }
    case IndexOne(f, at, recordedBy) => IndexesFollow(t, s, st, f, at, recordedBy, st');
    case RemoveAll(paths) => RemovesFollow(s, st, paths, st');
  }

  /** After any history, the entry of every path is one that the trust rule recorded, in a run of its file. */
  lemma {:induction false} HistoryTracks(t: Tools, s: Setup, events: seq<Event>, states: seq<State>)
    requires History(t, s, events, states)
    ensures Tracks(s, Last(states))
  {
    hide Step, Run;
    if events != [] {
      var n := |events| - 1;
      HistoryTracks(t, s, events[..n], states[..n + 1]);
      assert Step(t, s, states[n], events[n], states[n + 1]);
      StepTracks(t, s, states[n], events[n], states[n + 1]);
    }
  }

  // ---- so an update's precondition follows from the repository's own history ----

  /** What is granted at the end was granted all along. */
  lemma GrantedBefore(s: Setup, run: seq<World>, more: seq<World>)
    requires run != [] && run <= more && Run(s, more)
    requires StampsLagLittle(s, Last(more)) && TicksAreShort(Last(more))
    ensures StampsLagLittle(s, Last(run)) && TicksAreShort(Last(run))
  {
    WritesGrow(s, more, |run| - 1);
    var w, w' := Last(run), Last(more);
    assert w == more[|run| - 1];
    assert forall i :: 0 <= i < |w.writes| ==> w.writes[i] == w'.writes[i];
  }

  /** Whatever an entry that is followed lets an update skip holds the text that was hashed. */
  lemma FollowedIsTrusted(t: Tools, s: Setup, k: Kept, run: seq<World>, f: Found, recordedBy: int, network: bool)
    requires HashIs(t, s) && Follows(s, k, run) && ListedAs(Last(run), f)
    requires StampsLagLittle(s, Last(run)) && TicksAreShort(Last(run))
    ensures Trusted(t, k, f, recordedBy, network)
  {
    hide Run, StampsLagLittle, TicksAreShort, Verdict, AsContent, MatchesListing;
    if k.entry.Some? {
      TrustedByRuns(t, s, run, k.entry.value, f, recordedBy, network);
      assert Trusted(t, Kept(k.parts, Some(k.entry.value)), f, recordedBy, network);
    }
  }

  /** After any history, whatever happens next: the entry of every path may stand in for its file at the next
      listing. */
  lemma TrustedAfter(t: Tools, s: Setup, events: seq<Event>, states: seq<State>, f: Found, more: seq<World>,
                     recordedBy: int, network: bool)
    requires HashIs(t, s) && History(t, s, events, states)
    requires Goes(s, Last(states).runs(f.rel), more) && ListedAs(Last(more), f)
    requires StampsLagLittle(s, Last(more)) && TicksAreShort(Last(more))
    ensures Trusted(t, Last(states).kept(f.rel), f, recordedBy, network)
  {
    hide Run, Trusted, ListedAs, HashIs, StampsLagLittle, TicksAreShort;
    HistoryTracks(t, s, events, states);
    assert Follows(s, Last(states).kept(f.rel), Last(states).runs(f.rel));
    assert Follows(s, Last(states).kept(f.rel), more);
    FollowedIsTrusted(t, s, Last(states).kept(f.rel), more, f, recordedBy, network);
  }

  // ---- the histories of a real repository ----

  ghost predicate Holds(repo: Repo, st: State)
    reads repo
  {
    forall p :: repo.At(p) == st.kept(p)
  }

  lemma {:induction false} GrowsOn(t: Tools, s: Setup, events: seq<Event>, states: seq<State>, i: nat)
    requires History(t, s, events, states) && i <= |events|
    ensures Tracks(s, states[i]) && Grows(states[i], Last(states))
    decreases |events| - i
  {
    hide Step, Tracks;
    assert History(t, s, events[..i], states[..i + 1]);
    HistoryTracks(t, s, events[..i], states[..i + 1]);
    if i < |events| {
      GrowsOn(t, s, events, states, i + 1);
      StepTracks(t, s, states[i], events[i], states[i + 1]);
    }
  }

  lemma GrantedEarlier(s: Setup, st: State, last: State)
    requires Granted(s, last) && AllFollow(s, last) && Grows(st, last) && forall p :: st.runs(p) != []
    ensures Granted(s, st)
  {
    hide Run, StampsLagLittle, TicksAreShort;
    forall p ensures StampsLagLittle(s, Last(st.runs(p))) && TicksAreShort(Last(st.runs(p))) {
      assert Follows(s, last.kept(p), last.runs(p));
      assert st.runs(p) <= last.runs(p);
      GrantedBefore(s, st.runs(p), last.runs(p));
    }
  }

  lemma WalkIsTrusted(t: Tools, s: Setup, st: State, w: Walk, at: Place, recordedBy: int, mid: State)
    requires HashIs(t, s) && AllFollow(s, st) && Walks(t, s, st, w, at, recordedBy, mid) && Granted(s, mid)
    ensures forall f <- w.files :: Trusted(t, st.kept(f.rel), f, recordedBy, at.network)
    ensures forall f <- w.files :: mid.kept(f.rel) == Updated(t, f, at, recordedBy, st.kept(f.rel))
  {
    hide Run, StampsLagLittle, TicksAreShort, HashIs, ListedAs, HashedAs, MatchesListing, Applied, Verdict;
    WalksFollow(t, s, st, w, at, recordedBy, mid);
    forall f <- w.files
      ensures Trusted(t, st.kept(f.rel), f, recordedBy, at.network)
      ensures mid.kept(f.rel) == Updated(t, f, at, recordedBy, st.kept(f.rel))
    {
      assert Updating(t, s, st.kept(f.rel), st.runs(f.rel), f, at, recordedBy, mid.kept(f.rel), mid.runs(f.rel));
      if Skips(f, recordedBy, at.network, st.kept(f.rel)) {
        assert Follows(s, mid.kept(f.rel), mid.runs(f.rel));
        FollowedIsTrusted(t, s, mid.kept(f.rel), mid.runs(f.rel), f, recordedBy, at.network);
      }
    }
  }

  lemma BuildIs(t: Tools, s: Setup, st: State, w: Walk, network: bool, st': State)
    requires Builds(t, s, st, w, network, st')
    ensures BuiltAs(t, w.files, network, st'.kept)
  {
    hide Run, HashedAs, Applied;
  }

  lemma SameCount(t: Tools, st: State, w: Walk, at: Place, recordedBy: int, was: string -> Kept, ledger: set<string>)
    requires LedgerIs(st) && (forall p :: was(p) == st.kept(p)) && forall p :: p in ledger <==> was(p).entry.Some?
    ensures Rebuilds(t, st, w, at, recordedBy) <==> ChangeCount(t, w, at, recordedBy, was, ledger) > REBUILD_THRESHOLD
  {
    hide Updated;
    assert ledger == st.ledger;
    assert Changed(t, w.files, at, recordedBy, was) == Changed(t, w.files, at, recordedBy, st.kept);
  }

  /** One event, done to the repository itself. An update asks nothing of the repository but that the events so far
      were done to it. */
  method Perform(t: Tools, ghost s: Setup, repo: Repo, e: Event, ghost st: State, ghost st': State)
      returns (now: Repo)
    requires ToolsOk(t) && HashIs(t, s) && Tracks(s, st) && Step(t, s, st, e, st') && Granted(s, st')
    requires repo.Valid(t) && Holds(repo, st)
    modifies repo
    ensures (now == repo || fresh(now)) && now.Valid(t) && Holds(now, st')
  {
    match e
    case BuildAll(w, network) => now := PerformBuild(t, s, w, network, st, st');
    case UpdateAll(w, again, at, recordedBy) =>
      now := PerformUpdate(t, s, repo, w, again, at, recordedBy, st, st');
    case IndexOne(f, at, recordedBy) =>
      PerformIndex(t, s, repo, f, at, recordedBy, st, st');
      now := repo;
    case RemoveAll(paths) =>
      PerformRemove(t, s, repo, paths, st, st');
      now := repo;
  }

  method PerformBuild(t: Tools, ghost s: Setup, w: Walk, network: bool, ghost st: State, ghost st': State)
      returns (now: Repo)
    requires ToolsOk(t) && Once(w.files) && Builds(t, s, st, w, network, st')
    ensures fresh(now) && now.Valid(t) && Holds(now, st')
  {
    hide Builds, Applied, InStep;
    now := Build(t, w, network);
    BuildIs(t, s, st, w, network, st');
    AllIsAt(now);
    BuiltAlike(t, w.files, network, All(now), st'.kept);
  }

  lemma BuiltAlike(t: Tools, files: seq<Found>, network: bool, a: string -> Kept, b: string -> Kept)
    requires BuiltAs(t, files, network, a) && BuiltAs(t, files, network, b)
    ensures forall p :: a(p) == b(p)
  {
    hide Applied;
  }

  method PerformUpdate(t: Tools, ghost s: Setup, repo: Repo, w: Walk, again: Walk, at: Place, recordedBy: int,
                       ghost st: State, ghost st': State) returns (now: Repo)
    requires ToolsOk(t) && HashIs(t, s) && Tracks(s, st) && Granted(s, st')
    requires Step(t, s, st, UpdateAll(w, again, at, recordedBy), st') && repo.Valid(t) && Holds(repo, st)
    modifies repo
    ensures (now == repo || fresh(now)) && now.Valid(t) && Holds(now, st')
  {
    hide Follows, Walks, Builds, Granted, Rebuilds, Updated, Applied, Trusted, InStep, HashIs;
    ghost var mid :| UpdateVia(t, s, st, w, again, at, recordedBy, mid, st');
    ghost var was, ledger := All(repo), repo.ledger.Keys;
    AllIsAt(repo);
    MidGranted(t, s, st, w, again, at, recordedBy, mid, st');
    WalkIsTrusted(t, s, st, w, at, recordedBy, mid);
    WalkLeaves(t, s, st, w, at, recordedBy, mid);
    SameCount(t, st, w, at, recordedBy, was, ledger);
    var rebuilt, touched;
    now, rebuilt, touched := Update(t, repo, w, again, at, recordedBy);
    AllIsAt(now);
    if rebuilt {
      BuildIs(t, s, mid, again, at.network, st');
      BuiltAlike(t, again.files, at.network, All(now), st'.kept);
    } else {
      UpdatedAlike(t, w, at, recordedBy, was, All(now), st, mid);
    }
  }

  lemma MidGranted(t: Tools, s: Setup, st: State, w: Walk, again: Walk, at: Place, recordedBy: int, mid: State,
                   st': State)
    requires Tracks(s, st) && UpdateVia(t, s, st, w, again, at, recordedBy, mid, st') && Granted(s, st')
    ensures Granted(s, mid)
  {
    hide Follows, Walks, Builds, Rebuilds, Granted;
    WalksFollow(t, s, st, w, at, recordedBy, mid);
    if Rebuilds(t, st, w, at, recordedBy) {
      BuildsFollow(t, s, mid, again, at.network, st');
      FollowedRuns(s, mid);
      GrantedEarlier(s, mid, st');
    }
  }

  lemma FollowedRuns(s: Setup, st: State)
    requires AllFollow(s, st)
    ensures forall p :: st.runs(p) != []
  {
    forall p ensures st.runs(p) != [] { assert Follows(s, st.kept(p), st.runs(p)); }
  }

  lemma WalkLeaves(t: Tools, s: Setup, st: State, w: Walk, at: Place, recordedBy: int, mid: State)
    requires Walks(t, s, st, w, at, recordedBy, mid)
    ensures UpdatedAs(t, w, at, recordedBy, st.kept, mid.kept)
  {
    hide Run, HashedAs, ListedAs, Skips, Applied;
  }

  lemma UpdatedAlike(t: Tools, w: Walk, at: Place, recordedBy: int, was: string -> Kept, now: string -> Kept,
                     st: State, mid: State)
    requires UpdatedAs(t, w, at, recordedBy, was, now) && UpdatedAs(t, w, at, recordedBy, st.kept, mid.kept)
    requires forall p :: was(p) == st.kept(p)
    ensures forall p :: now(p) == mid.kept(p)
  {
    hide Updated;
  }

  method PerformIndex(t: Tools, ghost s: Setup, repo: Repo, f: Found, at: Place, recordedBy: int, ghost st: State,
                      ghost st': State)
    requires ToolsOk(t) && Indexes(t, s, st, f, at, recordedBy, st') && repo.Valid(t) && Holds(repo, st)
    modifies repo
    ensures repo.Valid(t) && Holds(repo, st')
  {
    hide InStep, Applied, Run, HashedAs, Binary;
    AppliedShows(t, f, at, recordedBy, repo.At(f.rel));
    var kind, unread := repo.ApplyExistingFile(t, f, at, recordedBy);
  }

  method PerformRemove(t: Tools, ghost s: Setup, repo: Repo, paths: set<string>, ghost st: State, ghost st': State)
    requires Removes(s, st, paths, st') && repo.Valid(t) && Holds(repo, st)
    modifies repo
    ensures repo.Valid(t) && Holds(repo, st')
  {
    hide InStep, Run;
    RemovePaths(repo, paths);
    NothingInStep(t);
  }

  /** Over every history of builds, updates, files indexed by themselves and removals, with anything happening to the
      files in between: the repository holds what the history says, and each of its updates may skip what it skips. */
  method Replay(t: Tools, ghost s: Setup, events: seq<Event>, ghost states: seq<State>) returns (repo: Repo)
    requires ToolsOk(t) && HashIs(t, s) && History(t, s, events, states) && Granted(s, Last(states))
    ensures fresh(repo) && repo.Valid(t) && Holds(repo, Last(states)) && Tracks(s, Last(states))
  {
    hide InStep, Step, Tracks, Granted, HashIs;
    repo := new Repo();
    NothingInStep(t);
    for i := 0 to |events|
      invariant fresh(repo) && repo.Valid(t) && Holds(repo, states[i])
    {
      StateIs(t, s, events, states, i);
      StateIs(t, s, events, states, i + 1);
      repo := Perform(t, s, repo, events[i], states[i], states[i + 1]);
    }
    HistoryTracks(t, s, events, states);
  }

  lemma StateIs(t: Tools, s: Setup, events: seq<Event>, states: seq<State>, i: nat)
    requires History(t, s, events, states) && Granted(s, Last(states)) && i <= |events|
    ensures Tracks(s, states[i]) && Granted(s, states[i])
  {
    hide Step, Granted, Follows;
    GrowsOn(t, s, events, states, i);
    HistoryTracks(t, s, events, states);
    FollowedRuns(s, states[i]);
    GrantedEarlier(s, states[i], Last(states));
  }

  /** A walk's file is one that a listing shows, after whatever happened since the last event. */
  ghost predicate Shown(s: Setup, st: State, f: Found) {
    exists more :: ShownBy(s, st, f, more)
  }

  ghost predicate ShownBy(s: Setup, st: State, f: Found, more: seq<World>) {
    && Goes(s, st.runs(f.rel), more) && ListedAs(Last(more), f)
    && StampsLagLittle(s, Last(more)) && TicksAreShort(Last(more))
  }

  /** After every history, an update from a walk that shows the files as they are leaves the index as a build would. */
  method UpdateAfter(t: Tools, ghost s: Setup, events: seq<Event>, ghost states: seq<State>, w: Walk, again: Walk,
                     at: Place, recordedBy: int) returns (now: Repo, rebuilt: bool)
    requires ToolsOk(t) && HashIs(t, s) && History(t, s, events, states) && Granted(s, Last(states))
    requires Once(w.files) && Once(again.files)
    requires forall f <- w.files :: Shown(s, Last(states), f)
    ensures now.Valid(t)
    ensures if rebuilt then Fresh(t, now, again.files) else Complete(w) ==> Fresh(t, now, w.files)
  {
    hide InStep, Step, Tracks, Granted, HashIs, Trusted, ChangeCount, Updated, BuiltAs, UpdatedAs, Fresh,
         ListedAs, Goes;
    var repo := Replay(t, s, events, states);
    forall f <- w.files ensures Trusted(t, repo.At(f.rel), f, recordedBy, at.network) {
      var more :| ShownBy(s, Last(states), f, more);
      TrustedAfter(t, s, events, states, f, more, recordedBy, at.network);
    }
    var touched;
    now, rebuilt, touched := Update(t, repo, w, again, at, recordedBy);
  }

  // ---- and what is left alone comes to be skipped ----

  /** A file that was read as it was listed, its handle saying the same before and after. */
  predicate ReadStably(f: Found, b: Bytes) {
    && f.read == Some(b) && f.size == |b| && f.readStart > 0
    && Stable(ReadStamp(f.size, f.mtime, f.before, f.after, f.readStart, f.recordedAt), f.size)
  }

  function CtimeOf(f: Found): int { if f.before.Known() then f.before.ctime else 0 }

  predicate Settles(f: Found, network: bool) { FirstLook(f.mtime, CtimeOf(f), f.readStart, network) }

  /** The second look, from when the pending entry was recorded: the time in the entry where the ledger is not on a
      share, and otherwise the bound that the reader has on all of them. */
  predicate SettlesSince(f1: Found, f2: Found, at: Place, recordedBy: int) {
    var anchor := if at.cacheDirIsNetwork || f1.recordedAt <= 0 then recordedBy else f1.recordedAt;
    anchor > 0 && f2.readStart >= anchor + SETTLE_MARGIN
  }

  lemma FirstEntry(t: Tools, f: Found, at: Place, recordedBy: int, k: Kept, b: Bytes)
    requires ReadStably(f, b) && k.entry.None?
    ensures var e := Applied(t, f, at, recordedBy, k).entry;
            && e.Some? && e.value.size == f.size && e.value.ctime == CtimeOf(f)
            && e.value.mtime == (if Settles(f, at.network) then f.mtime else -f.mtime)
            && e.value.hashedAt == (if Settles(f, at.network) then f.readStart else f.recordedAt)
            && e.value.fileId == (if f.before.Known() then f.before.fileId else 0)
  {
    hide Binary, Verdict;
    EntryIs(t, f, at, recordedBy, k, b);
  }

  /** A file that was modified close before it was first read is pending: no listing whatever lets an update skip it. */
  lemma RacyIsReadAgain(t: Tools, f: Found, at: Place, recordedBy: int, k: Kept, b: Bytes)
    requires ReadStably(f, b) && k.entry.None?
    ensures (forall f', recordedBy', network :: !Skips(f', recordedBy', network, Applied(t, f, at, recordedBy, k)))
            <==> !Settles(f, at.network)
  {
    hide Applied;
    FirstEntry(t, f, at, recordedBy, k, b);
    if Settles(f, at.network) { assert Skips(f, recordedBy, at.network, Applied(t, f, at, recordedBy, k)); }
  }

  /** A file left alone, read twice: a later update skips it exactly where it is listed as it was, and the second read
      came safely after its times, or a settle margin after the first was recorded as pending. */
  lemma SkippedAfterTwo(t: Tools, f1: Found, f2: Found, f3: Found, at1: Place, at: Place, recordedBy1: int,
                        recordedBy2: int, recordedBy3: int, k: Kept, b: Bytes)
    requires ReadStably(f1, b) && ReadStably(f2, b) && k.entry.None? && at1.network == at.network
    requires f1.mtime == f2.mtime && f1.before == f2.before
    ensures var k1 := Applied(t, f1, at1, recordedBy1, k);
            Skips(f3, recordedBy3, at.network, Applied(t, f2, at, recordedBy2, k1)) <==>
            && f3.size == |b| && f3.mtime == f1.mtime
            && (|| Settles(f2, at.network)
                || (!Settles(f1, at.network) && SettlesSince(f1, f2, at, recordedBy2)))
  {
    hide Binary, Verdict, Made;
    var k1 := Applied(t, f1, at1, recordedBy1, k);
    FirstEntry(t, f1, at1, recordedBy1, k, b);
    EntryIs(t, f2, at, recordedBy2, k1, b);
  }

  /** A file left alone, that a build read and an update met again: the next update skips it exactly where it is
      listed as it was, and one of the two reads came safely after its times, or the second a settle margin after the
      first was recorded. */
  lemma LeftAlone(t: Tools, f1: Found, f2: Found, f3: Found, at: Place, recordedBy2: int, recordedBy3: int, b: Bytes)
    requires ReadStably(f1, b) && ReadStably(f2, b)
    requires f1.mtime == f2.mtime && f1.before == f2.before
    ensures var k1 := Applied(t, f1, Place(at.network, false), 0, EMPTY);
            var k2 := Updated(t, f2, at, recordedBy2, k1);
            Skips(f3, recordedBy3, at.network, k2) <==>
            && f3.size == |b| && f3.mtime == f1.mtime
            && (Settles(f1, at.network) || Settles(f2, at.network) || SettlesSince(f1, f2, at, recordedBy2))
  {
    hide Applied;
    FirstEntry(t, f1, Place(at.network, false), 0, EMPTY, b);
    SkippedAfterTwo(t, f1, f2, f3, Place(at.network, false), at, 0, recordedBy2, recordedBy3, EMPTY, b);
  }
}

/** Runs of EditSteps that end with an edit nowhere, and no note. */
module EditsLost {
  import opened Common
  import opened PendingEdits
  import opened EditSteps
  import opened EditRuns

  function NoneShown(): string -> nat { _ => 0 }

  function Start(): (s: Sys)
    ensures Initial(s)
  {
    Sys(Started(0), false, map[], None, Disk(NoneShown(), 0, false), 1, {}, {}, {}, false)
  }

  /** A cache that was built before the edits were made. */
  const UNREAD := Disk(Later(NoneShown(), 2), 2, false)

  function Loaded(): Sys { Start().(f := Started(0).(state := Ready, serving := true)) }

  /** An index is served; while it is, another process builds the cache anew. */
  function Fresh(): Sys { Loaded().(disk := UNREAD, now := 3) }

  lemma FirstSteps()
    ensures Leads(Start(), Load, Loaded()) && Leads(Loaded(), Tick, Loaded().(now := 2))
    ensures Leads(Loaded().(now := 2), OtherStarts, Loaded().(now := 2, other := Some(2)))
  {}

  lemma NextSteps()
    ensures Leads(Loaded().(now := 2, other := Some(2)), OtherFinishes, Loaded().(now := 2, disk := UNREAD))
    ensures Leads(Loaded().(now := 2, disk := UNREAD), Tick, Fresh())
  {}

  lemma BuiltBefore() returns (steps: seq<Step>)
    ensures Reaches(Start(), steps, Fresh())
  {
    FirstSteps();
    NextSteps();
    assert Reaches(Start(), [], Start());
    hide Leads, Reaches, Loaded, Fresh, Start;
    Then(Start(), [], Start(), Load, Loaded());
    Then(Start(), [] + [Load], Loaded(), Tick, Loaded().(now := 2));
    steps := [] + [Load] + [Tick];
    Then(Start(), steps, Loaded().(now := 2), OtherStarts, Loaded().(now := 2, other := Some(2)));
    steps := steps + [OtherStarts];
    Then(Start(), steps, Loaded().(now := 2, other := Some(2)), OtherFinishes, Loaded().(now := 2, disk := UNREAD));
    steps := steps + [OtherFinishes];
    Then(Start(), steps, Loaded().(now := 2, disk := UNREAD), Tick, Fresh());
    steps := steps + [Tick];
  }

  /** One callback is about its batch. */
  function Served(b: Batch, at: Place, gated: bool): Sys {
    Fresh().(told := b.edits, threads := map[0 := Callback(0, b).(at := at, gated := gated, locked := gated)])
  }

  lemma Arrives(b: Batch)
    requires forall e <- b.edits :: e.at <= 3 && e.epoch == 0
    ensures Leads(Fresh(), Arrive(0, b), Served(b, Told, false))
  {}

  lemma Comes(b: Batch) returns (steps: seq<Step>)
    requires forall e <- b.edits :: e.at <= 3 && e.epoch == 0
    ensures Reaches(Start(), steps, Served(b, Told, false))
  {
    Arrives(b);
    steps := BuiltBefore();
    hide Leads, Reaches, Fresh, Start, Served;
    Then(Start(), steps, Fresh(), Arrive(0, b), Served(b, Told, false));
    steps := steps + [Arrive(0, b)];
  }

  lemma Enters(b: Batch)
    ensures Leads(Served(b, Told, false), Look(0), Served(b, Passed, false))
    ensures Leads(Served(b, Passed, false), ReadState(0), Served(b, Queued, false))
  {}

  lemma HasGates(b: Batch)
    ensures Leads(Served(b, Queued, false), Enter(0), Served(b, Entered, true))
  {}

  lemma IsFree(b: Batch)
    ensures Leads(Served(b, Entered, true), Look(0), Served(b, Clear, true))
  {}

  /** An index is loaded, and a callback comes to hold the gates with its batch. */
  lemma Holds(b: Batch) returns (steps: seq<Step>)
    requires forall e <- b.edits :: e.at <= 3 && e.epoch == 0
    ensures Reaches(Start(), steps, Served(b, Clear, true))
  {
    hide Leads, Reaches, Fresh, Start, Served;
    steps := Comes(b);
    Enters(b);
    HasGates(b);
    IsFree(b);
    Then(Start(), steps, Served(b, Told, false), Look(0), Served(b, Passed, false));
    Then(Start(), steps + [Look(0)], Served(b, Passed, false), ReadState(0), Served(b, Queued, false));
    steps := steps + [Look(0)] + [ReadState(0)];
    Then(Start(), steps, Served(b, Queued, false), Enter(0), Served(b, Entered, true));
    Then(Start(), steps + [Enter(0)], Served(b, Entered, true), Look(0), Served(b, Clear, true));
    steps := steps + [Enter(0)] + [Look(0)];
  }

  const E0 := Edit("a.cs", 3, 0)

  /** An apply that throws forgets an edit: it is on no list, and only a log line tells. */
  lemma ThrowForgets() returns (steps: seq<Step>)
    ensures IsRun(Start(), steps) && var s := End(Start(), steps);
            E0 in s.told && Live(s, E0) && !Safe(s, E0) && !s.f.note.on
  {
    var b := Batch(false, {E0});
    steps := Holds(b);
    var step := Section(0, Fine, Threw, false);
    var s := Served(b, Clear, true);
    assert Leads(s, step, After(s, step));
    assert !Safe(After(s, step), E0) && Live(After(s, step), E0) && E0 in After(s, step).told;
    Then(Start(), steps, s, step, After(s, step));
    steps := steps + [step];
  }

  /** So does a callback that throws before it comes to apply its batch. */
  lemma CallbackThrowForgets() returns (steps: seq<Step>)
    ensures IsRun(Start(), steps) && var s := End(Start(), steps);
            E0 in s.told && Live(s, E0) && !Safe(s, E0) && !s.f.note.on
  {
    var b := Batch(false, {E0});
    steps := Holds(b);
    var s := Served(b, Clear, true);
    var s' := Thrown(s, 0, s.threads[0]);
    assert Leads(s, Throw(0), s');
    assert !Safe(s', E0) && Live(s', E0) && E0 in s'.told && !s'.f.note.on;
    Then(Start(), steps, s, Throw(0), s');
    steps := steps + [Throw(0)];
  }

  /** A newer version has written the index on disk: the edit is that one's to bring in. */
  lemma NewerTakesOver() returns (steps: seq<Step>)
    ensures IsRun(Start(), steps) && var s := End(Start(), steps);
            E0 in s.told && Live(s, E0) && !Safe(s, E0) && !s.f.note.on
  {
    var b := Batch(false, {E0});
    steps := Holds(b);
    var step := Section(0, NewerFormat, Threw, false);
    var s := Served(b, Clear, true);
    var s' := Sectioned(s, 0, s.threads[0], NewerFormat, Threw, false);
    assert Leads(s, step, s');
    assert !Safe(s', E0) && Live(s', E0) && E0 in s'.told && !s'.f.note.on;
    Then(Start(), steps, s, step, s');
    steps := steps + [step];
  }

  /** A callback has looked, and a reload comes to find a newer version's index. */
  function Between(state: State, serving: bool, threads: map<nat, Thread>): Sys {
    Fresh().(f := Started(0).(state := state, serving := serving), told := {E0}, threads := threads)
  }

  function Newer(at: Place): Thread { Work(0, Reload).(gated := true, at := at) }

  function Free(at: Place): Thread { Callback(0, Batch(false, {E0})).(at := at) }

  lemma FindsNewer()
    ensures Leads(Between(Ready, true, map[0 := Free(Passed)]), StartReload(1, NewerFormat),
                  Between(Ready, true, map[0 := Free(Passed), 1 := Newer(SawNewer)]))
  {}

  lemma GivesWay()
    ensures Leads(Between(Ready, true, map[0 := Free(Passed), 1 := Newer(SawNewer)]), EnterNewer(1),
                  Between(NotStarted, false, map[0 := Free(Passed), 1 := Newer(GivesUp)]))
  {
    assert Dropped(NOTHING) == NOTHING;
  }

  lemma GivesBatchUp(s: Sys, s': Sys)
    requires s == Between(NotStarted, false, map[0 := Free(Passed), 1 := Newer(GivesUp)])
    requires s' == StateRead(s, 0, Free(Passed))
    ensures Leads(s, ReadState(0), s') && !Safe(s', E0) && Live(s', E0) && E0 in s'.told && !s'.f.note.on
  {}

  /** A callback finds the session free, and nothing served when it looks again: it gives its batch up. */
  lemma LookAgainForgets() returns (steps: seq<Step>)
    ensures IsRun(Start(), steps) && var s := End(Start(), steps);
            E0 in s.told && Live(s, E0) && !Safe(s, E0) && !s.f.note.on
  {
    var b := Batch(false, {E0});
    steps := Comes(b);
    Enters(b);
    FindsNewer();
    GivesWay();
    var s1 := Between(Ready, true, map[0 := Free(Passed)]);
    assert Served(b, Passed, false) == s1;
    var s2 := Between(Ready, true, map[0 := Free(Passed), 1 := Newer(SawNewer)]);
    var s3 := Between(NotStarted, false, map[0 := Free(Passed), 1 := Newer(GivesUp)]);
    var s4 := StateRead(s3, 0, Free(Passed));
    GivesBatchUp(s3, s4);
    hide *;
    Then(Start(), steps, Served(b, Told, false), Look(0), s1);
    Then(Start(), steps + [Look(0)], s1, StartReload(1, NewerFormat), s2);
    steps := steps + [Look(0)] + [StartReload(1, NewerFormat)];
    Then(Start(), steps, s2, EnterNewer(1), s3);
    Then(Start(), steps + [EnterNewer(1)], s3, ReadState(0), s4);
    steps := steps + [EnterNewer(1)] + [ReadState(0)];
    Reached(Start(), steps, s4);
  }

  /** The note speaks for edits that a callback lost. */
  function NoteOn(now: nat, threads: map<nat, Thread>, disk: Disk): Sys {
    Fresh().(f := Started(0).(state := Ready, serving := true, note := Note(true, 3)), told := {E0},
      noted := {E0}, now := now, threads := threads, disk := disk)
  }

  const LEFT := Thread(0, Leaves, false, false, false, true, {}, ForCallback, 0)

  lemma Notes() returns (steps: seq<Step>)
    ensures Reaches(Start(), steps, NoteOn(3, map[0 := LEFT], UNREAD))
  {
    var b := Batch(true, {E0});
    steps := Holds(b);
    NotesNext(b);
    NotesIt(b);
    LetsGo();
    hide Leads, Reaches, Fresh, Start, Served, NoteOn;
    Then(Start(), steps, Served(b, Clear, true), Decide(0, false), Served(b, Noting(Leaves), true));
    Then(Start(), steps + [Decide(0, false)], Served(b, Noting(Leaves), true), MakeNote(0),
         NoteOn(3, map[0 := LEFT.(gated := true)], UNREAD));
    steps := steps + [Decide(0, false)] + [MakeNote(0)];
    Then(Start(), steps, NoteOn(3, map[0 := LEFT.(gated := true)], UNREAD), Release(0),
      NoteOn(3, map[0 := LEFT], UNREAD));
    steps := steps + [Release(0)];
  }

  lemma NotesNext(b: Batch)
    requires b == Batch(true, {E0})
    ensures Leads(Served(b, Clear, true), Decide(0, false), Served(b, Noting(Leaves), true))
  {}

  lemma NotesIt(b: Batch)
    requires b == Batch(true, {E0})
    ensures Leads(Served(b, Noting(Leaves), true), MakeNote(0), NoteOn(3, map[0 := LEFT.(gated := true)], UNREAD))
  {
    assert (set e <- b.edits | e.epoch == 0) == {E0};
  }

  lemma LetsGo()
    ensures Leads(NoteOn(3, map[0 := LEFT.(gated := true)], UNREAD), Release(0), NoteOn(3, map[0 := LEFT], UNREAD))
  {}

  const PRUNED := UNREAD.(stamp := 4, pruned := true)

  function Reloaded(at: Place): map<nat, Thread> { map[0 := LEFT, 1 := Work(0, Reload).(gated := true, at := at)] }

  lemma Prunes()
    ensures Leads(NoteOn(3, map[0 := LEFT], UNREAD), Tick, NoteOn(4, map[0 := LEFT], UNREAD))
    ensures Leads(NoteOn(4, map[0 := LEFT], UNREAD), Prune, NoteOn(4, map[0 := LEFT], PRUNED))
  {}

  lemma Reloads()
    ensures Leads(NoteOn(4, map[0 := LEFT], PRUNED), StartReload(1, Fine), NoteOn(4, Reloaded(Wrote), PRUNED))
  {}

  lemma SwapsIn()
    ensures Leads(NoteOn(4, Reloaded(Wrote), PRUNED), Swap(1), NoteOn(4, Reloaded(Installed), PRUNED))
  {}

  lemma NoteGoes(s: Sys, s': Sys)
    requires s == NoteOn(4, Reloaded(Installed), PRUNED) && s' == NoteCleared(s, 1, s.threads[1])
    ensures Leads(s, ClearNote(1), s') && !Safe(s', E0) && Live(s', E0) && E0 in s'.told && !s'.f.note.on
  {}

  /** The cache is pruned after the note was set: at the next reload the note goes, although nobody looked for the
      edits. */
  lemma PruneForgets() returns (steps: seq<Step>)
    ensures IsRun(Start(), steps) && var s := End(Start(), steps);
            E0 in s.told && Live(s, E0) && !Safe(s, E0) && !s.f.note.on
  {
    steps := Notes();
    Prunes();
    Reloads();
    SwapsIn();
    var s := NoteOn(4, Reloaded(Installed), PRUNED);
    var s' := NoteCleared(s, 1, s.threads[1]);
    NoteGoes(s, s');
    hide NoteCleared, Safe, Live, Leads, Fresh, Start, NoteOn, IsRun, End;
    Then(Start(), steps, NoteOn(3, map[0 := LEFT], UNREAD), Tick, NoteOn(4, map[0 := LEFT], UNREAD));
    Then(Start(), steps + [Tick], NoteOn(4, map[0 := LEFT], UNREAD), Prune, NoteOn(4, map[0 := LEFT], PRUNED));
    steps := steps + [Tick] + [Prune];
    Then(Start(), steps, NoteOn(4, map[0 := LEFT], PRUNED), StartReload(1, Fine), NoteOn(4, Reloaded(Wrote), PRUNED));
    Then(Start(), steps + [StartReload(1, Fine)], NoteOn(4, Reloaded(Wrote), PRUNED), Swap(1), s);
    steps := steps + [StartReload(1, Fine)] + [Swap(1)];
    Then(Start(), steps, s, ClearNote(1), s');
    steps := steps + [ClearNote(1)];
  }

  /** What is to be done after an ignore file changed comes to set the note, with the time it took up the change. */
  function SetBack(threads: map<nat, Thread>): Sys {
    NoteOn(3, threads, UNREAD).(f := NoteOn(3, threads, UNREAD).f.(note := Note(true, 1)), setBack := true)
  }

  lemma SeesIgnoreFile()
    ensures Leads(NoteOn(3, map[0 := LEFT], UNREAD), IgnoreNote(1), SetBack(map[0 := LEFT]))
  {}

  lemma ReloadsThen()
    ensures Leads(SetBack(map[0 := LEFT]), StartReload(1, Fine), SetBack(Reloaded(Wrote)))
  {}

  lemma SwapsInThen()
    ensures Leads(SetBack(Reloaded(Wrote)), Swap(1), SetBack(Reloaded(Installed)))
  {}

  lemma EarlyNoteGoes(s: Sys, s': Sys)
    requires s == SetBack(Reloaded(Installed)) && s' == NoteCleared(s, 1, s.threads[1])
    ensures Leads(s, ClearNote(1), s') && !Safe(s', E0) && Live(s', E0) && E0 in s'.told && !s'.f.note.on
  {}

  /** The note's time is set back after edits were lost: at the next reload the cache, built since that time but before
      the edits were made, passes for one that shows them, and the note goes. */
  lemma SetBackForgets() returns (steps: seq<Step>)
    ensures IsRun(Start(), steps) && var s := End(Start(), steps);
            E0 in s.told && Live(s, E0) && !Safe(s, E0) && !s.f.note.on
  {
    steps := Notes();
    SeesIgnoreFile();
    ReloadsThen();
    SwapsInThen();
    var s := SetBack(Reloaded(Installed));
    var s' := NoteCleared(s, 1, s.threads[1]);
    EarlyNoteGoes(s, s');
    hide *;
    Then(Start(), steps, NoteOn(3, map[0 := LEFT], UNREAD), IgnoreNote(1), SetBack(map[0 := LEFT]));
    steps := steps + [IgnoreNote(1)];
    Then(Start(), steps, SetBack(map[0 := LEFT]), StartReload(1, Fine), SetBack(Reloaded(Wrote)));
    Then(Start(), steps + [StartReload(1, Fine)], SetBack(Reloaded(Wrote)), Swap(1), s);
    steps := steps + [StartReload(1, Fine)] + [Swap(1)];
    Then(Start(), steps, s, ClearNote(1), s');
    steps := steps + [ClearNote(1)];
    Reached(Start(), steps, s');
  }

  const E1 := Edit("b.cs", 3, 1)

  /** A session that was re-pointed while a callback rebuilt the old workspace: the new one's edits wait for its
      index. */
  function Repointed(told: set<Edit>, threads: map<nat, Thread>, paths: set<string>): Sys {
    Fresh().(f := Started(1).(k := NOTHING.(paths := paths)), told := told, threads := threads)
  }

  function Old(b: Batch): Thread {
    Callback(0, b).(at := Builds, edits := {}, since := 3, gated := true, locked := true, counted := true)
  }

  lemma MayBuild(b: Batch)
    requires b == Batch(true, {E0})
    ensures Leads(Served(b, Clear, true), Decide(0, true), Served(b, Noting(Builds), true))
  {}

  lemma BuildsOn(b: Batch)
    requires b == Batch(true, {E0})
    ensures var s := Served(b, Noting(Builds), true); Leads(s, MakeNote(0), Noted(s, 0, s.threads[0]))
  {}

  lemma GoesAway(b: Batch)
    requires b == Batch(true, {E0})
    ensures var s := Served(b, Noting(Builds), true);
            Leads(Noted(s, 0, s.threads[0]), Repoint(UNREAD, None), Repointed({E0}, map[0 := Old(b)], {}))
  {}

  function Newcomer(): Thread { Callback(1, Batch(false, {E1})) }

  lemma ComesAnew(h: Thread)
    ensures Leads(Repointed({E0}, map[0 := h], {}), Arrive(1, Batch(false, {E1})),
                  Repointed({E0, E1}, map[0 := h, 1 := Newcomer()], {}))
  {}

  lemma IsCaptured(h: Thread)
    ensures Leads(Repointed({E0, E1}, map[0 := h, 1 := Newcomer()], {}), Look(1),
                  Repointed({E0, E1}, map[0 := h, 1 := Ends(Newcomer(), Leaves)], {"b.cs"}))
  {
    assert Paths({E1}) == {"b.cs"};
    OneCaptured("b.cs");
    hide Captured, Paths;
  }

  lemma OneCaptured(p: string)
    ensures Captured(NOTHING, false, {p}) == NOTHING.(paths := {p})
  {
    assert |{p}| == 1 && {} + {p} == {p};
  }

  lemma IsCleared(b: Batch, s: Sys, s': Sys)
    requires s == Repointed({E0, E1}, map[0 := Old(b), 1 := Ends(Newcomer(), Leaves)], {"b.cs"})
    requires b.full && s' == Thrown(s, 0, Old(b))
    ensures Leads(s, Throw(0), s') && !Safe(s', E1) && Live(s', E1) && E1 in s'.told && !s'.f.note.on
  {}

  /** A rebuild for the old workspace that throws then clears what is pending for the new one. */
  lemma StaleThrowForgets() returns (steps: seq<Step>)
    ensures IsRun(Start(), steps) && var s := End(Start(), steps);
            E1 in s.told && Live(s, E1) && !Safe(s, E1) && !s.f.note.on
  {
    var b, b' := Batch(true, {E0}), Batch(false, {E1});
    steps := Holds(b);
    MayBuild(b);
    BuildsOn(b);
    GoesAway(b);
    ComesAnew(Old(b));
    IsCaptured(Old(b));
    var s1 := Served(b, Noting(Builds), true);
    var s2 := Noted(s1, 0, s1.threads[0]);
    var s3 := Repointed({E0}, map[0 := Old(b)], {});
    var s4 := Repointed({E0, E1}, map[0 := Old(b), 1 := Newcomer()], {});
    var s5 := Repointed({E0, E1}, map[0 := Old(b), 1 := Ends(Newcomer(), Leaves)], {"b.cs"});
    var s6 := Thrown(s5, 0, Old(b));
    IsCleared(b, s5, s6);
    hide *;
    Then(Start(), steps, Served(b, Clear, true), Decide(0, true), s1);
    Then(Start(), steps + [Decide(0, true)], s1, MakeNote(0), s2);
    steps := steps + [Decide(0, true)] + [MakeNote(0)];
    Then(Start(), steps, s2, Repoint(UNREAD, None), s3);
    Then(Start(), steps + [Repoint(UNREAD, None)], s3, Arrive(1, b'), s4);
    steps := steps + [Repoint(UNREAD, None)] + [Arrive(1, b')];
    Then(Start(), steps, s4, Look(1), s5);
    Then(Start(), steps + [Look(1)], s5, Throw(0), s6);
    steps := steps + [Look(1)] + [Throw(0)];
    Reached(Start(), steps, s6);
  }

  lemma Reached(s: Sys, steps: seq<Step>, s': Sys)
    requires Reaches(s, steps, s')
    ensures IsRun(s, steps) && End(s, steps) == s'
  {}
}

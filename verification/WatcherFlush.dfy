/** A watcher of a tree: events are recorded by any number of threads, a debounce timer fires callbacks, and one of
    them at a time hands the batch over. Every section under a lock is one step; steps of all threads interleave. */
module WatcherFlush {
  import opened Common

  /** What is recorded: paths (were they created, deleted or renamed, not only changed?), paths that count only if they
      turn out to be folders, and whether events were lost. */
  datatype Work = Work(paths: map<string, bool>, ifFolder: set<string>, overflow: bool) {
    predicate Any() { paths != map[] || ifFolder != {} || overflow }
    predicate Full() { |paths| >= MAX_PENDING_PATHS }
  }

  const NO_WORK := Work(map[], {}, false)
  const MAX_PENDING_PATHS := 50_000

  datatype Batch = Batch(paths: set<string>, full: bool)

  /** Where a timer callback is. */
  datatype Callback =
    | Started
    | Entered
    | Running
    | Delivering(batch: Batch)
    | Leaving
    | Left
    | Rescheduling(full: bool)

  /** An armed timer: when it is due, when it was armed, the first event of the window it was armed in, and whether it
      was armed because too many paths had piled up. */
  datatype Timer = Timer(due: nat, armedAt: nat, first: nat, full: bool)

  datatype Settings = Settings(debounce: nat, maxWait: nat)

  /** The watcher's fields, the callbacks that run, how many event threads recorded something and are yet to schedule
      it (some of them for now, too many paths having piled up), and the batches handed over. */
  datatype Watcher = Watcher(
    now: nat, work: Work, first: nat, timer: Option<Timer>, disposed: bool, disposeReturned: bool,
    gate: Option<nat>, callbacks: map<nat, Callback>, started: nat, toSchedule: nat, toScheduleNow: nat,
      delivered: seq<Batch>)

  // ---- steps ----

  /** Arms the timer: for the end of a quiet time, or for now where it has been put off long enough. */
  function Schedule(s: Settings, w: Watcher, full: bool): Watcher {
    if w.disposed then w
    else
      var first := if w.first == 0 then w.now else w.first;
      var wait := if full || w.now - first >= s.maxWait then 0 else s.debounce;
      w.(first := first, timer := Some(Timer(w.now + wait, w.now, first, full)))
  }

  function Recorded(work: Work, p: string, structural: bool): Work {
    work.(paths := work.paths[p := structural || (p in work.paths && work.paths[p])])
  }

  ghost predicate Tick(w: Watcher, w': Watcher) { w'.now >= w.now && w' == w.(now := w'.now) }

  ghost predicate Record(w: Watcher, w': Watcher, p: string, structural: bool) {
    var work := Recorded(w.work, p, structural);
    w' == if work.Full() then w.(work := work, toScheduleNow := w.toScheduleNow + 1)
          else w.(work := work, toSchedule := w.toSchedule + 1)
  }

  ghost predicate RecordIfFolder(w: Watcher, w': Watcher, p: string) {
    w' == w.(work := w.work.(ifFolder := w.work.ifFolder + {p}), toSchedule := w.toSchedule + 1)
  }

  ghost predicate Overflow(w: Watcher, w': Watcher) {
    w' == w.(work := w.work.(overflow := true), toSchedule := w.toSchedule + 1)
  }

  ghost predicate EventSchedules(s: Settings, w: Watcher, w': Watcher) {
    || (w.toSchedule > 0 && w' == Schedule(s, w, false).(toSchedule := w.toSchedule - 1))
    || (w.toScheduleNow > 0 && w' == Schedule(s, w, true).(toScheduleNow := w.toScheduleNow - 1))
  }

  /** A rename schedules once more than it recorded. */
  ghost predicate ScheduleAgain(s: Settings, w: Watcher, w': Watcher) { w' == Schedule(s, w, false) }

  ghost predicate Fire(w: Watcher, w': Watcher) {
    w.timer.Some? && w.timer.value.due <= w.now
    && w' == w.(timer := None, callbacks := w.callbacks[w.started := Started], started := w.started + 1)
  }

  /** Single flight: a callback that finds another one in the gate just leaves. */
  ghost predicate Enter(w: Watcher, w': Watcher, c: nat) {
    c in w.callbacks && w.callbacks[c] == Started
    && w' == if w.gate.None? then w.(gate := Some(c), callbacks := w.callbacks[c := Entered])
             else w.(callbacks := w.callbacks - {c})
  }

  ghost predicate LookDisposed(w: Watcher, w': Watcher, c: nat) {
    c in w.callbacks && w.callbacks[c] == Entered
    && w' == w.(callbacks := w.callbacks[c := if w.disposed then Leaving else Running])
  }

  ghost predicate ResetWindow(w: Watcher, w': Watcher, c: nat) {
    c in w.callbacks && w.callbacks[c] == Running && w' == w.(first := 0)
  }

  /** The batch of some work, where these paths are folders: a folder that only changed is left out, and of the paths
      that count only as folders, the folders are taken. */
  function BatchOf(work: Work, folders: set<string>): Batch {
    if work.overflow then Batch({}, true)
    else Batch((set p | p in work.paths && (work.paths[p] || p !in folders)) + (work.ifFolder * folders), false)
  }

  ghost predicate TakeWith(w: Watcher, w': Watcher, c: nat, folders: set<string>) {
    c in w.callbacks && w.callbacks[c] == Running && var b := BatchOf(w.work, folders);
    w' == w.(work := NO_WORK, callbacks := w.callbacks[c := if b == Batch({}, false) then Leaving else Delivering(b)])
  }

  ghost predicate Take(w: Watcher, w': Watcher, c: nat) { exists folders :: TakeWith(w, w', c, folders) }

  ghost predicate Deliver(w: Watcher, w': Watcher, c: nat) {
    c in w.callbacks && w.callbacks[c].Delivering?
    && w' == w.(delivered := w.delivered + [w.callbacks[c].batch], callbacks := w.callbacks[c := Leaving])
  }

  ghost predicate Leave(w: Watcher, w': Watcher, c: nat) {
    c in w.callbacks && w.callbacks[c] == Leaving && w' == w.(gate := None, callbacks := w.callbacks[c := Left])
  }

  /** Out of the gate, it looks for what arrived meanwhile. */
  ghost predicate Look(w: Watcher, w': Watcher, c: nat) {
    c in w.callbacks && w.callbacks[c] == Left
    && w' == w.(callbacks := if w.work.Any() then w.callbacks[c := Rescheduling(w.work.Full())] else w.callbacks - {c})
  }

  ghost predicate Reschedule(s: Settings, w: Watcher, w': Watcher, c: nat) {
    c in w.callbacks && w.callbacks[c].Rescheduling?
    && w' == Schedule(s, w, w.callbacks[c].full).(callbacks := w.callbacks - {c})
  }

  ghost predicate StartDispose(w: Watcher, w': Watcher) { w' == w.(disposed := true, timer := None) }

  /** Dispose waits for the gate to be free, and returns. */
  ghost predicate EndDispose(w: Watcher, w': Watcher) {
    w.disposed && w.gate.None? && w' == w.(disposeReturned := true)
  }

  ghost predicate CallbackStep(s: Settings, w: Watcher, w': Watcher, c: nat) {
    || Enter(w, w', c) || LookDisposed(w, w', c) || ResetWindow(w, w', c) || Take(w, w', c) || Deliver(w, w', c)
    || Leave(w, w', c) || Look(w, w', c) || Reschedule(s, w, w', c)
  }

  ghost predicate EventStep(w: Watcher, w': Watcher) {
    || (exists p, structural :: Record(w, w', p, structural)) || (exists p :: RecordIfFolder(w, w', p))
    || Overflow(w, w')
  }

  ghost predicate TimeStep(s: Settings, w: Watcher, w': Watcher) {
    || Tick(w, w') || EventSchedules(s, w, w') || ScheduleAgain(s, w, w') || Fire(w, w')
    || StartDispose(w, w') || EndDispose(w, w')
  }

  ghost predicate Next(s: Settings, w: Watcher, w': Watcher) {
    EventStep(w, w') || TimeStep(s, w, w') || exists c :: CallbackStep(s, w, w', c)
  }

  ghost predicate Init(w: Watcher) {
    && w.now > 0 && w.work == NO_WORK && w.first == 0 && w.timer == None && !w.disposed && !w.disposeReturned
    && w.gate == None && w.callbacks == map[] && w.toSchedule == w.toScheduleNow == 0 && w.delivered == []
  }

  // ---- what every run keeps ----

  predicate InGate(c: Callback) { c.Entered? || c.Running? || c.Delivering? || c.Leaving? }

  /** One callback at a time is in the gate, and the gate is held only by one. */
  ghost predicate GateOk(w: Watcher) {
    && (w.gate.Some? ==> w.gate.value in w.callbacks && InGate(w.callbacks[w.gate.value]))
    && (forall c <- w.callbacks :: InGate(w.callbacks[c]) ==> w.gate == Some(c))
    && forall c <- w.callbacks :: c < w.started
  }

  /** What is recorded is on its way: the timer is armed, an event thread has yet to schedule it, or a callback has
      yet to look for it. */
  ghost predicate OnItsWay(w: Watcher) {
    w.timer.Some? || w.toSchedule > 0 || w.toScheduleNow > 0 || w.callbacks != map[]
  }

  ghost predicate NoLostWakeup(w: Watcher) { !w.disposed && w.work.Any() ==> OnItsWay(w) }

  /** The timer is due a quiet time after it was armed; or it was armed to fire at once, the longest wait since the
      first event of its window being over or too many paths having piled up. It was armed in the window that is open,
      unless that was opened since. */
  ghost predicate DueInTime(s: Settings, w: Watcher) {
    && w.now > 0 && w.first <= w.now
    && (w.timer.Some? ==> var t := w.timer.value;
          && 0 < t.first <= t.armedAt <= w.now && (w.first == 0 || t.first == w.first)
          && if t.full || t.armedAt - t.first >= s.maxWait then t.due == t.armedAt
             else t.due == t.armedAt + s.debounce)
  }

  /** Once Dispose returned, no callback is about to hand a batch over. */
  ghost predicate QuietAfterDispose(w: Watcher) {
    && (w.disposeReturned ==> w.disposed)
    && (w.disposeReturned ==> forall c <- w.callbacks :: !w.callbacks[c].Running? && !w.callbacks[c].Delivering?)
    && (w.disposed ==> w.timer == None)
  }

  ghost predicate Inv(s: Settings, w: Watcher) {
    GateOk(w) && NoLostWakeup(w) && DueInTime(s, w) && QuietAfterDispose(w)
  }

  lemma ScheduleKeeps(s: Settings, w: Watcher, full: bool)
    requires Inv(s, w)
    ensures var w' := Schedule(s, w, full); GateOk(w') && DueInTime(s, w') && QuietAfterDispose(w')
    ensures var w' := Schedule(s, w, full); !w'.disposed ==> w'.timer.Some?
    ensures Schedule(s, w, full).work == w.work && Schedule(s, w, full).delivered == w.delivered
  {}

  lemma EventKeeps(s: Settings, w: Watcher, w': Watcher)
    requires Inv(s, w) && EventStep(w, w')
    ensures Inv(s, w') && w'.delivered == w.delivered
  {
    RecordsOnly(w, w');
    hide EventStep;
  }

  /** An event adds to the work, and has yet to schedule it. */
  lemma RecordsOnly(w: Watcher, w': Watcher)
    requires EventStep(w, w')
    ensures w' == w.(work := w'.work, toSchedule := w'.toSchedule, toScheduleNow := w'.toScheduleNow)
    ensures w'.toSchedule > 0 || w'.toScheduleNow > 0
    ensures forall p <- w.work.paths :: p in w'.work.paths && (w.work.paths[p] ==> w'.work.paths[p])
    ensures w.work.ifFolder <= w'.work.ifFolder && (w.work.overflow ==> w'.work.overflow)
  {
    if p, structural :| Record(w, w', p, structural) {
    } else if p :| RecordIfFolder(w, w', p) {
    } else {
      assert Overflow(w, w');
    }
  }

  lemma TimeKeeps(s: Settings, w: Watcher, w': Watcher)
    requires Inv(s, w) && TimeStep(s, w, w')
    ensures Inv(s, w') && w'.delivered == w.delivered
  {
    if EventSchedules(s, w, w') {
      ScheduleKeeps(s, w, true);
      ScheduleKeeps(s, w, false);
    } else if ScheduleAgain(s, w, w') {
      ScheduleKeeps(s, w, false);
    } else if Fire(w, w') {
      assert w.started in w'.callbacks;
    }
  }

  lemma GateKeeps(s: Settings, w: Watcher, w': Watcher, c: nat)
    requires Inv(s, w)
    requires Enter(w, w', c) || LookDisposed(w, w', c) || ResetWindow(w, w', c) || Leave(w, w', c)
    ensures Inv(s, w') && w'.delivered == w.delivered
  {
    if Enter(w, w', c) && w.gate.Some? {
      assert w.gate.value in w'.callbacks;
    } else {
      assert c in w'.callbacks;
    }
  }

  lemma BatchKeeps(s: Settings, w: Watcher, w': Watcher, c: nat)
    requires Inv(s, w)
    requires Take(w, w', c) || Deliver(w, w', c)
    ensures Inv(s, w')
    ensures w'.delivered != w.delivered ==> !w.disposeReturned
  {
    assert c in w'.callbacks;
  }

  lemma LookKeeps(s: Settings, w: Watcher, w': Watcher, c: nat)
    requires Inv(s, w)
    requires Look(w, w', c) || Reschedule(s, w, w', c)
    ensures Inv(s, w') && w'.delivered == w.delivered
  {
    if Reschedule(s, w, w', c) {
      ScheduleKeeps(s, w, w.callbacks[c].full);
    } else if w.work.Any() {
      assert c in w'.callbacks;
    }
  }

  /** Whatever comes next: no wake-up is lost, the timer stays due in time, and nothing is delivered once Dispose has
      returned. */
  lemma NextKeeps(s: Settings, w: Watcher, w': Watcher)
    requires Inv(s, w) && Next(s, w, w')
    ensures Inv(s, w')
    ensures w'.delivered != w.delivered ==> !w.disposeReturned
  {
    hide Inv, EventStep, TimeStep, Enter, LookDisposed, ResetWindow, Take, Deliver, Leave, Look, Reschedule;
    if EventStep(w, w') {
      EventKeeps(s, w, w');
    } else if TimeStep(s, w, w') {
      TimeKeeps(s, w, w');
    } else {
      var c :| CallbackStep(s, w, w', c);
      if Take(w, w', c) || Deliver(w, w', c) {
        BatchKeeps(s, w, w', c);
      } else if Look(w, w', c) || Reschedule(s, w, w', c) {
        LookKeeps(s, w, w', c);
      } else {
        GateKeeps(s, w, w', c);
      }
    }
  }

  // ---- runs ----

  ghost predicate IsRun(s: Settings, run: seq<Watcher>) {
    run != [] && Init(run[0]) && forall i :: 0 < i < |run| ==> Next(s, run[i - 1], run[i])
  }

  lemma {:induction false} RunKeeps(s: Settings, run: seq<Watcher>, n: nat)
    requires IsRun(s, run) && n < |run|
    ensures Inv(s, run[n])
    decreases n
  {
    hide Next;
    if n > 0 {
      RunKeeps(s, run, n - 1);
      NextKeeps(s, run[n - 1], run[n]);
    }
  }

  /** In every interleaving: work that was not handed over, on a watcher that is not disposed, has the timer armed, or a
      callback that has yet to look for it, or an event thread that has yet to schedule it. */
  lemma WorkIsOnItsWay(s: Settings, run: seq<Watcher>, n: nat)
    requires IsRun(s, run) && n < |run| && !run[n].disposed && run[n].work.Any()
    ensures run[n].timer.Some? || run[n].toSchedule > 0 || run[n].toScheduleNow > 0 || exists c :: c in run[n].callbacks
  {
    hide Next;
    RunKeeps(s, run, n);
  }

  /** The timer is due a quiet time after it was armed, and so no later than the first event of its window, the longest
      wait and one quiet time allow - unless it was armed when that wait was over already, or too many paths had piled
      up, and then for at once. */
  lemma DueIsBounded(s: Settings, run: seq<Watcher>, n: nat)
    requires IsRun(s, run) && n < |run| && run[n].timer.Some?
    ensures var t := run[n].timer.value;
            && (run[n].first > 0 ==> t.first == run[n].first)
            && if t.full || t.armedAt - t.first >= s.maxWait then t.due == t.armedAt <= run[n].now
               else t.due == t.armedAt + s.debounce <= t.first + s.maxWait + s.debounce
  {
    hide Next;
    RunKeeps(s, run, n);
  }

  /** A window opens anew with each batch: once a callback has closed one, the timer is the one it was, or armed for
      events that came later. */
  lemma {:induction false} WindowIsNew(s: Settings, run: seq<Watcher>, k: nat, c: nat, n: nat)
    requires IsRun(s, run) && 0 < k <= n < |run| && ResetWindow(run[k - 1], run[k], c)
    ensures run[n].now >= run[k].now && (run[n].first == 0 || run[n].first >= run[k].now)
    ensures run[n].timer.Some? ==> run[n].timer == run[k].timer || run[n].timer.value.first >= run[k].now
    decreases n
  {
    hide Next, Inv;
    RunKeeps(s, run, n - 1);
    if k < n {
      WindowIsNew(s, run, k, c, n - 1);
      WindowStays(s, run[n - 1], run[n], run[k].now, run[k].timer);
    }
  }

  lemma WindowStays(s: Settings, w: Watcher, w': Watcher, time: nat, timer: Option<Timer>)
    requires Next(s, w, w') && w.now >= time && (w.first == 0 || w.first >= time)
    requires w.timer.Some? ==> w.timer == timer || w.timer.value.first >= time
    ensures w'.now >= time && (w'.first == 0 || w'.first >= time)
    ensures w'.timer.Some? ==> w'.timer == timer || w'.timer.value.first >= time
  {
    hide EventStep, TimeStep, CallbackStep;
    if EventStep(w, w') { RecordsOnly(w, w'); }
    else if TimeStep(s, w, w') { TimeWindow(s, w, w'); }
    else { var c :| CallbackStep(s, w, w', c); CallbackWindow(s, w, w', c); }
  }

  /** The window and the timer are as they were, or closed, or those of an arming. */
  ghost predicate WindowKept(s: Settings, w: Watcher, w': Watcher) {
    || (w'.first == w.first && (w'.timer == w.timer || w'.timer == None))
    || (w'.first == 0 && w'.timer == w.timer)
    || exists full :: (var u := Schedule(s, w, full); w'.first == u.first && w'.timer == u.timer)
  }

  lemma TimeWindow(s: Settings, w: Watcher, w': Watcher)
    requires TimeStep(s, w, w')
    ensures w'.now >= w.now && WindowKept(s, w, w')
  {}

  lemma CallbackWindow(s: Settings, w: Watcher, w': Watcher, c: nat)
    requires CallbackStep(s, w, w', c)
    ensures w'.now == w.now && WindowKept(s, w, w')
  {}

  /** No batch is handed over after Dispose returned. */
  lemma {:induction false} NothingAfterDispose(s: Settings, run: seq<Watcher>, i: nat, j: nat)
    requires IsRun(s, run) && i <= j < |run| && run[i].disposeReturned
    ensures run[j].delivered == run[i].delivered && run[j].disposeReturned
    decreases j - i
  {
    hide Next;
    if i < j {
      NothingAfterDispose(s, run, i, j - 1);
      RunKeeps(s, run, j - 1);
      NextKeeps(s, run[j - 1], run[j]);
      StaysReturned(s, run[j - 1], run[j]);
    }
  }

  lemma StaysReturned(s: Settings, w: Watcher, w': Watcher)
    requires Next(s, w, w') && w.disposeReturned
    ensures w'.disposeReturned
  {
    hide EventStep, TimeStep, CallbackStep;
    if EventStep(w, w') { RecordsOnly(w, w'); }
    else if TimeStep(s, w, w') { TimeFrame(s, w, w'); }
    else { var c :| CallbackStep(s, w, w', c); CallbackFrame(s, w, w', c); }
  }

  lemma TimeFrame(s: Settings, w: Watcher, w': Watcher)
    requires TimeStep(s, w, w')
    ensures w'.work == w.work && w'.delivered == w.delivered && (w.disposeReturned ==> w'.disposeReturned)
    ensures (forall c <- w.callbacks :: c < w.started) ==>
              forall c <- w.callbacks :: c in w'.callbacks && w'.callbacks[c] == w.callbacks[c]
  {}

  lemma CallbackFrame(s: Settings, w: Watcher, w': Watcher, c: nat)
    requires CallbackStep(s, w, w', c)
    ensures |w.delivered| <= |w'.delivered| && w'.disposeReturned == w.disposeReturned
  {}

  // ---- what was recorded is handed over ----

  ghost predicate Holds(b: Batch, p: string) { b.full || p in b.paths }

  /** A recorded path (as one that was created, deleted or renamed?) is pending, or in a batch that a callback is
      about to hand over, or in one that was handed over since. */
  ghost predicate Accounted(w: Watcher, p: string, structural: bool, since: nat) {
    || (p in w.work.paths && (structural ==> w.work.paths[p]))
    || (exists c <- w.callbacks :: w.callbacks[c].Delivering? && Holds(w.callbacks[c].batch, p))
    || (exists j :: since <= j < |w.delivered| && Holds(w.delivered[j], p))
  }

  /** The path is taken, and left out: it is a folder, and only changed. */
  ghost predicate OnlyChanged(w: Watcher, w': Watcher, p: string) {
    exists c, folders :: TakeWith(w, w', c, folders) && p in folders && p in w.work.paths && !w.work.paths[p]
  }

  lemma TakeAccounts(w: Watcher, w': Watcher, c: nat, folders: set<string>, p: string, structural: bool, since: nat)
    requires TakeWith(w, w', c, folders) && Accounted(w, p, structural, since)
    ensures Accounted(w', p, structural, since) || (!structural && OnlyChanged(w, w', p))
  {
    if p in w.work.paths && (structural ==> w.work.paths[p]) {
      if p !in folders || w.work.paths[p] {
        var b := BatchOf(w.work, folders);
        assert Holds(b, p) && b != Batch({}, false);
        assert c in w'.callbacks && w'.callbacks[c] == Delivering(b);
      }
    } else if d :| d in w.callbacks && w.callbacks[d].Delivering? && Holds(w.callbacks[d].batch, p) {
      assert d in w'.callbacks && w'.callbacks[d] == w.callbacks[d];
    }
  }

  lemma DeliverAccounts(w: Watcher, w': Watcher, c: nat, p: string, structural: bool, since: nat)
    requires Deliver(w, w', c) && Accounted(w, p, structural, since) && since <= |w.delivered|
    ensures Accounted(w', p, structural, since)
  {
    assert forall j :: 0 <= j < |w.delivered| ==> w'.delivered[j] == w.delivered[j];
    if d :| d in w.callbacks && w.callbacks[d].Delivering? && Holds(w.callbacks[d].batch, p) {
      if d == c { assert Holds(w'.delivered[|w.delivered|], p); }
      else { assert d in w'.callbacks && w'.callbacks[d] == w.callbacks[d]; }
    }
  }

  lemma EventAccounts(w: Watcher, w': Watcher, p: string, structural: bool, since: nat)
    requires EventStep(w, w') && Accounted(w, p, structural, since)
    ensures Accounted(w', p, structural, since)
  {
    RecordsOnly(w, w');
    hide EventStep;
  }

  lemma TimeAccounts(s: Settings, w: Watcher, w': Watcher, p: string, structural: bool, since: nat)
    requires TimeStep(s, w, w') && Accounted(w, p, structural, since) && forall c <- w.callbacks :: c < w.started
    ensures Accounted(w', p, structural, since)
  {
    TimeFrame(s, w, w');
    hide TimeStep;
    if d :| d in w.callbacks && w.callbacks[d].Delivering? && Holds(w.callbacks[d].batch, p) {
      assert d in w'.callbacks && w'.callbacks[d] == w.callbacks[d];
    }
  }

  lemma CallbackAccounts(s: Settings, w: Watcher, w': Watcher, c: nat, p: string, structural: bool, since: nat)
    requires Accounted(w, p, structural, since)
    requires Enter(w, w', c) || LookDisposed(w, w', c) || ResetWindow(w, w', c) || Leave(w, w', c) || Look(w, w', c)
             || Reschedule(s, w, w', c)
    ensures Accounted(w', p, structural, since)
  {
    if d :| d in w.callbacks && w.callbacks[d].Delivering? && Holds(w.callbacks[d].batch, p) {
      assert d in w'.callbacks && w'.callbacks[d] == w.callbacks[d];
    }
  }

  lemma NextAccounts(s: Settings, w: Watcher, w': Watcher, p: string, structural: bool, since: nat)
    requires Inv(s, w) && Next(s, w, w') && Accounted(w, p, structural, since) && since <= |w.delivered|
    ensures |w.delivered| <= |w'.delivered|
    ensures Accounted(w', p, structural, since) || (!structural && OnlyChanged(w, w', p))
  {
    hide Accounted, OnlyChanged, DueInTime, NoLostWakeup, QuietAfterDispose, EventStep, TimeStep;
    if EventStep(w, w') {
      RecordsOnly(w, w');
      EventAccounts(w, w', p, structural, since);
    } else if TimeStep(s, w, w') {
      TimeFrame(s, w, w');
      TimeAccounts(s, w, w', p, structural, since);
    } else {
      var c :| CallbackStep(s, w, w', c);
      CallbackFrame(s, w, w', c);
      if Take(w, w', c) {
        var folders :| TakeWith(w, w', c, folders);
        TakeAccounts(w, w', c, folders, p, structural, since);
      } else if Deliver(w, w', c) {
        DeliverAccounts(w, w', c, p, structural, since);
      } else {
        CallbackAccounts(s, w, w', c, p, structural, since);
      }
    }
  }

  /** Over any run: a path that an event recorded is pending, about to be handed over, or was handed over since - or,
      only if no event said more than that it changed, it was found to be a folder, and left out. */
  lemma {:induction false} RecordedIsKept(s: Settings, run: seq<Watcher>, i: nat, n: nat, p: string, structural: bool)
    requires IsRun(s, run) && i < n < |run| && Record(run[i], run[i + 1], p, structural)
    ensures |run[i].delivered| <= |run[n].delivered|
    ensures Accounted(run[n], p, structural, |run[i].delivered|)
            || (!structural && exists k :: i < k < n && OnlyChanged(run[k], run[k + 1], p))
    decreases n
  {
    hide Next, Accounted, OnlyChanged, Inv;
    if n == i + 1 {
      RecordAccounts(run[i], run[n], p, structural);
    } else {
      RecordedIsKept(s, run, i, n - 1, p, structural);
      RunKeeps(s, run, n - 1);
      if Accounted(run[n - 1], p, structural, |run[i].delivered|) {
        NextAccounts(s, run[n - 1], run[n], p, structural, |run[i].delivered|);
        assert !Accounted(run[n], p, structural, |run[i].delivered|) ==> OnlyChanged(run[n - 1], run[n - 1 + 1], p);
      } else {
        MoreDelivered(s, run[n - 1], run[n]);
      }
    }
  }

  lemma RecordAccounts(w: Watcher, w': Watcher, p: string, structural: bool)
    requires Record(w, w', p, structural)
    ensures Accounted(w', p, structural, |w.delivered|) && w'.delivered == w.delivered
  {}

  lemma MoreDelivered(s: Settings, w: Watcher, w': Watcher)
    requires Next(s, w, w')
    ensures |w.delivered| <= |w'.delivered|
  {
    hide EventStep, TimeStep, CallbackStep;
    if EventStep(w, w') { RecordsOnly(w, w'); }
    else if TimeStep(s, w, w') { TimeFrame(s, w, w'); }
    else { var c :| CallbackStep(s, w, w', c); CallbackFrame(s, w, w', c); }
  }

  // ---- events that were lost, and paths that count only if they are folders ----

  /** A full reconcile is pending, about to be handed over, or was handed over since. */
  ghost predicate FullOwed(w: Watcher, since: nat) {
    || w.work.overflow
    || (exists c <- w.callbacks :: w.callbacks[c].Delivering? && w.callbacks[c].batch.full)
    || (exists j :: since <= j < |w.delivered| && w.delivered[j].full)
  }

  /** The path is pending as one that counts only if it is a folder, or in a batch that is about to be handed over, or
      that was handed over since. */
  ghost predicate FolderOwed(w: Watcher, p: string, since: nat) {
    || p in w.work.ifFolder
    || (exists c <- w.callbacks :: w.callbacks[c].Delivering? && Holds(w.callbacks[c].batch, p))
    || (exists j :: since <= j < |w.delivered| && Holds(w.delivered[j], p))
  }

  /** The path is taken, and is no folder. */
  ghost predicate WasNoFolder(w: Watcher, w': Watcher, p: string) {
    exists c, folders :: TakeWith(w, w', c, folders) && p in w.work.ifFolder && p !in folders
  }

  lemma TakeOwes(w: Watcher, w': Watcher, c: nat, folders: set<string>, p: string, since: nat)
    requires TakeWith(w, w', c, folders)
    ensures FullOwed(w, since) ==> FullOwed(w', since)
    ensures FolderOwed(w, p, since) ==> FolderOwed(w', p, since) || WasNoFolder(w, w', p)
  {
    var b := BatchOf(w.work, folders);
    assert b != Batch({}, false) ==> c in w'.callbacks && w'.callbacks[c] == Delivering(b);
    forall d <- w.callbacks | w.callbacks[d].Delivering? ensures d in w'.callbacks
      && w'.callbacks[d] == w.callbacks[d] {}
    assert p in w.work.ifFolder && p in folders ==> Holds(b, p) && b != Batch({}, false);
  }

  lemma DeliverOwes(w: Watcher, w': Watcher, c: nat, p: string, since: nat)
    requires Deliver(w, w', c) && since <= |w.delivered|
    ensures FullOwed(w, since) ==> FullOwed(w', since)
    ensures FolderOwed(w, p, since) ==> FolderOwed(w', p, since)
  {
    assert forall j :: 0 <= j < |w.delivered| ==> w'.delivered[j] == w.delivered[j];
    assert w'.delivered[|w.delivered|] == w.callbacks[c].batch;
    forall d <- w.callbacks | d != c ensures d in w'.callbacks && w'.callbacks[d] == w.callbacks[d] {}
  }

  /** A step that keeps the batches in hand, and what was handed over, keeps what is owed with the work. */
  lemma SameOwes(w: Watcher, w': Watcher, p: string, since: nat)
    requires w'.delivered == w.delivered && w.work.ifFolder <= w'.work.ifFolder
    requires w.work.overflow ==> w'.work.overflow
    requires forall d <- w.callbacks ::
               w.callbacks[d].Delivering? ==> d in w'.callbacks && w'.callbacks[d] == w.callbacks[d]
    ensures FullOwed(w, since) ==> FullOwed(w', since)
    ensures FolderOwed(w, p, since) ==> FolderOwed(w', p, since)
  {}

  lemma BatchesStay(s: Settings, w: Watcher, w': Watcher, c: nat)
    requires Enter(w, w', c) || LookDisposed(w, w', c) || ResetWindow(w, w', c) || Leave(w, w', c) || Look(w, w', c)
             || Reschedule(s, w, w', c)
    ensures w'.delivered == w.delivered && w'.work == w.work
    ensures forall d <- w.callbacks ::
              w.callbacks[d].Delivering? ==> d in w'.callbacks && w'.callbacks[d] == w.callbacks[d]
  {}

  lemma NextOwes(s: Settings, w: Watcher, w': Watcher, p: string, since: nat)
    requires Inv(s, w) && Next(s, w, w') && since <= |w.delivered|
    ensures FullOwed(w, since) ==> FullOwed(w', since)
    ensures FolderOwed(w, p, since) ==> FolderOwed(w', p, since) || WasNoFolder(w, w', p)
  {
    hide FullOwed, FolderOwed, WasNoFolder, DueInTime, NoLostWakeup, QuietAfterDispose, EventStep, TimeStep;
    if EventStep(w, w') {
      RecordsOnly(w, w');
      SameOwes(w, w', p, since);
    } else if TimeStep(s, w, w') {
      TimeFrame(s, w, w');
      SameOwes(w, w', p, since);
    } else {
      var c :| CallbackStep(s, w, w', c);
      if Take(w, w', c) {
        var folders :| TakeWith(w, w', c, folders);
        TakeOwes(w, w', c, folders, p, since);
      } else if Deliver(w, w', c) {
        DeliverOwes(w, w', c, p, since);
      } else {
        BatchesStay(s, w, w', c);
        SameOwes(w, w', p, since);
      }
    }
  }

  /** Over any run: after events were lost, a full reconcile is pending, about to be handed over, or was since. */
  lemma {:induction false} OverflowIsKept(s: Settings, run: seq<Watcher>, i: nat, n: nat)
    requires IsRun(s, run) && i < n < |run| && Overflow(run[i], run[i + 1])
    ensures |run[i].delivered| <= |run[n].delivered| && FullOwed(run[n], |run[i].delivered|)
    decreases n
  {
    hide Next, Inv;
    if n > i + 1 {
      OverflowIsKept(s, run, i, n - 1);
      RunKeeps(s, run, n - 1);
      NextOwes(s, run[n - 1], run[n], "", |run[i].delivered|);
      MoreDelivered(s, run[n - 1], run[n]);
    }
  }

  /** Over any run: a path that an event recorded to count only if it is a folder is pending, in a batch that is about
      to be handed over, or in one that was since - or it was taken, and was no folder then. */
  lemma {:induction false} FolderIsKept(s: Settings, run: seq<Watcher>, i: nat, n: nat, p: string)
    requires IsRun(s, run) && i < n < |run| && RecordIfFolder(run[i], run[i + 1], p)
    ensures |run[i].delivered| <= |run[n].delivered|
    ensures FolderOwed(run[n], p, |run[i].delivered|)
            || exists k :: i < k < n && WasNoFolder(run[k], run[k + 1], p)
    decreases n
  {
    hide Next, Inv, WasNoFolder;
    if n > i + 1 {
      FolderIsKept(s, run, i, n - 1, p);
      RunKeeps(s, run, n - 1);
      MoreDelivered(s, run[n - 1], run[n]);
      if FolderOwed(run[n - 1], p, |run[i].delivered|) {
        NextOwes(s, run[n - 1], run[n], p, |run[i].delivered|);
        assert !FolderOwed(run[n], p, |run[i].delivered|) ==> WasNoFolder(run[n - 1], run[n - 1 + 1], p);
      }
    }
  }

  // ---- nothing is made up ----

  /** An event records the path. */
  ghost predicate Records(w: Watcher, w': Watcher, p: string) {
    Record(w, w', p, true) || Record(w, w', p, false) || RecordIfFolder(w, w', p)
  }

  ghost predicate RecordedBefore(run: seq<Watcher>, n: nat, p: string)
    requires n < |run|
  {
    exists i :: 0 <= i < n && Records(run[i], run[i + 1], p)
  }

  ghost predicate MadeBefore(run: seq<Watcher>, n: nat, p: string)
    requires n < |run|
  {
    exists i :: 0 <= i < n && Record(run[i], run[i + 1], p, true)
  }

  /** A path is taken as what it was recorded to count as: not as a folder, or as one. */
  ghost predicate TakenAsIs(w: Watcher, w': Watcher, p: string) {
    exists c, folders :: TakeWith(w, w', c, folders) &&
      ((p in w.work.paths && p !in folders) || (p in w.work.ifFolder && p in folders))
  }

  ghost predicate TakenBefore(run: seq<Watcher>, n: nat, p: string)
    requires n < |run|
  {
    exists i :: 0 <= i < n && TakenAsIs(run[i], run[i + 1], p)
  }

  /** Where a batch may have its paths from: those recorded by an event, those recorded as created, deleted or renamed,
      those taken as what they were recorded to count as; and whether events were lost. */
  datatype Sources = Sources(known: iset<string>, made: iset<string>, taken: iset<string>, lost: bool) {
    ghost predicate Within(g: Sources) { known <= g.known && made <= g.made && taken <= g.taken && (lost ==> g.lost) }
  }

  ghost function SourcesOf(run: seq<Watcher>, n: nat): Sources
    requires n < |run|
  {
    Sources((iset p: string | RecordedBefore(run, n, p)), (iset p: string | MadeBefore(run, n, p)),
            (iset p: string | TakenBefore(run, n, p)), LostBefore(run, n))
  }

  ghost predicate LostBefore(run: seq<Watcher>, n: nat)
    requires n < |run|
  {
    exists i :: 0 <= i < n && Overflow(run[i], run[i + 1])
  }

  /** A batch holds only paths that were recorded - as created, deleted or renamed, or taken as what they were to count
      as - and is full only if events were lost. */
  ghost predicate Founded(g: Sources, b: Batch) {
    (forall p <- b.paths :: p in g.known && (p in g.made || p in g.taken)) && (b.full ==> g.lost)
  }

  /** So do the work, the batches in hand, and those that were handed over. */
  ghost predicate AllFounded(w: Watcher, g: Sources) {
    && WorkFounded(w.work, g)
    && (forall c <- w.callbacks :: w.callbacks[c].Delivering? ==> Founded(g, w.callbacks[c].batch))
    && forall j :: 0 <= j < |w.delivered| ==> Founded(g, w.delivered[j])
  }

  /** What a step brings is among the sources. */
  ghost predicate StepGives(w: Watcher, w': Watcher, g: Sources) {
    && (forall p :: Records(w, w', p) ==> p in g.known) && (Overflow(w, w') ==> g.lost)
    && (forall p :: Record(w, w', p, true) ==> p in g.made)
    && forall p :: TakenAsIs(w, w', p) ==> p in g.taken
  }

  ghost predicate WorkFounded(work: Work, g: Sources) {
    && (forall p <- work.paths :: p in g.known && (work.paths[p] ==> p in g.made))
    && (forall p <- work.ifFolder :: p in g.known)
    && (work.overflow ==> g.lost)
  }

  lemma RecordFounded(w: Watcher, w': Watcher, p: string, structural: bool, g: Sources)
    requires Record(w, w', p, structural) && WorkFounded(w.work, g)
    requires p in g.known && (structural ==> p in g.made)
    ensures WorkFounded(w'.work, g)
  {}

  lemma NamedGives(w: Watcher, w': Watcher, p: string, g: Sources)
    requires StepGives(w, w', g)
    ensures Record(w, w', p, false) || RecordIfFolder(w, w', p) ==> p in g.known
    ensures Record(w, w', p, true) ==> p in g.known && p in g.made
  {
    hide Record, RecordIfFolder, TakenAsIs, Overflow;
    assert Records(w, w', p) ==> p in g.known;
  }

  lemma WorkStaysFounded(w: Watcher, w': Watcher, g: Sources)
    requires EventStep(w, w') && WorkFounded(w.work, g) && StepGives(w, w', g)
    ensures WorkFounded(w'.work, g)
  {
    if Overflow(w, w') {
      hide TakenAsIs, Record, Records;
    } else if p :| RecordIfFolder(w, w', p) {
      NamedGives(w, w', p, g);
    } else {
      hide Record, StepGives;
      var p, structural :| Record(w, w', p, structural);
      NamedGives(w, w', p, g);
      RecordFounded(w, w', p, structural, g);
    }
  }

  lemma EventFounded(w: Watcher, w': Watcher, g: Sources)
    requires EventStep(w, w') && AllFounded(w, g)
    requires StepGives(w, w', g)
    ensures AllFounded(w', g)
  {
    WorkStaysFounded(w, w', g);
    RecordsOnly(w, w');
    hide EventStep, StepGives, Founded, WorkFounded;
  }

  /** No batch comes into a callback's hands. */
  ghost predicate NoNewBatch(w: Watcher, w': Watcher) {
    && w'.work == w.work && w'.delivered == w.delivered
    && forall c <- w'.callbacks ::
         w'.callbacks[c].Delivering? ==> c in w.callbacks && w'.callbacks[c] == w.callbacks[c]
  }

  lemma TimeBringsNone(s: Settings, w: Watcher, w': Watcher)
    requires TimeStep(s, w, w')
    ensures NoNewBatch(w, w')
  {}

  lemma MoveBringsNone(s: Settings, w: Watcher, w': Watcher, c: nat)
    requires Enter(w, w', c) || LookDisposed(w, w', c) || ResetWindow(w, w', c) || Leave(w, w', c) || Look(w, w', c)
             || Reschedule(s, w, w', c)
    ensures NoNewBatch(w, w')
  {}

  lemma TakeFounded(w: Watcher, w': Watcher, c: nat, folders: set<string>, g: Sources)
    requires TakeWith(w, w', c, folders) && AllFounded(w, g) && forall p :: TakenAsIs(w, w', p) ==> p in g.taken
    ensures AllFounded(w', g)
  {
    forall p <- BatchOf(w.work, folders).paths ensures p in g.made || p in g.taken {
      if !(p in w.work.paths && w.work.paths[p]) { assert TakenAsIs(w, w', p); }
    }
    assert Founded(g, BatchOf(w.work, folders));
    hide Founded, BatchOf;
  }

  lemma SameFounded(w: Watcher, w': Watcher, g: Sources)
    requires NoNewBatch(w, w') && AllFounded(w, g)
    ensures AllFounded(w', g)
  {
    hide Founded;
  }

  lemma OtherFounded(s: Settings, w: Watcher, w': Watcher, g: Sources)
    requires TimeStep(s, w, w') || exists c :: CallbackStep(s, w, w', c)
    requires AllFounded(w, g) && forall p :: TakenAsIs(w, w', p) ==> p in g.taken
    ensures AllFounded(w', g)
  {
    hide AllFounded, TimeStep, NoNewBatch, TakenAsIs;
    if TimeStep(s, w, w') {
      TimeBringsNone(s, w, w');
      SameFounded(w, w', g);
    } else {
      var c :| CallbackStep(s, w, w', c);
      if Deliver(w, w', c) {
        DeliverFounded(w, w', c, g);
      } else if Take(w, w', c) {
        var folders :| TakeWith(w, w', c, folders);
        TakeFounded(w, w', c, folders, g);
      } else {
        MoveBringsNone(s, w, w', c);
        SameFounded(w, w', g);
      }
    }
  }

  lemma DeliverFounded(w: Watcher, w': Watcher, c: nat, g: Sources)
    requires Deliver(w, w', c) && AllFounded(w, g)
    ensures AllFounded(w', g)
  {
    hide Founded;
  }

  lemma MoreFounded(w: Watcher, g: Sources, g': Sources)
    requires AllFounded(w, g) && g.Within(g')
    ensures AllFounded(w, g')
  {}

  /** Over any run: what is pending, or in a batch - in hand, or handed over - was recorded by an event; a path that
      only changed is in a batch only if it was no folder when it was taken, and one that was to count only as a folder
      only if it was one; and a batch is full only if events were lost. */
  lemma {:induction false} NothingMadeUp(s: Settings, run: seq<Watcher>, n: nat)
    requires IsRun(s, run) && n < |run|
    ensures AllFounded(run[n], SourcesOf(run, n))
    decreases n
  {
    hide Next, AllFounded, Records, Record, Overflow, TakenAsIs;
    if n == 0 {
      NothingFounded(run[0], SourcesOf(run, 0));
    } else {
      NothingMadeUp(s, run, n - 1);
      MoreFounded(run[n - 1], SourcesOf(run, n - 1), SourcesOf(run, n));
      assert run[n] == run[n - 1 + 1];
      StepFounded(s, run[n - 1], run[n], SourcesOf(run, n));
    }
  }

  lemma NothingFounded(w: Watcher, g: Sources)
    requires Init(w)
    ensures AllFounded(w, g)
  {}

  lemma StepFounded(s: Settings, w: Watcher, w': Watcher, g: Sources)
    requires Next(s, w, w') && AllFounded(w, g)
    requires StepGives(w, w', g)
    ensures AllFounded(w', g)
  {
    hide EventStep, TimeStep, CallbackStep, AllFounded, Records, Record, Overflow, TakenAsIs;
    if EventStep(w, w') { EventFounded(w, w', g); } else { OtherFounded(s, w, w', g); }
  }
}

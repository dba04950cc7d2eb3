/** What is kept can be brought in: from every state that EditSteps can reach, with the gates free, a drain that the
    disk answers brings in what is listed or left to a rebuild, and a rebuild brings in everything and clears the
    note. */
module EditProgress {
  import opened Common
  import opened PendingEdits
  import opened EditSteps
  import opened EditInvariant
  import opened EditRuns

  /** A thread at work alone, that has the gates or is done with them. */
  function Alone(s: Sys, kind: Kind, at: Place, held: bool, counted: bool): Thread {
    Thread(s.f.epoch, at, true, held, counted, false, {}, kind, s.now)
  }

  // ---- a rebuild ----

  /** The session once a rebuild that a tool asked for holds the gates. */
  function Rebuilding(s: Sys, t: nat): Sys {
    s.(threads := s.threads[t := Alone(s, ForTool, Builds, true, true)], f := s.f.(rebuilding := s.f.rebuilding + 1))
  }

  function Rebuilt(s: Sys, t: nat): Sys {
    var u := Rebuilding(s, t);
    u.(threads := s.threads[t := Alone(s, ForTool, Wrote, true, true)],
       disk := Disk(Later(s.disk.shows, s.now), s.now, false))
  }

  function Served(s: Sys, t: nat): Sys {
    var u := Rebuilt(s, t);
    u.(threads := s.threads[t := Alone(s, ForTool, Installed, false, true)],
       f := u.f.(serving := true, state := Ready, newerFormat := false))
  }

  /** After it: the index is served, the note is off, and nothing is counted any more. */
  function Recovered(s: Sys, t: nat): Sys {
    var u := Served(s, t);
    u.(threads := s.threads[t := Alone(s, ForTool, Leaves, false, false).(gated := false)], noted := {},
       f := u.f.(note := s.f.note.(on := false), rebuilding := s.f.rebuilding))
  }

  function Asked(s: Sys, t: nat): Sys { s.(threads := s.threads[t := Work(s.f.epoch, ForTool)]) }

  lemma Begins(s: Sys, t: nat)
    requires GateFree(s) && s.other.None? && t !in s.threads
    ensures Leads(s, Start(t, ForTool), Asked(s, t)) && Leads(Asked(s, t), Enter(t), Rebuilding(s, t))
  {
    assert Asked(s, t).threads[t := Alone(s, ForTool, Builds, true, true)] == Rebuilding(s, t).threads;
  }

  lemma WritesAll(s: Sys, t: nat)
    ensures Leads(Rebuilding(s, t), Write(t), Rebuilt(s, t)) && Leads(Rebuilt(s, t), Swap(t), Served(s, t))
  {
    assert Rebuilding(s, t).threads[t := Alone(s, ForTool, Wrote, true, true)] == Rebuilt(s, t).threads;
    assert Rebuilt(s, t).threads[t := Alone(s, ForTool, Installed, false, true)] == Served(s, t).threads;
  }

  function Unnoted(s: Sys, t: nat, gated: bool): Sys {
    var u := Served(s, t);
    u.(threads := s.threads[t := Alone(s, ForTool, Leaves, false, true).(gated := gated)], noted := {},
       f := u.f.(note := s.f.note.(on := false)))
  }

  lemma Unnotes(s: Sys, t: nat)
    ensures Leads(Served(s, t), ClearNote(t), Unnoted(s, t, true))
  {
    assert Served(s, t).threads[t := Unnoted(s, t, true).threads[t]] == Unnoted(s, t, true).threads;
  }

  lemma Releases(s: Sys, t: nat)
    ensures Leads(Unnoted(s, t, true), Release(t), Unnoted(s, t, false))
  {
    assert Unnoted(s, t, true).threads[t := Unnoted(s, t, false).threads[t]] == Unnoted(s, t, false).threads;
  }

  lemma Uncounts(s: Sys, t: nat)
    ensures Leads(Unnoted(s, t, false), Uncount(t), Recovered(s, t))
  {
    assert Unnoted(s, t, false).threads[t := Recovered(s, t).threads[t]] == Recovered(s, t).threads;
  }

  /** Whatever became of its index before, one rebuild leaves the session with every edit it was told of in the index,
      the index served, and no note. */
  lemma RebuildRecovers(s: Sys, t: nat) returns (steps: seq<Step>, s': Sys)
    requires Inv(s) && GateFree(s) && s.other.None? && t !in s.threads
    ensures Reaches(s, steps, s') && s'.f.k == s.f.k && s'.f.rebuilding == s.f.rebuilding && GateFree(s')
    ensures s'.f.serving && s'.f.state == Ready && !s'.f.newerFormat && !s'.f.note.on && s'.noted == {}
    ensures forall e <- s.told :: Shown(s'.disk, e)
  {
    Begins(s, t);
    WritesAll(s, t);
    Unnotes(s, t);
    Releases(s, t);
    Uncounts(s, t);
    s' := Recovered(s, t);
    assert TimesOk(s);
    assert Reaches(s, [], s);
    hide Leads, Reaches, Inv, Asked, Rebuilding, Rebuilt, Served, Unnoted, Recovered;
    Then(s, [], s, Start(t, ForTool), Asked(s, t));
    steps := [] + [Start(t, ForTool)];
    Then(s, steps, Asked(s, t), Enter(t), Rebuilding(s, t));
    steps := steps + [Enter(t)];
    Then(s, steps, Rebuilding(s, t), Write(t), Rebuilt(s, t));
    steps := steps + [Write(t)];
    Then(s, steps, Rebuilt(s, t), Swap(t), Served(s, t));
    steps := steps + [Swap(t)];
    Then(s, steps, Served(s, t), ClearNote(t), Unnoted(s, t, true));
    steps := steps + [ClearNote(t)];
    Then(s, steps, Unnoted(s, t, true), Release(t), Unnoted(s, t, false));
    steps := steps + [Release(t)];
    Then(s, steps, Unnoted(s, t, false), Uncount(t), Recovered(s, t));
    steps := steps + [Uncount(t)];
    RecoveredIs(s, t);
  }

  lemma RecoveredIs(s: Sys, t: nat)
    requires GateFree(s) && Before(s.told, s.now)
    ensures var s' := Recovered(s, t);
            && s'.f.k == s.f.k && s'.f.rebuilding == s.f.rebuilding && GateFree(s')
            && s'.f.serving && s'.f.state == Ready && !s'.f.newerFormat && !s'.f.note.on && s'.noted == {}
            && forall e <- s.told :: Shown(s'.disk, e)
  {}

  // ---- a drain ----

  /** The session once a drain holds the gates, with the paths due that are to be asked about again. */
  function Draining(s: Sys, t: nat, at: Place, held: bool): Sys {
    Due(s).(threads := s.threads[t := Drain(s.f.epoch).(at := at, gated := held, locked := held)])
  }

  function Due(s: Sys): Sys { s.(f := s.f.(k := s.f.k.(unsureDue := s.f.k.unsure != {}))) }

  lemma Drains(s: Sys, t: nat)
    requires GateFree(s) && s.other.None? && t !in s.threads
    ensures Leads(s, RetryDue, Due(s)) && Leads(Due(s), StartDrain(t), Draining(s, t, Place.Draining, false))
    ensures Leads(Draining(s, t, Place.Draining, false), Enter(t), Draining(s, t, Place.Drains, true))
  {
    assert Draining(s, t, Place.Draining, false).threads[t := Draining(s, t, Place.Drains, true).threads[t]] ==
           Draining(s, t, Place.Drains, true).threads;
  }

  /** With every load fine and every path answered for, what is listed is applied, or a rebuild begins. */
  lemma Takes(s: Sys, t: nat, e: Edit) returns (s': Sys)
    requires Inv(s) && s.f.state == Ready && e in s.told
    requires e.path in s.f.k.paths || e.path in s.f.k.unsure || e in s.waiting
    ensures Leads(Draining(s, t, Place.Drains, true), Take(t, Fine, Fine, Did({})), s')
    ensures Shown(s'.disk, e) || (t in s'.threads && s'.threads[t].at.Builds? && s'.threads[t].since == s.now
                                  && s'.threads[t].epoch == s'.f.epoch)
  {
    var u := Draining(s, t, Place.Drains, true);
    assert TimesOk(s) && PendingOk(s);
    hide Inv;
    s' := After(u, Take(t, Fine, Fine, Did({})));
    assert e in s.waiting ==> Wanted(s.f.k);
    assert e.at <= s.now;
  }

  lemma Writes(s: Sys, t: nat, e: Edit) returns (s': Sys)
    requires t in s.threads && s.threads[t].at.Builds? && s.threads[t].since >= e.at && s.threads[t].epoch == s.f.epoch
    ensures Leads(s, Write(t), s') && Shown(s'.disk, e)
  {
    s' := After(s, Write(t));
  }

  /** An edit that is pending, that the disk did not answer for, or that is left to a rebuild: where an index is served
      and the gates are free, a drain brings it in. */
  lemma DrainBrings(s: Sys, t: nat, e: Edit) returns (steps: seq<Step>, s': Sys)
    requires Inv(s) && GateFree(s) && s.other.None? && t !in s.threads && s.f.state == Ready && e in s.told
    requires e.path in s.f.k.paths || e.path in s.f.k.unsure || e in s.waiting
    ensures Reaches(s, steps, s') && Shown(s'.disk, e)
  {
    Drains(s, t);
    var took := Takes(s, t, e);
    assert TimesOk(s);
    assert e.at <= s.now;
    assert Reaches(s, [], s);
    hide Leads, Reaches, Inv, Draining, Due;
    Then(s, [], s, RetryDue, Due(s));
    steps := [] + [RetryDue];
    Then(s, steps, Due(s), StartDrain(t), Draining(s, t, Place.Draining, false));
    steps := steps + [StartDrain(t)];
    Then(s, steps, Draining(s, t, Place.Draining, false), Enter(t), Draining(s, t, Place.Drains, true));
    steps := steps + [Enter(t)];
    Then(s, steps, Draining(s, t, Place.Drains, true), Take(t, Fine, Fine, Did({})), took);
    steps, s' := steps + [Take(t, Fine, Fine, Did({}))], took;
    if !Shown(took.disk, e) {
      s' := Writes(took, t, e);
      Then(s, steps, took, Write(t), s');
      steps := steps + [Write(t)];
    }
  }
}

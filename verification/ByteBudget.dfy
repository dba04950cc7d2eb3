/** A gate measured in bytes: requests are granted in the order they arrive, each taking its bytes until they are
    released. Every section under the monitor is one step; steps of all threads interleave. */
module ByteBudget {

  /** The gate's fields; who waits, by ticket, and for how much; and who holds how much. */
  datatype Gate = Gate(budget: int, available: int, nextTicket: nat, serving: nat, waiting: map<nat, int>,
    held: map<nat, int>)

  /** No request is for more than there is, nor for less than nothing. */
  function Reserve(budget: int, bytes: int): int {
    var b := if bytes > 0 then bytes else 0;
    if b < budget then b else budget
  }

  function New(bytes: int): Gate {
    var budget := if bytes > 1 then bytes else 1;
    Gate(budget, budget, 0, 0, map[], map[])
  }

  // ---- steps ----

  function Arrived(g: Gate, bytes: int): Gate {
    g.(nextTicket := g.nextTicket + 1, waiting := g.waiting[g.nextTicket := Reserve(g.budget, bytes)])
  }

  /** May the thread with this ticket go on? */
  predicate CanTake(g: Gate, ticket: nat) {
    ticket in g.waiting && ticket == g.serving && g.available >= g.waiting[ticket]
  }

  function Taken(g: Gate, ticket: nat): Gate
    requires CanTake(g, ticket)
  {
    g.(available := g.available - g.waiting[ticket], serving := g.serving + 1, waiting := g.waiting - {ticket},
       held := g.held[ticket := g.waiting[ticket]])
  }

  function Released(g: Gate, ticket: nat): Gate
    requires ticket in g.held
  {
    g.(available := g.available + g.held[ticket], held := g.held - {ticket})
  }

  datatype Step = Arrive(bytes: int) | Take(ticket: nat) | Release(released: nat)

  predicate Can(g: Gate, s: Step) {
    match s
    case Arrive(_) => true
    case Take(t) => CanTake(g, t)
    case Release(t) => t in g.held
  }

  function Do(g: Gate, s: Step): Gate
    requires Can(g, s)
  {
    match s
    case Arrive(bytes) => Arrived(g, bytes)
    case Take(t) => Taken(g, t)
    case Release(t) => Released(g, t)
  }

  // ---- bytes ----

  ghost function Total(m: map<nat, int>): int
    decreases m.Keys
  {
    if m.Keys == {} then 0 else var t :| t in m.Keys; m[t] + Total(m - {t})
  }

  lemma {:induction false} TotalLess(m: map<nat, int>, t: nat)
    requires t in m
    ensures Total(m) == m[t] + Total(m - {t})
    decreases m.Keys
  {
    var x :| x in m.Keys && Total(m) == m[x] + Total(m - {x});
    if x != t {
      TotalLess(m - {x}, t);
      TotalLess(m - {t}, x);
      assert m - {x} - {t} == m - {t} - {x};
    }
  }

  lemma TotalMore(m: map<nat, int>, t: nat, need: int)
    requires t !in m
    ensures Total(m[t := need]) == Total(m) + need
  {
    TotalLess(m[t := need], t);
    assert m[t := need] - {t} == m;
  }

  // ---- what every run keeps ----

  /** What is available and what is held make the budget; those who wait are the tickets from the one served next on,
      in a row; nobody asks for more than the budget. */
  ghost predicate Inv(g: Gate) {
    && g.budget >= 1 && 0 <= g.available <= g.budget
    && g.available + Total(g.held) == g.budget
    && g.serving <= g.nextTicket
    && (forall t: nat :: t in g.waiting <==> g.serving <= t < g.nextTicket)
    && (forall t <- g.held :: t < g.serving)
    && (forall t <- g.waiting :: 0 <= g.waiting[t] <= g.budget)
    && forall t <- g.held :: 0 <= g.held[t] <= g.budget
  }

  lemma NewKeeps(bytes: int)
    ensures Inv(New(bytes))
  {}

  lemma {:induction false} TotalIsNotNegative(m: map<nat, int>)
    requires forall t <- m :: m[t] >= 0
    ensures Total(m) >= 0
    decreases m.Keys
  {
    if m.Keys != {} {
      var t :| t in m.Keys && Total(m) == m[t] + Total(m - {t});
      TotalIsNotNegative(m - {t});
    }
  }

  lemma StepKeeps(g: Gate, s: Step)
    requires Inv(g) && Can(g, s)
    ensures Inv(Do(g, s))
  {
    hide Total, Reserve;
    match s {
      case Arrive(bytes) => ReserveBounds(g.budget, bytes);
      case Take(t) => TotalMore(g.held, t, g.waiting[t]);
      case Release(t) =>
        TotalLess(g.held, t);
        TotalIsNotNegative(g.held - {t});
    }
  }

  lemma ReserveBounds(budget: int, bytes: int)
    requires budget >= 1
    ensures 0 <= Reserve(budget, bytes) <= budget
  {}

  /** The gates of a run of steps. */
  ghost predicate IsRun(gates: seq<Gate>, steps: seq<Step>) {
    |gates| == |steps| + 1 && forall i :: 0 <= i < |steps| ==>
      Can(gates[i], steps[i]) && gates[i + 1] == Do(gates[i], steps[i])
  }

  lemma {:induction false} RunKeeps(gates: seq<Gate>, steps: seq<Step>, n: nat)
    requires IsRun(gates, steps) && Inv(gates[0]) && n < |gates|
    ensures Inv(gates[n])
    decreases n
  {
    hide Do, Inv;
    if n > 0 {
      RunKeeps(gates, steps, n - 1);
      StepKeeps(gates[n - 1], steps[n - 1]);
    }
  }

  /** Over any run of a new gate, what is available and what is held make the budget, and none of it is below
      nothing. */
  lemma Conserved(bytes: int, gates: seq<Gate>, steps: seq<Step>, n: nat)
    requires IsRun(gates, steps) && gates[0] == New(bytes) && n < |gates|
    ensures var g := gates[n]; g.available + Total(g.held) == New(bytes).budget && 0 <= g.available
  {
    NewKeeps(bytes);
    RunKeeps(gates, steps, n);
    SameBudget(gates, steps, n);
  }

  lemma {:induction false} SameBudget(gates: seq<Gate>, steps: seq<Step>, n: nat)
    requires IsRun(gates, steps) && n < |gates|
    ensures gates[n].budget == gates[0].budget
    decreases n
  {
    if n > 0 { SameBudget(gates, steps, n - 1); }
  }

  /** What a request for some bytes is to take: all it asks for, or - where it asks for more - all there is. */
  predicate AsAsked(budget: int, bytes: int, need: int) {
    if bytes <= 0 then need == 0 else need <= bytes && need <= budget && (need == bytes || need == budget)
  }

  /** What was asked for, in order of arrival. */
  function Asked(steps: seq<Step>): (asked: seq<int>)
    ensures |asked| <= |steps|
  {
    if steps == [] then []
    else Asked(steps[..|steps| - 1]) + if steps[|steps| - 1].Arrive? then [steps[|steps| - 1].bytes] else []
  }

  /** Whoever waits or holds, with whatever ticket: it waits for, or holds, what the request of that number asked. */
  ghost predicate TrueToRequests(g: Gate, asked: seq<int>) {
    && g.nextTicket == |asked|
    && (forall t <- g.waiting :: t < |asked| && AsAsked(g.budget, asked[t], g.waiting[t]))
    && forall t <- g.held :: t < |asked| && AsAsked(g.budget, asked[t], g.held[t])
  }

  /** Over any run of a new gate, each request waits for what it asked, and holds that from its grant to its release. */
  lemma {:induction false} HeldAsAsked(bytes: int, gates: seq<Gate>, steps: seq<Step>, n: nat)
    requires IsRun(gates, steps) && gates[0] == New(bytes) && n <= |steps|
    ensures TrueToRequests(gates[n], Asked(steps[..n]))
    decreases n
  {
    if n == 0 {
      assert steps[..0] == [];
    } else {
      HeldAsAsked(bytes, gates, steps, n - 1);
      NewKeeps(bytes);
      RunKeeps(gates, steps, n - 1);
      assert steps[..n][..n - 1] == steps[..n - 1];
      assert gates[n] == Do(gates[n - 1], steps[n - 1]);
      hide Inv, Total, IsRun;
      StaysTrue(gates[n - 1], steps[n - 1], Asked(steps[..n - 1]));
    }
  }

  lemma StaysTrue(g: Gate, s: Step, asked: seq<int>)
    requires Can(g, s) && g.budget >= 1 && TrueToRequests(g, asked)
    ensures TrueToRequests(Do(g, s), asked + if s.Arrive? then [s.bytes] else [])
  {}

  /** The tickets that were granted, in order. */
  function Granted(steps: seq<Step>): seq<nat> {
    if steps == [] then []
    else Granted(steps[..|steps| - 1]) + if steps[|steps| - 1].Take? then [steps[|steps| - 1].ticket] else []
  }

  /** Grants follow ticket order: the n-th grant is that of ticket n. */
  lemma {:induction false} GrantsInOrder(gates: seq<Gate>, steps: seq<Step>, n: nat, i: nat)
    requires IsRun(gates, steps) && gates[0].serving == 0 && n <= |steps|
    ensures |Granted(steps[..n])| == gates[n].serving
    ensures i < |Granted(steps[..n])| ==> Granted(steps[..n])[i] == i
    decreases n
  {
    if n == 0 {
      assert steps[..0] == [];
    } else {
      GrantsInOrder(gates, steps, n - 1, i);
      assert steps[..n][..n - 1] == steps[..n - 1];
      assert gates[n] == Do(gates[n - 1], steps[n - 1]);
    }
  }

  /** With somebody waiting and nobody holding, the head of the line can go on - whatever it asked for. */
  lemma HeadCanGoOn(g: Gate)
    requires Inv(g) && g.waiting != map[] && g.held == map[]
    ensures CanTake(g, g.serving)
  {
    assert Total(map[]) == 0;
    var t :| t in g.waiting;
    assert g.serving in g.waiting;
  }

  /** A waiter's distance to the head of the line only falls; by one with each grant. */
  lemma DistanceFalls(g: Gate, s: Step, t: nat)
    requires Inv(g) && Can(g, s) && t in g.waiting && s != Take(t)
    ensures var g' := Do(g, s);
            && t in g'.waiting && t >= g'.serving
            && t - g'.serving == (t - g.serving) - (if s.Take? then 1 else 0)
  {
    StepKeeps(g, s);
  }

  /** A step towards a waiter's grant: a release while anyone holds, the grant of the head once nobody does. */
  lemma TowardsGrant(g: Gate, t: nat) returns (s: Step)
    requires Inv(g) && t in g.waiting
    ensures Can(g, s) && !s.Arrive?
    ensures s != Take(t) ==>
              && Inv(Do(g, s)) && t in Do(g, s).waiting && t >= Do(g, s).serving
              && (Do(g, s).serving > g.serving || (Do(g, s).serving == g.serving && |Do(g, s).held| < |g.held|))
  {
    hide Total, Reserve, Inv;
    if g.held != map[] {
      var h :| h in g.held;
      s := Release(h);
      Fewer(g.held, h);
    } else {
      HeadCanGoOn(g);
      s := Take(g.serving);
    }
    if s != Take(t) {
      StepKeeps(g, s);
      DistanceFalls(g, s, t);
    }
  }

  lemma Fewer(m: map<nat, int>, t: nat)
    requires t in m
    ensures |m - {t}| < |m|
  {
    assert (m - {t}).Keys == m.Keys - {t};
    assert |m.Keys| == |m| && |(m - {t}).Keys| == |m - {t}|;
  }

  lemma OneStepFirst(g: Gate, s: Step, gates: seq<Gate>, steps: seq<Step>)
    requires Can(g, s) && IsRun(gates, steps) && gates[0] == Do(g, s)
    ensures IsRun([g] + gates, [s] + steps)
  {
    hide Do, Can;
  }

  /** No deadlock: from any state, releases and grants alone lead to the grant of any waiter - without more arriving,
      and whatever it and the others asked for. */
  lemma {:induction false} AlwaysServable(g: Gate, t: nat) returns (gates: seq<Gate>, steps: seq<Step>)
    requires Inv(g) && t in g.waiting && t >= g.serving
    ensures IsRun(gates, steps) && gates[0] == g && steps != []
    ensures steps[|steps| - 1] == Take(t) && forall s <- steps :: !s.Arrive?
    decreases t - g.serving, |g.held|
  {
    hide Inv, Do, Can, IsRun;
    var s := TowardsGrant(g, t);
    if s == Take(t) {
      gates, steps := [g, Do(g, s)], [s];
      OneStep(g, s);
    } else {
      gates, steps := AlwaysServable(Do(g, s), t);
      OneStepFirst(g, s, gates, steps);
      gates, steps := [g] + gates, [s] + steps;
    }
  }

  lemma OneStep(g: Gate, s: Step)
    requires Can(g, s)
    ensures IsRun([g, Do(g, s)], [s])
  {}
}

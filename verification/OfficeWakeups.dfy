/**
 The office system with spurious wakeups: besides its steps, any thread that sleeps on a condition variable may wake
 at any time. Safety, the absence of lost wakeups and progress do not depend on wakeups being true; only the bound on
 the length of runs does.
 */
module OfficeWakeups {
  import opened Counting
  import opened Offices
  import opened OfficeInvariant
  import opened OfficeSteps
  import opened OfficeMessages
  import opened OfficeProgress
  import opened OfficeOutcomes
  import opened OfficeRouting

  datatype Event = Step(t: nat, mark: bool) | Wake(t: nat)

  predicate CanHappen(k: nat, s: State, e: Event) {
    match e
    case Step(t, _) => CanStep(k, s, t)
    case Wake(t) => t < |s.threads| && Asleep(s.threads[t].pc)
  }

  function Happens(k: nat, s: State, e: Event): State
    requires CanHappen(k, s, e)
  {
    match e
    case Step(t, mark) => Next(k, s, t, mark)
    case Wake(t) => s.(threads := Goto(s.threads, t, Awake(s.threads[t].pc)))
  }

  predicate Possible(k: nat, s: State, events: seq<Event>)
    decreases |events|
  {
    events == [] || (CanHappen(k, s, events[0]) && Possible(k, Happens(k, s, events[0]), events[1..]))
  }

  function History(k: nat, s: State, events: seq<Event>): State
    requires Possible(k, s, events)
    decreases |events|
  {
    if events == [] then s else History(k, Happens(k, s, events[0]), events[1..])
  }

  lemma WakeInv(k: nat, s: State, t: nat)
    requires Inv(k, s) && t < |s.threads| && Asleep(s.threads[t].pc)
    ensures Inv(k, s.(threads := Goto(s.threads, t, Awake(s.threads[t].pc))))
  {
    hide Inv;
    Mover(k, s, t);
    QuietInv(k, s, s.(threads := Goto(s.threads, t, Awake(s.threads[t].pc))), t);
  }

  lemma WakeRouting(k: nat, s: State, t: nat)
    requires RoutingInv(k, s) && t < |s.threads| && Asleep(s.threads[t].pc)
    ensures RoutingInv(k, s.(threads := Goto(s.threads, t, Awake(s.threads[t].pc))))
  {
    forall x | 0 <= x < k ensures DeskAt(k, Goto(s.threads, t, Awake(s.threads[t].pc)), x) {
      GotoDesk(k, s, t, Awake(s.threads[t].pc), x);
    }
  }

  lemma {:induction false} HistoryInv(k: nat, s: State, events: seq<Event>)
    requires Inv(k, s) && RoutingInv(k, s) && Possible(k, s, events)
    ensures Inv(k, History(k, s, events)) && RoutingInv(k, History(k, s, events))
    decreases |events|
  {
    hide Inv, RoutingInv, Next, CanStep;
    if events != [] {
      match events[0]
      case Step(t, mark) =>
        StepInv(k, s, t, mark);
        StepRouting(k, s, t, mark);
        HistoryInv(k, Happens(k, s, events[0]), events[1..]);
      case Wake(t) =>
        WakeInv(k, s, t);
        WakeRouting(k, s, t);
        HistoryInv(k, Happens(k, s, events[0]), events[1..]);
    }
  }

  /** Every promise that does not count steps, in every state that can be reached with spurious wakeups. */
  lemma SurvivesWakeups(k: nat, events: seq<Event>, t: nat, x: nat, u: nat)
    requires k >= 1 && x < k && Possible(k, Initial(k), events)
    ensures var s := History(k, Initial(k), events);
      && k <= |s.threads|
      && (Enabled(s, t) ==> Safe(k, s, t))
      && (t < |s.threads| ==> TrulyAsleep(k, s, t))
      && s.sends <= 6 * k && s.num == Count(s.threads[..k], NotSigned) && s.signals <= 1
      && (k >= 2 && (exists y :: 0 <= y < k && !s.threads[y].pc.Gone?) ==> exists v: nat :: CanStep(k, s, v))
      && (s.threads[x].card.leg == 2 && s.threads[x].card.place == Served(u) ==> u == k + s.threads[x].card.desk)
  {
    hide Inv, RoutingInv, Initial, Possible, History, CanStep, TrulyAsleep, Enabled, Safe;
    InitialInv(k);
    InitialRouting(k);
    HistoryInv(k, Initial(k), events);
    var s := History(k, Initial(k), events);
    CountersOfStates(k, s);
    if Enabled(s, t) {
      EnabledIsSafe(k, s, t);
    }
    if t < |s.threads| {
      SleepersOfStates(k, s, t);
    }
    if y :| k >= 2 && 0 <= y < k && !s.threads[y].pc.Gone? {
      var v := SomeoneCanStep(k, s, y);
    }
    if s.threads[x].card.leg == 2 && s.threads[x].card.place == Served(u) {
      ThirdTrip(k, s, x, u);
    }
  }
}

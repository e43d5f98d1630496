/** What a server that looks for work takes up: an office serves its urgent requests before the normal ones. */
module OfficeChoices {
  import opened Counting
  import opened Options
  import opened Offices
  import opened OfficeInvariant
  import opened OfficeSteps
  import opened OfficeMessages
  import opened OfficeResults

  /** A request waits in `q` that has been counted and that no server has taken a ticket for. */
  ghost predicate Waits(s: State, q: Queue) {
    |Contents(s, q)| > Count(s.threads, InFlight(q))
  }

  lemma WaitsMeansTicket(k: nat, s: State, q: Queue)
    requires Inv(k, s) && q in TICKETS
    ensures q in s.tickets && (Waits(s, q) <==> s.tickets[q] != 0)
  {
    hide Inv;
    Pieces(k, s);
    hide LockInv, LocalInv, QueueInv, PlaceInv, SleepInv, CountInv;
    assert q in s.tickets.Keys;
    assert 0 <= s.tickets[q] == |Contents(s, q)| - Count(s.threads, InFlight(q));
  }

  /** In any state of any run, an office that looks for work takes an urgent request if one waits, else a normal one. */
  lemma UrgentFirst(k: nat, schedule: seq<(nat, bool)>, t: nat, mark: bool)
    requires k >= 1 && Feasible(k, Initial(k), schedule) && k <= t < k + OFFICES
    requires var s := Run(k, Initial(k), schedule); CanStep(k, s, t) && s.threads[t].pc == TTest
    ensures var s := Run(k, Initial(k), schedule);
      var s' := Next(k, s, t, mark);
      && |s'.threads| == |s.threads|
      && s'.threads[t].pc == if Waits(s, UrgentQ(t - k)) then TUnlock(UrgentQ(t - k))
                             else if Waits(s, NormalQ) then TUnlock(NormalQ)
                             else TSleep
  {
    hide Inv, Initial, Feasible, Run, Waits;
    InitialInv(k);
    RunInv(k, Initial(k), schedule);
    var s := Run(k, Initial(k), schedule);
    WaitsMeansTicket(k, s, UrgentQ(t - k));
    WaitsMeansTicket(k, s, NormalQ);
  }

  /** The special office takes a request exactly if one waits. */
  lemma SpecialWhenWaiting(k: nat, schedule: seq<(nat, bool)>, mark: bool)
    requires k >= 1 && Feasible(k, Initial(k), schedule)
    requires var s := Run(k, Initial(k), schedule); CanStep(k, s, k + OFFICES) && s.threads[k + OFFICES].pc == TTest
    ensures var s := Run(k, Initial(k), schedule);
      var s' := Next(k, s, k + OFFICES, mark);
      && |s'.threads| == |s.threads|
      && s'.threads[k + OFFICES].pc == if Waits(s, SpecialQ) then TUnlock(SpecialQ) else TSleep
  {
    hide Inv, Initial, Feasible, Run, Waits;
    InitialInv(k);
    RunInv(k, Initial(k), schedule);
    WaitsMeansTicket(k, Run(k, Initial(k), schedule), SpecialQ);
  }
}

/** How runs of the office system end, and for how many students they end well. */
module OfficeOutcomes {
  import opened Counting
  import opened Options
  import opened Offices
  import opened OfficeInvariant
  import opened OfficeSteps
  import opened OfficeMessages
  import opened OfficeResults
  import opened OfficeProgress
  import opened OfficeBounds

  ghost predicate AllGone(k: nat, s: State) {
    forall x :: 0 <= x < k && x < |s.threads| ==> s.threads[x].pc.Gone?
  }

  // ---------------------------------------------------------------- along the way

  /** Thread `t` is awake, or sleeps on a condition that is false. */
  ghost predicate TrulyAsleep(k: nat, s: State, t: nat)
    requires t < |s.threads|
  {
    match s.threads[t].pc
    case SSleep(q, _) => q.UrgentQ? && q in s.items && |s.items[q]| == k / 2
    case RSleep(q) => t < k && q == AnswerQ(t) && q in s.items && s.items[q] == []
    case TSleep => k <= t < k + OFFICES + 1 && s.tickets.Keys == TICKETS && Choice(k, s, t) == None
    case _ => true
  }

  lemma SleepersOfStates(k: nat, s: State, t: nat)
    requires Inv(k, s) && t < |s.threads|
    ensures TrulyAsleep(k, s, t)
  {
    hide Inv, Shape, LockInv, LocalInv, QueueInv, PlaceInv, TicketInv, SleepInv, CountInv;
    Pieces(k, s);
    Mover(k, s, t);
    SleeperAt(k, s, t);
    if s.threads[t].pc.SSleep? {
      var q := s.threads[t].pc.q;
      if !q.UrgentQ? {
        NeverFull(k, s, t, q, s.threads[t].pc.m);
      }
    }
  }

  /** Nobody sleeps on a condition that has come true, in any state of any run. */
  lemma NoLostWakeup(k: nat, schedule: seq<(nat, bool)>, t: nat)
    requires k >= 1 && Feasible(k, Initial(k), schedule) && t < |Run(k, Initial(k), schedule).threads|
    ensures TrulyAsleep(k, Run(k, Initial(k), schedule), t)
  {
    hide Inv, Initial, Feasible, Run, TrulyAsleep;
    InitialInv(k);
    RunInv(k, Initial(k), schedule);
    SleepersOfStates(k, Run(k, Initial(k), schedule), t);
  }

  lemma HopsBound(k: nat, s: State)
    requires Inv(k, s)
    ensures Sum(s.threads[..k], Hops) <= 6 * k
  {
    hide Inv;
    Pieces(k, s);
    forall x | 0 <= x < k ensures Hops(s.threads[..k][x]) <= 6 {
      Mover(k, s, x);
    }
    SumBound(s.threads[..k], Hops, 6);
  }

  lemma CountersOfStates(k: nat, s: State)
    requires Inv(k, s)
    ensures k <= |s.threads| && s.sends <= 6 * k && s.num == Count(s.threads[..k], NotSigned)
    ensures s.signals + Count(s.threads[..k], Killer) <= 1
    ensures s.signals + Count(s.threads[..k], Killer) == 1 <==> forall x :: 0 <= x < k ==> !NotSigned(s.threads[x])
  {
    hide Inv;
    Pieces(k, s);
    HopsBound(k, s);
    CountNone(s.threads[..k], NotSigned);
    assert forall x :: 0 <= x < k ==> s.threads[..k][x] == s.threads[x];
  }

  /**
   At most six messages per student; the number kept by the program is the number of students that have not signed
   off; the signal that ends the program is sent at most once, and not before all have.
   */
  lemma CountersOfRuns(k: nat, schedule: seq<(nat, bool)>)
    requires k >= 1 && Feasible(k, Initial(k), schedule)
    ensures var e := Run(k, Initial(k), schedule);
      && k <= |e.threads|
      && e.sends <= 6 * k
      && e.num == Count(e.threads[..k], NotSigned)
      && e.signals + Count(e.threads[..k], Killer) <= 1
      && (e.signals + Count(e.threads[..k], Killer) == 1 <==> forall x :: 0 <= x < k ==> !NotSigned(e.threads[x]))
  {
    hide Initial, Feasible, Run, Inv;
    InitialInv(k);
    RunInv(k, Initial(k), schedule);
    CountersOfStates(k, Run(k, Initial(k), schedule));
  }

  // ---------------------------------------------------------------- at the end

  lemma GoneCounts(k: nat, s: State)
    requires k >= 1 && k <= |s.threads| && CountInv(k, s) && AllGone(k, s)
    ensures s.num == 0 && s.signals == 1
  {
    CountNone(s.threads[..k], NotSigned);
    CountNone(s.threads[..k], Killer);
  }

  /**
   A run that cannot go on has let every student leave, with one signal and no request left over, unless the only
   student of a system with urgent queues of length zero was sent to one.
   */
  lemma EveryMaximalRun(k: nat, schedule: seq<(nat, bool)>)
    requires k >= 1 && Feasible(k, Initial(k), schedule) && Stuck(Run(k, Initial(k), schedule))
    ensures var e := Run(k, Initial(k), schedule);
      && |e.threads| == k + OFFICES + 1
      && (AllGone(k, e) <==> k >= 2 || e.threads[0].card.leg != 2)
      && (AllGone(k, e) ==> e.num == 0 && e.signals == 1)
      && (forall q :: q in TICKETS ==> Contents(e, q) == [])
      && (forall u :: k <= u < |e.threads| ==> e.threads[u].pc == TSleep)
  {
    hide Inv, Shape, LockInv, LocalInv, QueueInv, PlaceInv, TicketInv, SleepInv, CountInv, Stuck, Initial, Feasible,
        Run;
    InitialInv(k);
    RunInv(k, Initial(k), schedule);
    var e := Run(k, Initial(k), schedule);
    Pieces(k, e);
    Mover(k, e, 0);
    forall q | q in TICKETS ensures Contents(e, q) == [] {
      StuckQueuesEmpty(k, e, q);
    }
    StuckMeansAsleep(k, e);
    forall u | k <= u < |e.threads| ensures e.threads[u].pc == TSleep {
      SleepingServer(k, e, u);
    }
    forall x | 0 <= x < k ensures e.threads[x].pc.Gone? || (k == 1 && e.threads[x].card.leg == 2) {
      StuckStudent(k, e, x);
    }
    if k == 1 {
      InitialUnserved();
      RunUnserved(Initial(1), schedule);
    }
    if AllGone(k, e) {
      GoneCounts(k, e);
    }
  }

  // ---------------------------------------------------------------- one student

  /** With one student the urgent queues have length zero: a second visit to an office never gets past the send. */
  ghost predicate Unserved(s: State) {
    |s.threads| > 0 && (s.threads[0].card.leg == 2 ==> s.threads[0].card.place == Home)
  }

  lemma InitialUnserved()
    ensures Unserved(Initial(1))
  {}

  lemma NoRoom(s: State, q: Queue)
    requires Inv(1, s) && q in s.items && q.UrgentQ?
    ensures |s.items[q]| == Dim(1, q)
  {
    hide Inv;
    Pieces(1, s);
    InQueue(1, s, q);
  }

  lemma StepUnserved(s: State, t: nat, mark: bool)
    requires Inv(1, s) && CanStep(1, s, t) && Unserved(s)
    ensures Unserved(Next(1, s, t, mark))
  {
    hide Inv;
    Mover(1, s, t);
    Mover(1, s, 0);
    match s.threads[t].pc
    case STest(q, m) => if q.UrgentQ? { NoRoom(s, q); }
    case RTest(q) => if s.items[q] != [] { FetchedPlace(1, s, t, q); }
    case _ =>
  }

  lemma {:induction false} RunUnserved(s: State, schedule: seq<(nat, bool)>)
    requires Inv(1, s) && Unserved(s) && Feasible(1, s, schedule)
    ensures Unserved(Run(1, s, schedule))
    decreases |schedule|
  {
    hide Inv, Next, CanStep, Unserved;
    if schedule != [] {
      StepInv(1, s, schedule[0].0, schedule[0].1);
      StepUnserved(s, schedule[0].0, schedule[0].1);
      RunUnserved(Next(1, s, schedule[0].0, schedule[0].1), schedule[1..]);
    }
  }

  predicate Carries(pc: Pc, m: Info) {
    match pc
    case SLock(_, n) => m == n
    case STest(_, n) => m == n
    case SSleep(_, n) => m == n
    case _ => false
  }

  predicate Leaving(pc: Pc) {
    pc.NLock? || pc.NDec? || pc.NUnlock? || pc.Kill? || pc.Gone?
  }

  predicate AllUrgent(ms: seq<Info>) {
    forall i :: 0 <= i < |ms| ==> ms[i].urgent
  }

  /** The one student, if every office marks it urgent: no first answer lets it leave. */
  ghost predicate Marked(s: State) {
    && Unserved(s) && !Leaving(s.threads[0].pc)
    && (s.threads[0].card.leg == 0 ==>
        && (s.threads[0].pc.RUnlock? ==> s.threads[0].pc.m.urgent)
        && AllUrgent(Contents(s, AnswerQ(0)))
        && (forall u, m :: 1 <= u < |s.threads| && Carries(s.threads[u].pc, m) ==> m.urgent))
  }

  lemma MarkedKept(s: State, s': State, t: nat)
    requires Marked(s) && Unserved(s') && Frame(s.threads, s'.threads, t, 0)
    requires s'.threads[0].card.leg == 0 ==> s.threads[0].card.leg == 0
    requires t == 0 ==> !Leaving(s'.threads[0].pc)
    requires s'.threads[0].card.leg == 0 ==>
      && AllUrgent(Contents(s', AnswerQ(0)))
      && (t == 0 && s'.threads[0].pc.RUnlock? ==> s'.threads[0].pc.m.urgent)
      && (t >= 1 ==> forall m :: Carries(s'.threads[t].pc, m) ==> m.urgent)
    ensures Marked(s')
  {
    if t != 0 { assert Kept(s.threads[0].pc, s'.threads[0].pc); }
    if s'.threads[0].card.leg == 0 {
      forall u, m | 1 <= u < |s'.threads| && Carries(s'.threads[u].pc, m) ensures m.urgent {
        if u != t {
          assert Kept(s.threads[u].pc, s'.threads[u].pc);
          assert Carries(s.threads[u].pc, m);
        }
      }
    }
  }

  /** A step without a message: the mover changes its program counter, and queues at most come into being. */
  lemma QuietMarked(s: State, s': State, t: nat, pc': Pc)
    requires Marked(s) && Unserved(s') && t < |s.threads| && s'.threads == Goto(s.threads, t, pc')
    requires Contents(s', AnswerQ(0)) == Contents(s, AnswerQ(0)) && !pc'.RUnlock? && (t == 0 ==> !Leaving(pc'))
    requires t >= 1 ==> forall m :: Carries(pc', m) ==> Carries(s.threads[t].pc, m)
    ensures Marked(s')
  {
    GotoFrame(s.threads, t, pc');
    MarkedKept(s, s', t);
  }

  lemma StoreMarked(s: State, s': State, t: nat, q: Queue, m: Info)
    requires Inv(1, s) && Marked(s) && t < |s.threads| && s.threads[t].pc == STest(q, m) && q in s.items
    requires t == 0 || m.id < |s.threads|
    requires s' == Store(1, s, t, q, m) && Unserved(s')
    ensures Marked(s')
  {
    hide Inv, Unserved;
    Mover(1, s, t);
    var x := if t == 0 then t else m.id;
    GotoBroadcast(s.threads, t, x, if t == 0 then Queued(q) else Answered, SCond(q, m), NotEmpty(q));
    MarkedKept(s, s', t);
  }

  lemma FetchMarked(s: State, s': State, t: nat, q: Queue)
    requires Inv(1, s) && Marked(s) && t < |s.threads| && s.threads[t].pc == RTest(q) && q in s.items
      && s.items[q] != []
    requires (t == 0 || s.items[q][0].id < |s.threads|) && s' == Fetch(1, s, t, q) && Unserved(s')
    ensures Marked(s')
  {
    hide Inv, Unserved;
    Mover(1, s, t);
    FetchedPlace(1, s, t, q);
    GotoBroadcast(s.threads, t, 0, if t == 0 then Back else Served(t), RUnlock(q, s.items[q][0]), NotFull(q));
    assert AllUrgent(Contents(s, AnswerQ(0))) ==> AllUrgent(Contents(s', AnswerQ(0)));
    MarkedKept(s, s', t);
  }

  lemma CountMarked(s: State, s': State, t: nat, q: Queue, m: Info)
    requires Marked(s) && t < |s.threads| && s.threads[t].pc == SCount(q, m) && (Counter(q, m).Some? ==> q in s.tickets)
    requires s' == CountTicket(s, t, q, m) && Unserved(s')
    ensures Marked(s')
  {
    PutSame(s.threads, t);
    GotoBroadcast(s.threads, t, t, s.threads[t].card.place, SFree(q, m), Ticket);
    MarkedKept(s, s', t);
  }

  lemma HandleMarked(s: State, s': State, t: nat, q: Queue, m: Info)
    requires Inv(1, s) && Marked(s) && t < |s.threads| && s.threads[t].pc == RUnlock(q, m)
      && (t == 0 || m.id < |s.threads|)
    requires s' == Handle(1, s, t, q, m, true) && Unserved(s')
    ensures Marked(s')
  {
    hide Inv;
    Mover(1, s, t);
    Mover(1, s, 0);
    MarkedKept(s, s', t);
  }

  lemma StepMarked(s: State, t: nat)
    requires Inv(1, s) && CanStep(1, s, t) && Marked(s)
    ensures Marked(Next(1, s, t, true))
  {
    hide Inv, Unserved;
    StepUnserved(s, t, true);
    hide Marked;
    Mover(1, s, t);
    NotLeaving(s, t);
    var s' := Next(1, s, t, true);
    var pc := s.threads[t].pc;
    if pc.STest? && |s.items[pc.q]| != Dim(1, pc.q) {
      StoreMarked(s, s', t, pc.q, pc.m);
    } else if pc.RTest? && s.items[pc.q] != [] {
      FetchMarked(s, s', t, pc.q);
    } else if pc.SCount? {
      CountMarked(s, s', t, pc.q, pc.m);
    } else if pc.RUnlock? {
      HandleMarked(s, s', t, pc.q, pc.m);
    } else if pc.Begin? {
      BeginMarked(s, s', t);
    } else {
      QuietMarked(s, s', t, s'.threads[t].pc);
    }
  }

  lemma NotLeaving(s: State, t: nat)
    requires Inv(1, s) && Marked(s) && t < |s.threads|
    ensures !Leaving(s.threads[t].pc)
  {
    hide Inv;
    Mover(1, s, t);
  }

  lemma BeginMarked(s: State, s': State, t: nat)
    requires Inv(1, s) && Marked(s) && t < |s.threads| && s.threads[t].pc == Begin && s' == Create(1, s, t)
      && Unserved(s')
    ensures Marked(s')
  {
    hide Inv;
    Pieces(1, s);
    Mover(1, s, t);
    QuietMarked(s, s', t, s'.threads[t].pc);
  }

  lemma {:induction false} Exhaust(s: State) returns (schedule: seq<(nat, bool)>)
    requires Inv(1, s) && Marked(s)
    ensures Feasible(1, s, schedule) && Stuck(Run(1, s, schedule)) && Marked(Run(1, s, schedule))
    decreases Measure(s.threads)
  {
    hide Inv, Marked, Next, Safe, Measure;
    if Stuck(s) {
      schedule := [];
    } else {
      var t: nat :| Enabled(s, t);
      EnabledIsSafe(1, s, t);
      StepInv(1, s, t, true);
      StepMarked(s, t);
      StepDrops(1, s, t, true);
      var rest := Exhaust(Next(1, s, t, true));
      schedule := [(t, true)] + rest;
      assert schedule[1..] == rest;
    }
  }

  lemma InitialMarked()
    ensures Marked(Initial(1))
  {}

  /** Every run that cannot go on has let all students leave, exactly if there are at least two of them. */
  lemma AllLeaveIffTwo(k: nat)
    requires k >= 1
    ensures (forall schedule :: Feasible(k, Initial(k), schedule) && Stuck(Run(k, Initial(k), schedule))
              ==> AllGone(k, Run(k, Initial(k), schedule)))
            <==> k >= 2
  {
    hide Initial, Feasible, Run, Stuck, Marked;
    if k == 1 {
      InitialInv(1);
      InitialMarked();
      var schedule := Exhaust(Initial(1));
      EveryMaximalRun(1, schedule);
      MarkedStays(Run(1, Initial(1), schedule));
    } else {
      forall schedule | Feasible(k, Initial(k), schedule) && Stuck(Run(k, Initial(k), schedule))
        ensures AllGone(k, Run(k, Initial(k), schedule)) {
        EveryMaximalRun(k, schedule);
      }
    }
  }

  lemma MarkedStays(s: State)
    requires Marked(s)
    ensures !AllGone(1, s)
  {
    assert Leaving(s.threads[0].pc) || !s.threads[0].pc.Gone?;
  }
}

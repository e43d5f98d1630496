/**
 The office system gets somewhere: no step touches a queue that does not exist, some thread can step until every
 student has signed off, and no run goes on for ever.
 */
module OfficeProgress {
  import opened Counting
  import opened Options
  import opened Offices
  import opened OfficeInvariant
  import opened OfficeSteps
  import opened OfficeMessages
  import opened OfficeResults

  // ---------------------------------------------------------------- every queue used exists

  lemma QueueExists(k: nat, s: State, o: nat)
    requires Shape(k, s) && Started(k, s.threads, o) && o < OFFICES
    ensures UrgentQ(o) in s.items
  {}

  lemma OwnQueueExists(k: nat, s: State, x: nat)
    requires Shape(k, s) && x < k && x < |s.threads| && Local(k, s.threads, x) && Out(s.threads[x].card.place)
    ensures AnswerQ(x) in s.items
  {}

  /** A thread that the mutexes let go on finds every queue it works on, or whose address it compares, created. */
  lemma EnabledIsSafe(k: nat, s: State, t: nat)
    requires Inv(k, s) && Enabled(s, t)
    ensures Safe(k, s, t)
  {
    hide Inv, QueueInv, PlaceInv, TicketInv, SleepInv, CountInv, QueueOk;
    Pieces(k, s);
    Mover(k, s, t);
    match s.threads[t].pc
    case STest(q, m) =>
      if t >= k { OwnQueueExists(k, s, m.id); }
      else if q.UrgentQ? { QueueExists(k, s, q.office); }
    case SCount(q, m) =>
      CounterOf(k, s, t, q, m);
      if m.urgent { QueueExists(k, s, m.office); }
    case RTest(q) =>
      if t < k { OwnQueueExists(k, s, t); }
      else {
        ServerFindsMessage(k, s, t, q);
        InQueue(k, s, q);
        KnownSenders(k, s.threads, q, s.items[q]);
      }
    case RUnlock(q, m) =>
    case _ =>
  }

  lemma KnownSenders(k: nat, threads: seq<Thread>, q: Queue, ms: seq<Info>)
    requires k <= |threads| && QueueOk(k, threads, q, ms)
    ensures forall i :: 0 <= i < |ms| ==> ms[i].id < k
  {
    forall i | 0 <= i < |ms| ensures ms[i].id < k {
      assert Belongs(k, threads, q, ms[i]);
    }
  }

  // ---------------------------------------------------------------- someone can step

  /**
   A thread that holds a mutex is never asleep and waits at most for the counters' mutex; the holder of that one, or
   of the students' one, waits for none.
   */
  lemma LockOrder(pc: Pc)
    requires Held(pc) != {}
    ensures !Asleep(pc) && !pc.Gone? && (Wants(pc) == None || Wants(pc) == Some(CondLock))
    ensures CondLock in Held(pc) || NumLock in Held(pc) ==> Wants(pc) == None
  {}

  lemma HolderSteps(k: nat, s: State, x: Mutex) returns (t: nat)
    requires LockInv(s) && x in s.locks
    ensures Enabled(s, t)
  {
    t := s.locks[x];
    assert x in Held(s.threads[t].pc);
    LockOrder(s.threads[t].pc);
    if Wants(s.threads[t].pc).Some? && CondLock in s.locks {
      t := s.locks[CondLock];
      assert CondLock in Held(s.threads[t].pc);
      LockOrder(s.threads[t].pc);
    }
  }

  /** What a thread that is neither asleep nor gone waits for, exactly: a mutex that another thread holds. */
  lemma WaitsExactly(k: nat, s: State, t: nat)
    requires Inv(k, s) && t < |s.threads| && !Asleep(s.threads[t].pc) && !s.threads[t].pc.Gone?
    ensures !CanStep(k, s, t) <==>
      Wants(s.threads[t].pc).Some?
      && exists u :: 0 <= u < |s.threads| && u != t && Wants(s.threads[t].pc).value in Held(s.threads[u].pc)
  {
    hide Inv;
    if Enabled(s, t) {
      EnabledIsSafe(k, s, t);
    }
    Pieces(k, s);
    hide Shape, LocalInv, QueueInv, PlaceInv, TicketInv, SleepInv, CountInv, Safe;
    var w := Wants(s.threads[t].pc);
    if w.Some? {
      WantsNotHeld(s.threads[t].pc);
      if w.value in s.locks {
        assert w.value in Held(s.threads[s.locks[w.value]].pc);
      }
    }
  }

  lemma WantsNotHeld(pc: Pc)
    requires Wants(pc).Some?
    ensures Wants(pc).value !in Held(pc)
  {}

  ghost predicate Stuck(s: State) {
    forall t: nat :: !Enabled(s, t)
  }

  /** Without anyone to move no mutex is held and everyone sleeps or has left. */
  lemma StuckMeansAsleep(k: nat, s: State)
    requires LockInv(s) && Stuck(s)
    ensures forall t :: 0 <= t < |s.threads| ==> Asleep(s.threads[t].pc) || s.threads[t].pc.Gone?
  {
    forall t | 0 <= t < |s.threads| ensures Asleep(s.threads[t].pc) || s.threads[t].pc.Gone? {
      assert !Enabled(s, t);
      if x :| x in s.locks {
        var u := HolderSteps(k, s, x);
      }
    }
  }

  lemma SleeperAt(k: nat, s: State, t: nat)
    requires SleepInv0(k, s) && t < |s.threads|
    ensures Sleeper(k, s, t)
  {}

  lemma SleepingServer(k: nat, s: State, u: nat)
    requires Inv(k, s) && k <= u < |s.threads| && (Asleep(s.threads[u].pc) || s.threads[u].pc.Gone?)
    ensures s.threads[u].pc == TSleep && s.tickets.Keys == TICKETS && |s.threads| == k + OFFICES + 1
      && Choice(k, s, u) == None
  {
    hide Inv, Shape, LockInv, LocalInv, QueueInv, PlaceInv, TicketInv, SleepInv, CountInv;
    Pieces(k, s);
    Mover(k, s, u);
    SleeperAt(k, s, u);
    if s.threads[u].pc.SSleep? {
      NeverFull(k, s, u, s.threads[u].pc.q, s.threads[u].pc.m);
    }
  }

  lemma NobodyBetween(k: nat, s: State, q: Queue)
    requires Inv(k, s) && Stuck(s) && q in TICKETS
    ensures Count(s.threads, InFlight(q)) == 0
  {
    hide Inv, Shape, LockInv, LocalInv, QueueInv, PlaceInv, TicketInv, SleepInv, CountInv, Enabled;
    Pieces(k, s);
    StuckMeansAsleep(k, s);
    forall t | 0 <= t < |s.threads| ensures !InFlight(q)(s.threads[t]) {
      Mover(k, s, t);
    }
    CountNone(s.threads, InFlight(q));
  }

  lemma NoTickets(k: nat, s: State, q: Queue)
    requires |s.threads| == k + OFFICES + 1 && s.tickets.Keys == TICKETS && q in TICKETS
    requires forall u :: k <= u < |s.threads| ==> Choice(k, s, u) == None
    ensures s.tickets[q] == 0
  {
    assert Choice(k, s, k + OFFICES) == None;
    assert Choice(k, s, k + if q.UrgentQ? then q.office else 0) == None;
  }

  /** If nobody can move, no message waits in a queue that servers read. */
  lemma StuckQueuesEmpty(k: nat, s: State, q: Queue)
    requires Inv(k, s) && Stuck(s) && q in TICKETS
    ensures Contents(s, q) == []
  {
    hide Inv, Shape, LockInv, LocalInv, QueueInv, PlaceInv, SleepInv, CountInv, Enabled, Choice;
    Pieces(k, s);
    StuckMeansAsleep(k, s);
    NobodyBetween(k, s, q);
    SleepingServer(k, s, |s.threads| - 1);
    forall u | k <= u < |s.threads| ensures Choice(k, s, u) == None {
      SleepingServer(k, s, u);
    }
    NoTickets(k, s, q);
    assert q in s.tickets;
  }

  /** ... and a student that has not left waits for space in an urgent queue that has none to give. */
  lemma StuckStudent(k: nat, s: State, x: nat)
    requires Inv(k, s) && Stuck(s) && x < k && x < |s.threads|
    ensures s.threads[x].pc.Gone? || (k == 1 && s.threads[x].card.leg == 2 && s.threads[x].card.place == Home)
  {
    hide Inv, Shape, LockInv, LocalInv, QueueInv, PlaceInv, TicketInv, SleepInv, CountInv, Enabled;
    Pieces(k, s);
    StuckMeansAsleep(k, s);
    Mover(k, s, x);
    SleeperAt(k, s, x);
    match s.threads[x].pc
    case SSleep(q, m) => StuckQueuesEmpty(k, s, q);
    case RSleep(q) => StuckReceiver(k, s, x);
    case _ =>
  }

  lemma StuckReceiver(k: nat, s: State, x: nat)
    requires Inv(k, s) && Stuck(s) && x < k && x < |s.threads| && Out(s.threads[x].card.place)
    ensures s.threads[x].pc != RSleep(AnswerQ(x))
  {
    hide Inv, Shape, LockInv, LocalInv, QueueInv, PlaceInv, TicketInv, SleepInv, CountInv, Enabled;
    Pieces(k, s);
    Mover(k, s, x);
    SleeperAt(k, s, x);
    NotLost(k, s, x);
    match s.threads[x].card.place
    case Queued(q) =>
      InQueue(k, s, q);
      QueuedAtServers(k, s.threads, q, s.items[q], x);
      StuckQueuesEmpty(k, s, q);
    case Answered =>
    case Served(u) =>
      StuckMeansAsleep(k, s);
      SleepingServer(k, s, u);
  }

  lemma QueuedAtServers(k: nat, threads: seq<Thread>, q: Queue, ms: seq<Info>, x: nat)
    requires x < k <= |threads| && QueueOk(k, threads, q, ms) && Has(ms, x) && threads[x].card.place == Queued(q)
    ensures q in TICKETS
  {
    var i :| 0 <= i < |ms| && ms[i].id == x;
    assert Belongs(k, threads, q, ms[i]);
  }

  /** No deadlock, as long as an urgent queue has room for at least one message. */
  lemma SomeoneCanStep(k: nat, s: State, x: nat) returns (t: nat)
    requires Inv(k, s) && k >= 2 && x < k && x < |s.threads| && !s.threads[x].pc.Gone?
    ensures CanStep(k, s, t)
  {
    hide Inv;
    if Stuck(s) {
      StuckStudent(k, s, x);
    }
    t :| Enabled(s, t);
    EnabledIsSafe(k, s, t);
  }
}

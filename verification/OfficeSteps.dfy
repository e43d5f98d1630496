/** Every step of the office system keeps the invariant, kind of step by kind of step. */
module OfficeSteps {
  import opened Counting
  import opened Options
  import opened Offices
  import opened OfficeInvariant

  // ---------------------------------------------------------------- steps that move no message

  /** What the invariant says about the thread that moves. */
  lemma Mover(k: nat, s: State, t: nat)
    requires Inv(k, s) && t < |s.threads|
    ensures |s.threads| == k + OFFICES + 1 && s.tickets.Keys == TICKETS
    ensures Local(k, s.threads, t)
    ensures forall x :: x in Held(s.threads[t].pc) <==> x in s.locks && s.locks[x] == t
  {
    hide QueueInv, PlaceInv, TicketInv, SleepInv, CountInv;
  }

  lemma GrantedHolds(pc: Pc)
    requires Wants(pc).Some?
    ensures Held(Granted(pc)) == Held(pc) + {Wants(pc).value}
    ensures (forall q :: Between(pc, q) == Between(Granted(pc), q)) && forall y :: Busy(pc, y) ==> Busy(Granted(pc), y)
  {}

  lemma AcquireStep(k: nat, s: State, t: nat)
    requires Inv(k, s) && t < |s.threads| && Wants(s.threads[t].pc).Some? && Wants(s.threads[t].pc).value !in s.locks
    ensures Inv(k, Acquire(s, t))
  {
    hide Inv;
    Mover(k, s, t);
    var pc := s.threads[t].pc;
    GrantedHolds(pc);
    GrantedLocal(k, s.threads, t);
    QuietInv(k, s, Acquire(s, t), t);
  }

  lemma GrantedLocal(k: nat, threads: seq<Thread>, t: nat)
    requires k <= |threads| && t < |threads| && Local(k, threads, t) && Wants(threads[t].pc).Some?
    ensures Local(k, Goto(threads, t, Granted(threads[t].pc)), t)
  {}

  /** A step that gives back one mutex and moves no message. */
  lemma ReleaseStep(k: nat, s: State, t: nat, pc': Pc, x: Mutex)
    requires Inv(k, s) && t < |s.threads| == k + OFFICES + 1 && s.tickets.Keys == TICKETS
    requires !s.threads[t].pc.Begin? && !pc'.Begin?
    requires x in Held(s.threads[t].pc) && Held(pc') == Held(s.threads[t].pc) - {x}
    requires forall q :: q in TICKETS ==> Between(s.threads[t].pc, q) == Between(pc', q)
    requires forall y :: t >= k && Busy(s.threads[t].pc, y) ==> Busy(pc', y)
    requires NotSigned(s.threads[t]) == NotSigned(s.threads[t].(pc := pc'))
      && Killer(s.threads[t]) == Killer(s.threads[t].(pc := pc'))
    requires Local(k, Release(s, t, pc', x).threads, t) && Sleeper(k, Release(s, t, pc', x), t)
    ensures Inv(k, Release(s, t, pc', x))
  {
    hide Inv;
    Mover(k, s, t);
    QuietInv(k, s, Release(s, t, pc', x), t);
  }

  lemma SendBlocksStep(k: nat, s: State, t: nat, q: Queue, m: Info)
    requires Inv(k, s) && t < |s.threads| && s.threads[t].pc == STest(q, m) && q in s.items && |s.items[q]| == Dim(k, q)
    ensures Inv(k, Release(s, t, SSleep(q, m), BufLock(q)))
  {
    hide Inv;
    Mover(k, s, t);
    ReleaseStep(k, s, t, SSleep(q, m), BufLock(q));
  }

  lemma SendFreesStep(k: nat, s: State, t: nat, q: Queue, m: Info)
    requires Inv(k, s) && t < |s.threads| && s.threads[t].pc == SFree(q, m)
    ensures Inv(k, Release(s, t, SUnlock(q, m), CondLock))
  {
    hide Inv;
    Mover(k, s, t);
    ReleaseStep(k, s, t, SUnlock(q, m), CondLock);
  }

  lemma SendEndsStep(k: nat, s: State, t: nat, q: Queue, m: Info)
    requires Inv(k, s) && t < |s.threads| && s.threads[t].pc == SUnlock(q, m)
    ensures Inv(k, Release(s, t, if t < k then RLock(AnswerQ(m.id)) else TLock, BufLock(q)))
  {
    hide Inv;
    Mover(k, s, t);
    ReleaseStep(k, s, t, if t < k then RLock(AnswerQ(m.id)) else TLock, BufLock(q));
  }

  /** A server that took a ticket finds a message. */
  lemma TicketMeansMessage(k: nat, s: State, t: nat, q: Queue)
    requires Shape(k, s) && TicketInv(s) && t < |s.threads| && Between(s.threads[t].pc, q) && q in TICKETS
    ensures q in s.items && s.items[q] != []
  {
    assert q in s.tickets.Keys;
    CountNone(s.threads, InFlight(q));
    assert InFlight(q)(s.threads[t]);
    assert 0 <= s.tickets[q] == |Contents(s, q)| - Count(s.threads, InFlight(q));
  }

  lemma ServerFindsMessage(k: nat, s: State, t: nat, q: Queue)
    requires Inv(k, s) && k <= t < |s.threads| && s.threads[t].pc == RTest(q)
    ensures q in s.items && s.items[q] != []
  {
    hide LockInv, LocalInv, QueueInv, PlaceInv, SleepInv, CountInv, TicketInv;
    Mover(k, s, t);
    TicketMeansMessage(k, s, t, q);
  }

  lemma ReceiveBlocksStep(k: nat, s: State, t: nat, q: Queue)
    requires Inv(k, s) && t < |s.threads| && s.threads[t].pc == RTest(q) && q in s.items && s.items[q] == []
    ensures Inv(k, Release(s, t, RSleep(q), BufLock(q)))
  {
    hide Inv;
    Mover(k, s, t);
    if t >= k {
      ServerFindsMessage(k, s, t, q);
    } else {
      ReleaseStep(k, s, t, RSleep(q), BufLock(q));
    }
  }

  lemma TicketBlocksStep(k: nat, s: State, t: nat)
    requires Inv(k, s) && t < |s.threads| == k + OFFICES + 1 && s.tickets.Keys == TICKETS
    requires s.threads[t].pc == TTest && Choice(k, s, t) == None
    ensures Inv(k, Release(s, t, TSleep, CondLock))
  {
    hide Inv;
    Mover(k, s, t);
    ReleaseStep(k, s, t, TSleep, CondLock);
  }

  lemma TicketEndsStep(k: nat, s: State, t: nat, q: Queue)
    requires Inv(k, s) && t < |s.threads| && s.threads[t].pc == TUnlock(q)
    ensures Inv(k, Release(s, t, RLock(q), CondLock))
  {
    hide Inv;
    Mover(k, s, t);
    ReleaseStep(k, s, t, RLock(q), CondLock);
  }

  lemma SignOffEndsStep(k: nat, s: State, t: nat, last: bool)
    requires Inv(k, s) && t < |s.threads| && s.threads[t].pc == NUnlock(last)
    ensures Inv(k, Release(s, t, if last then Kill else Gone, NumLock))
  {
    hide Inv;
    Mover(k, s, t);
    ReleaseStep(k, s, t, if last then Kill else Gone, NumLock);
  }

  lemma LastAnswerStep(k: nat, s: State, t: nat, q: Queue, m: Info)
    requires Inv(k, s) && t < k && t < |s.threads| && s.threads[t].pc == RUnlock(q, m)
    ensures Inv(k, Release(s, t, NLock, BufLock(q)))
  {
    hide Inv;
    Mover(k, s, t);
    ReleaseStep(k, s, t, NLock, BufLock(q));
  }

  lemma ReplyStep(k: nat, s: State, t: nat, q: Queue, m: Info, mark: bool)
    requires Inv(k, s) && k <= t < |s.threads| && s.threads[t].pc == RUnlock(q, m) && q != NormalQ
    ensures var r := Reply(k, t, q, m, mark);
      Inv(k, Release(s, t, SLock(AnswerQ(r.id), r), BufLock(q)))
  {
    hide Inv;
    Mover(k, s, t);
    var r := Reply(k, t, q, m, mark);
    ReleaseStep(k, s, t, SLock(AnswerQ(r.id), r), BufLock(q));
  }

  // ---------------------------------------------------------------- counters and signing off

  lemma GotoBroadcast(a: seq<Thread>, t: nat, x: nat, place: Place, pc': Pc, c: Signal)
    requires t < |a| && x < |a| && Awake(pc') == pc'
    ensures var b := Broadcast(Goto(Put(a, x, place), t, pc'), c);
      Frame(a, b, t, x) && b[t].pc == pc' && b[x].card == a[x].card.(place := place)
      && forall u :: 0 <= u < |a| && u != t ==> b[u].pc == Woken(a[u].pc, c)
  {}

  lemma PutSame(a: seq<Thread>, x: nat)
    requires x < |a|
    ensures Put(a, x, a[x].card.place) == a
  {}

  /** Only a student's send to a ticket queue counts, and it counts for that queue. */
  lemma CounterOf(k: nat, s: State, t: nat, q: Queue, m: Info)
    requires k <= t < |s.threads| || t < k <= |s.threads|
    requires s.threads[t].pc == SCount(q, m) && Local(k, s.threads, t)
    ensures if t < k then Counter(q, m) == Some(q) && q in TICKETS else Counter(q, m) == None && q !in TICKETS
  {}

  lemma TicketCountedFor(s: State, s': State, t: nat, q: Queue, m: Info, p: Queue)
    requires TicketInv(s) && t < |s.threads| && s.threads[t].pc == SCount(q, m) && p in s.tickets && p in TICKETS
    requires if Counter(q, m).Some? then q in s.tickets else q !in TICKETS
    requires s' == CountTicket(s, t, q, m) && Frame(s.threads, s'.threads, t, t) && s'.threads[t].pc == SFree(q, m)
    ensures 0 <= s'.tickets[p] == |Contents(s', p)| - Count(s'.threads, InFlight(p))
  {
    hide Frame, Count, Broadcast;
    FlightSame(s.threads, s'.threads, t, t, p);
    assert Contents(s', p) == Contents(s, p);
    if p == q {
      assert s'.tickets[p] == s.tickets[p] + 1;
    } else {
      assert s'.tickets[p] == s.tickets[p];
    }
  }

  lemma TicketCounted(k: nat, s: State, s': State, t: nat, q: Queue, m: Info)
    requires TicketInv(s) && t < |s.threads| && s.threads[t].pc == SCount(q, m) && s.tickets.Keys == TICKETS
    requires if Counter(q, m).Some? then q in s.tickets else q !in TICKETS
    requires s' == CountTicket(s, t, q, m) && Frame(s.threads, s'.threads, t, t) && s'.threads[t].pc == SFree(q, m)
    ensures TicketInv(s') && s'.tickets.Keys == s.tickets.Keys
  {
    forall p | p in s'.tickets ensures 0 <= s'.tickets[p] == |Contents(s', p)| - Count(s'.threads, InFlight(p)) {
      assert p in s.tickets.Keys;
      hide Count, Frame, Contents, InFlight, Counter, CountTicket;
      TicketCountedFor(s, s', t, q, m, p);
    }
  }

  lemma TicketWakesAll(k: nat, s: State, s': State, t: nat, q: Queue, m: Info)
    requires SleepInv0(k, s) && SleepInv0Shape(k, s') && t < |s.threads| && Frame(s.threads, s'.threads, t, t)
    requires s'.items == s.items && s'.threads[t].pc == SFree(q, m)
    requires forall u :: 0 <= u < |s.threads| && u != t ==> s'.threads[u].pc == Woken(s.threads[u].pc, Ticket)
    ensures SleepInv(k, s')
  {
    forall u | 0 <= u < |s'.threads| ensures Sleeper(k, s', u) {
      if u != t {
        assert Sleeper(k, s, u);
      }
    }
  }

  ghost predicate SleepInv0Shape(k: nat, s: State) {
    s.tickets.Keys == TICKETS && |s.threads| == k + OFFICES + 1
  }

  lemma Relocks(k: nat, s: State, t: nat, pc': Pc)
    requires LockInv(s) && t < |s.threads| && Held(pc') == Held(s.threads[t].pc)
    ensures Relocked(s.locks, s.locks, t, pc')
  {}

  lemma QuietCard(k: nat, s: State, s': State, t: nat)
    requires k <= |s.threads| && QueueInv(k, s) && PlaceInv(k, s)
    requires Frame(s.threads, s'.threads, t, t) && s'.threads[t].card == s.threads[t].card && s'.items == s.items
    requires forall y :: t >= k && Busy(s.threads[t].pc, y) ==> Busy(s'.threads[t].pc, y)
    ensures QueueInv(k, s') && PlaceInv(k, s')
  {
    forall q | q in s'.items ensures QueueOk(k, s'.threads, q, s'.items[q]) {
      QueueKept(k, s.threads, s'.threads, t, t, q, s.items[q]);
    }
    forall y: nat | y < k ensures Placed(k, s', y) {
      PlacedKept(k, s, s', t, t, y);
    }
  }

  lemma HopsKept(k: nat, a: seq<Thread>, b: seq<Thread>, t: nat)
    requires k <= |a| && Frame(a, b, t, t) && a[t].card == b[t].card
    ensures Sum(b[..k], Hops) == Sum(a[..k], Hops)
  {
    forall u | 0 <= u < k ensures Hops(a[..k][u]) == Hops(b[..k][u]) {
      assert a[u].card == b[u].card;
    }
    SumSame(a[..k], b[..k], Hops);
  }

  /** The mover's card and what is counted about it stay the same. */
  lemma SameCounts(k: nat, s: State, s': State, t: nat)
    requires k <= |s.threads| && CountInv(k, s) && Frame(s.threads, s'.threads, t, t)
    requires s'.threads[t].card == s.threads[t].card && s'.num == s.num && s'.signals == s.signals
      && s'.sends == s.sends
    requires NotSigned(s.threads[t]) == NotSigned(s'.threads[t]) && Killer(s.threads[t]) == Killer(s'.threads[t])
    ensures CountInv(k, s')
  {
    SignedSame(k, s.threads, s'.threads, t, t);
    HopsKept(k, s.threads, s'.threads, t);
  }

  lemma SameShape(k: nat, s: State, s': State, t: nat)
    requires Inv(k, s) && Frame(s.threads, s'.threads, t, t) && s'.locks == s.locks
    requires s'.tickets.Keys == s.tickets.Keys && s'.items.Keys == s.items.Keys
    requires Held(s'.threads[t].pc) == Held(s.threads[t].pc) && !s.threads[t].pc.Begin? && !s'.threads[t].pc.Begin?
    ensures Shape(k, s') && LockInv(s')
  {
    hide LocalInv, QueueInv, PlaceInv, TicketInv, SleepInv, CountInv;
    ShapeKept(k, s, s', t, t);
    Relocks(k, s, t, s'.threads[t].pc);
    LocksKept(s, s', t, t);
  }

  lemma CountTicketStep(k: nat, s: State, t: nat, q: Queue, m: Info)
    requires Inv(k, s) && t < |s.threads| && s.threads[t].pc == SCount(q, m) && (Counter(q, m).Some? ==> q in s.tickets)
    ensures Inv(k, CountTicket(s, t, q, m))
  {
    hide Shape, LockInv, LocalInv, QueueInv, PlaceInv, TicketInv, SleepInv, CountInv;
    Mover(k, s, t);
    var s' := CountTicket(s, t, q, m);
    PutSame(s.threads, t);
    GotoBroadcast(s.threads, t, t, s.threads[t].card.place, SFree(q, m), Ticket);
    CounterOf(k, s, t, q, m);
    TicketCounted(k, s, s', t, q, m);
    SameShape(k, s, s', t);
    TicketWakesAll(k, s, s', t, q, m);
    QuietCard(k, s, s', t);
    QuietLocals(k, s.threads, s'.threads, t);
    SameCounts(k, s, s', t);
  }

  lemma GotoFrame(a: seq<Thread>, t: nat, pc': Pc)
    requires t < |a|
    ensures Frame(a, Goto(a, t, pc'), t, t)
  {}

  lemma ChoiceCounts(k: nat, s: State, t: nat, q: Queue)
    requires s.tickets.Keys == TICKETS && k <= t < k + OFFICES + 1 && Choice(k, s, t) == Some(q)
    ensures q in TICKETS && s.tickets[q] != 0 && Serves(k, t, q)
  {}

  lemma ChoiceStaysEmpty(k: nat, s: State, s': State, u: nat, q: Queue)
    requires s.tickets.Keys == TICKETS && u < k + OFFICES + 1 && Choice(k, s, u) == None
    requires q in s.tickets && s.tickets[q] != 0 && s'.tickets == s.tickets[q := s.tickets[q] - 1]
      && s'.tickets.Keys == TICKETS
    ensures Choice(k, s', u) == None
  {}

  lemma TakenSleepers(k: nat, s: State, s': State, t: nat, q: Queue)
    requires SleepInv0(k, s) && t < |s.threads| && q in s.tickets && s.tickets[q] != 0
    requires s' == TakeTicket(s, t, q) && SleepInv0Shape(k, s')
    ensures SleepInv(k, s')
  {
    forall u | 0 <= u < |s'.threads| ensures Sleeper(k, s', u) {
      if u != t {
        assert Sleeper(k, s, u);
        if s.threads[u].pc.TSleep? {
          ChoiceStaysEmpty(k, s, s', u, q);
        }
      }
    }
  }

  lemma TakenTicket(s: State, s': State, t: nat, q: Queue, p: Queue)
    requires TicketInv(s) && t < |s.threads| && s.threads[t].pc == TTest && q in s.tickets && s.tickets[q] != 0
      && p in s.tickets
    requires s' == TakeTicket(s, t, q) && Frame(s.threads, s'.threads, t, t)
    ensures 0 <= s'.tickets[p] == |Contents(s', p)| - Count(s'.threads, InFlight(p))
  {
    hide Frame, Count;
    FlightSame(s.threads, s'.threads, t, t, p);
    assert Contents(s', p) == Contents(s, p);
  }

  lemma TakenTickets(s: State, s': State, t: nat, q: Queue)
    requires TicketInv(s) && t < |s.threads| && s.threads[t].pc == TTest && q in s.tickets && s.tickets[q] != 0
    requires s' == TakeTicket(s, t, q)
    ensures TicketInv(s')
  {
    hide Count;
    GotoFrame(s.threads, t, TUnlock(q));
    forall p | p in s'.tickets ensures 0 <= s'.tickets[p] == |Contents(s', p)| - Count(s'.threads, InFlight(p)) {
      TakenTicket(s, s', t, q, p);
    }
  }

  lemma TakeTicketStep(k: nat, s: State, t: nat, q: Queue)
    requires q in s.tickets && t < |s.threads| && s.tickets[q] != 0 && s.threads[t].pc == TTest && Serves(k, t, q)
    requires Inv(k, s)
    ensures Inv(k, TakeTicket(s, t, q))
  {
    hide Shape, LockInv, LocalInv, QueueInv, PlaceInv, TicketInv, SleepInv, CountInv;
    Mover(k, s, t);
    var s' := TakeTicket(s, t, q);
    GotoFrame(s.threads, t, TUnlock(q));
    TakenTickets(s, s', t, q);
    assert s'.tickets.Keys == s.tickets.Keys;
    SameShape(k, s, s', t);
    TakenSleepers(k, s, s', t, q);
    QuietCard(k, s, s', t);
    QuietLocals(k, s.threads, s'.threads, t);
    SameCounts(k, s, s', t);
  }

  /** A step of a student that is signing off: no queue, counter or mutex is touched. */
  lemma SigningStep(k: nat, s: State, t: nat, s': State, pc': Pc)
    requires Inv(k, s) && t < k && t < |s.threads| && s.threads[t].pc in {NDec, Kill}
      && pc' in {NUnlock(true), NUnlock(false), Gone}
    requires s' == s.(threads := Goto(s.threads, t, pc'), num := s'.num, signals := s'.signals)
    requires Held(pc') == Held(s.threads[t].pc) && CountInv(k, s')
    ensures Inv(k, s')
  {
    hide Shape, LockInv, LocalInv, QueueInv, PlaceInv, TicketInv, SleepInv, CountInv;
    Mover(k, s, t);
    GotoFrame(s.threads, t, pc');
    TicketsKept(s, s', t, t);
    SameShape(k, s, s', t);
    SleepersKept(k, s, s', t, t);
    QuietCard(k, s, s', t);
    QuietLocals(k, s.threads, s'.threads, t);
  }

  /** Students only sign off: servers never reach these steps. */
  lemma Signer(k: nat, s: State, t: nat)
    requires Inv(k, s) && t < |s.threads| && (s.threads[t].pc.NDec? || s.threads[t].pc.Kill?)
    ensures t < k
  {
    hide Inv;
    Mover(k, s, t);
  }

  lemma SignOffCounts(k: nat, s: State, t: nat)
    requires k <= |s.threads| && CountInv(k, s) && t < k && s.threads[t].pc == NDec
    ensures CountInv(k, SignOff(s, t))
  {
    var s' := SignOff(s, t);
    GotoFrame(s.threads, t, s'.threads[t].pc);
    SignedSame(k, s.threads, s'.threads, t, t);
    HopsKept(k, s.threads, s'.threads, t);
    CountNone(s.threads[..k], NotSigned);
    assert NotSigned(s.threads[..k][t]);
  }

  lemma SignOffStep(k: nat, s: State, t: nat)
    requires Inv(k, s) && t < |s.threads| && s.threads[t].pc == NDec
    ensures Inv(k, SignOff(s, t))
  {
    hide LockInv, LocalInv, QueueInv, PlaceInv, TicketInv, SleepInv, CountInv;
    Signer(k, s, t);
    SignOffCounts(k, s, t);
    SigningStep(k, s, t, SignOff(s, t), NUnlock(s.num - 1 == 0));
  }

  lemma TerminateCounts(k: nat, s: State, t: nat)
    requires k <= |s.threads| && CountInv(k, s) && t < k && s.threads[t].pc == Kill
    ensures CountInv(k, Terminate(s, t))
  {
    var s' := Terminate(s, t);
    GotoFrame(s.threads, t, Gone);
    SignedSame(k, s.threads, s'.threads, t, t);
    HopsKept(k, s.threads, s'.threads, t);
  }

  lemma TerminateStep(k: nat, s: State, t: nat)
    requires Inv(k, s) && t < |s.threads| && s.threads[t].pc == Kill
    ensures Inv(k, Terminate(s, t))
  {
    hide LockInv, LocalInv, QueueInv, PlaceInv, TicketInv, SleepInv, CountInv;
    Signer(k, s, t);
    TerminateCounts(k, s, t);
    SigningStep(k, s, t, Terminate(s, t), Gone);
  }
}

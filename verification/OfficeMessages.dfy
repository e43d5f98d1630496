/** The steps of the office system that create a queue, store, fetch, forward or answer a message keep the invariant. */
module OfficeMessages {
  import opened Counting
  import opened Offices
  import opened OfficeInvariant
  import opened OfficeSteps

  // ---------------------------------------------------------------- creating a queue

  function OwnQueue(k: nat, t: nat): Queue {
    if t < k then AnswerQ(t) else UrgentQ(if t < k then 0 else t - k)
  }

  lemma CreateShape(k: nat, s: State, s': State, t: nat)
    requires Shape(k, s) && t < k + OFFICES && s.threads[t].pc == Begin && s' == Create(k, s, t)
    requires Frame(s.threads, s'.threads, t, t)
    ensures Shape(k, s') && OwnQueue(k, t) !in s.items && s'.items == s.items[OwnQueue(k, t) := []]
  {
    forall u | 0 <= u < |s.threads| && u != t ensures s'.threads[u].pc.Begin? == s.threads[u].pc.Begin? {
      BeginKept(s.threads, s'.threads, t, t, u);
    }
  }

  lemma CreateLocks(k: nat, s: State, s': State, t: nat)
    requires LockInv(s) && t < |s.threads| && s.threads[t].pc == Begin && s' == Create(k, s, t)
    requires Frame(s.threads, s'.threads, t, t)
    ensures LockInv(s')
  {
    Relocks(k, s, t, s'.threads[t].pc);
    LocksKept(s, s', t, t);
  }

  lemma CreateMessages(k: nat, s: State, s': State, t: nat, p: Queue)
    requires k <= |s.threads| && QueueInv(k, s) && PlaceInv(k, s) && p !in s.items
    requires Frame(s.threads, s'.threads, t, t) && s'.threads[t].card == s.threads[t].card
      && s'.items == s.items[p := []]
    requires s.threads[t].pc == Begin
    ensures QueueInv(k, s') && PlaceInv(k, s')
  {
    forall q | q in s'.items ensures QueueOk(k, s'.threads, q, s'.items[q]) {
      if q != p {
        QueueKept(k, s.threads, s'.threads, t, t, q, s.items[q]);
      }
    }
    forall y: nat | y < k ensures Placed(k, s', y) {
      PlacedKept(k, s, s', t, t, y);
    }
  }

  lemma CreateTickets(k: nat, s: State, s': State, t: nat, p: Queue)
    requires TicketInv(s) && t < |s.threads| && s.threads[t].pc == Begin && p !in s.items && s'.tickets == s.tickets
    requires s.tickets.Keys == TICKETS
    requires Frame(s.threads, s'.threads, t, t) && s'.items == s.items[p := []]
    requires forall q :: q in TICKETS ==> !Between(s'.threads[t].pc, q)
    ensures TicketInv(s')
  {
    forall q | q in s'.tickets ensures 0 <= s'.tickets[q] == |Contents(s', q)| - Count(s'.threads, InFlight(q)) {
      FlightSame(s.threads, s'.threads, t, t, q);
      assert Contents(s', q) == Contents(s, q);
      assert q in s.tickets.Keys;
    }
  }

  lemma CreateSleepers(k: nat, s: State, s': State, t: nat, p: Queue)
    requires SleepInv0(k, s) && SleepInv0Shape(k, s') && p !in s.items && s'.tickets == s.tickets
    requires Frame(s.threads, s'.threads, t, t) && s'.items == s.items[p := []] && !Asleep(s'.threads[t].pc)
    ensures SleepInv(k, s')
  {
    forall u | 0 <= u < |s'.threads| ensures Sleeper(k, s', u) {
      if u != t {
        assert Kept(s.threads[u].pc, s'.threads[u].pc);
        assert Sleeper(k, s, u);
      }
    }
  }

  lemma CreateStep(k: nat, s: State, t: nat)
    requires Inv(k, s) && t < |s.threads| && s.threads[t].pc == Begin
    ensures Inv(k, Create(k, s, t))
  {
    hide Shape, LockInv, LocalInv, QueueInv, PlaceInv, TicketInv, SleepInv, CountInv;
    Mover(k, s, t);
    var s' := Create(k, s, t);
    var p := OwnQueue(k, t);
    GotoFrame(s.threads, t, s'.threads[t].pc);
    CreateShape(k, s, s', t);
    CreateLocks(k, s, s', t);
    CreateMessages(k, s, s', t, p);
    CreateTickets(k, s, s', t, p);
    CreateSleepers(k, s, s', t, p);
    QuietLocals(k, s.threads, s'.threads, t);
    SameCounts(k, s, s', t);
  }

  // ---------------------------------------------------------------- moving one message

  /** The card of student `x` changes; nobody else held its message. */
  lemma MovedLocals(k: nat, a: seq<Thread>, b: seq<Thread>, t: nat, x: nat)
    requires x < k <= |a| && LocalInv(k, a) && Frame(a, b, t, x)
    requires Local(k, b, t) && Local(k, b, x) && !b[t].pc.Begin?
    requires forall u :: 0 <= u < |a| && u != t && u != x ==> a[x].card.place != Served(u)
    ensures LocalInv(k, b)
  {
    forall u | 0 <= u < |b| ensures Local(k, b, u) {
      if u != t && u != x {
        assert Local(k, a, u);
        LocalKept(k, a, b, t, x, u);
      }
    }
  }

  lemma MovedShape(k: nat, s: State, s': State, t: nat, x: nat)
    requires Inv(k, s) && Frame(s.threads, s'.threads, t, x) && s'.locks == s.locks
    requires s'.tickets == s.tickets && s'.items.Keys == s.items.Keys
    requires Held(s'.threads[t].pc) == Held(s.threads[t].pc) && !s.threads[t].pc.Begin? && !s'.threads[t].pc.Begin?
    ensures Shape(k, s') && LockInv(s')
  {
    hide LocalInv, QueueInv, PlaceInv, TicketInv, SleepInv, CountInv;
    ShapeKept(k, s, s', t, x);
    Relocks(k, s, t, s'.threads[t].pc);
    LocksKept(s, s', t, x);
  }

  /** All queues but `q` are untouched, and the message of `x` was in none of them. */
  lemma MovedQueues(k: nat, s: State, s': State, t: nat, x: nat, q: Queue)
    requires x < k <= |s.threads| && QueueInv(k, s) && Frame(s.threads, s'.threads, t, x)
      && s'.items.Keys == s.items.Keys
    requires forall p :: p in s.items && p != q ==> s'.items[p] == s.items[p]
    requires forall p: Queue :: p != q ==> s.threads[x].card.place != Queued(p)
    requires s.threads[x].card.place == Answered ==> q == AnswerQ(x)
    requires q in s'.items && QueueOk(k, s'.threads, q, s'.items[q])
    ensures QueueInv(k, s')
  {
    forall p | p in s'.items ensures QueueOk(k, s'.threads, p, s'.items[p]) {
      assert p in s.items.Keys;
      if p != q {
        QueueKept(k, s.threads, s'.threads, t, x, p, s.items[p]);
      }
    }
  }

  lemma MovedPlaces(k: nat, s: State, s': State, t: nat, x: nat, q: Queue)
    requires x < k <= |s.threads| && PlaceInv(k, s) && Frame(s.threads, s'.threads, t, x)
      && s'.items.Keys == s.items.Keys
    requires forall p :: p in s.items && p != q ==> s'.items[p] == s.items[p]
    requires forall y :: y != x && q in s.items && Has(s.items[q], y) ==> Has(s'.items[q], y)
    requires forall y :: y != x && t >= k && Busy(s.threads[t].pc, y) ==> Busy(s'.threads[t].pc, y)
    requires Placed(k, s', x)
    ensures PlaceInv(k, s')
  {
    forall y: nat | y < k ensures Placed(k, s', y) {
      if y != x {
        assert Placed(k, s, y);
        forall p | p in s.items && Has(s.items[p], y) ensures p in s'.items && Has(s'.items[p], y) {
          assert p in s'.items.Keys;
        }
        PlacedKept(k, s, s', t, x, y);
      }
    }
  }

  lemma MovedTickets(k: nat, s: State, s': State, t: nat, x: nat, q: Queue)
    requires TicketInv(s) && s.tickets.Keys == TICKETS && Frame(s.threads, s'.threads, t, x)
    requires s'.tickets == s.tickets && s'.items.Keys == s.items.Keys && q in s.items
    requires forall p :: p in s.items && p != q ==> s'.items[p] == s.items[p]
    requires forall p :: p in TICKETS ==>
      |Contents(s', p)| + One(Between(s.threads[t].pc, p)) == |Contents(s, p)| + One(Between(s'.threads[t].pc, p))
    ensures TicketInv(s')
  {
    forall p | p in s'.tickets ensures 0 <= s'.tickets[p] == |Contents(s', p)| - Count(s'.threads, InFlight(p)) {
      FlightSame(s.threads, s'.threads, t, x, p);
      assert p in s.tickets.Keys;
    }
  }

  lemma MovedCounts(k: nat, s: State, s': State, t: nat, x: nat)
    requires x < k <= |s.threads| && CountInv(k, s) && Frame(s.threads, s'.threads, t, x)
    requires s'.num == s.num && s'.signals == s.signals
    requires NotSigned(s.threads[t]) && NotSigned(s'.threads[t]) && !Killer(s.threads[t]) && !Killer(s'.threads[t])
    requires s'.sends + Hops(s.threads[x]) == s.sends + Hops(s'.threads[x])
    ensures CountInv(k, s')
  {
    SignedSame(k, s.threads, s'.threads, t, x);
    HopsChange(k, s.threads, s'.threads, t, x);
  }

  // ---------------------------------------------------------------- storing

  lemma StoredSleepers(k: nat, s: State, s': State, t: nat, q: Queue, m: Info)
    requires SleepInv0(k, s) && SleepInv0Shape(k, s') && t < |s.threads| && q in s.items && |s.items[q]| != Dim(k, q)
    requires s'.tickets == s.tickets && s'.items == s.items[q := s.items[q] + [m]]
    requires |s'.threads| == |s.threads| && s'.threads[t].pc == SCond(q, m)
    requires forall u :: 0 <= u < |s.threads| && u != t ==> s'.threads[u].pc == Woken(s.threads[u].pc, NotEmpty(q))
    ensures SleepInv(k, s')
  {
    forall u | 0 <= u < |s'.threads| ensures Sleeper(k, s', u) {
      if u != t {
        assert Sleeper(k, s, u);
      }
    }
  }

  lemma HasAppended(ms: seq<Info>, m: Info)
    ensures forall y :: Has(ms, y) ==> Has(ms + [m], y)
    ensures Has(ms + [m], m.id)
  {
    assert (ms + [m])[|ms|] == m;
    forall y | Has(ms, y) ensures Has(ms + [m], y) {
      var i :| 0 <= i < |ms| && ms[i].id == y;
      assert (ms + [m])[i].id == y;
    }
  }

  lemma QueueAppended(k: nat, a: seq<Thread>, b: seq<Thread>, t: nat, x: nat, q: Queue, ms: seq<Info>, m: Info)
    requires x < k <= |a| && Frame(a, b, t, x) && QueueOk(k, a, q, ms) && m.id == x && Belongs(k, b, q, m)
      && |ms| != Dim(k, q)
    requires a[x].card.place != Queued(q) && !(q == AnswerQ(x) && a[x].card.place == Answered)
    ensures QueueOk(k, b, q, ms + [m])
  {
    QueueKept(k, a, b, t, x, q, ms);
    forall i | 0 <= i < |ms| ensures ms[i].id != x {
      assert Belongs(k, a, q, ms[i]);
    }
  }

  lemma InQueue(k: nat, s: State, q: Queue)
    requires k <= |s.threads| && QueueInv(k, s) && q in s.items
    ensures QueueOk(k, s.threads, q, s.items[q])
  {}

  lemma StoredTickets(k: nat, s: State, s': State, t: nat, x: nat, q: Queue, m: Info)
    requires TicketInv(s) && s.tickets.Keys == TICKETS && Frame(s.threads, s'.threads, t, x) && s'.tickets == s.tickets
    requires q in s.items && s'.items == s.items[q := s.items[q] + [m]]
    requires s.threads[t].pc == STest(q, m) && s'.threads[t].pc == SCond(q, m)
    ensures TicketInv(s')
  {
    hide TicketInv, Frame;
    assert s'.items.Keys == s.items.Keys;
    MovedTickets(k, s, s', t, x, q);
  }

  lemma StoredPlaces(k: nat, s: State, s': State, t: nat, x: nat, q: Queue, m: Info)
    requires x < k <= |s.threads| && PlaceInv(k, s) && Frame(s.threads, s'.threads, t, x) && m.id == x
    requires q in s.items && s'.items == s.items[q := s.items[q] + [m]]
    requires s.threads[t].pc == STest(q, m)
    requires s'.threads[x].card.place == if q.AnswerQ? then Answered else Queued(q)
    requires q.AnswerQ? ==> q.student == x
    ensures PlaceInv(k, s')
  {
    hide PlaceInv, Frame, Has;
    assert s'.items.Keys == s.items.Keys;
    HasAppended(s.items[q], m);
    MovedPlaces(k, s, s', t, x, q);
  }

  lemma StoredQueues(k: nat, s: State, s': State, t: nat, x: nat, q: Queue, m: Info)
    requires x < k <= |s.threads| && QueueInv(k, s) && Frame(s.threads, s'.threads, t, x) && m.id == x
    requires q in s.items && s'.items == s.items[q := s.items[q] + [m]] && |s.items[q]| != Dim(k, q)
    requires !s.threads[x].card.place.Queued? && !s.threads[x].card.place.Answered? && Belongs(k, s'.threads, q, m)
    ensures QueueInv(k, s')
  {
    InQueue(k, s, q);
    hide QueueInv, Frame, QueueOk, Belongs;
    assert s'.items.Keys == s.items.Keys;
    QueueAppended(k, s.threads, s'.threads, t, x, q, s.items[q], m);
    MovedQueues(k, s, s', t, x, q);
  }

  /** The step that stores a message, whoever takes it, once its mover and the student are known to be in order. */
  lemma StoredInv(k: nat, s: State, s': State, t: nat, x: nat, q: Queue, m: Info)
    requires Inv(k, s) && t < |s.threads| && x < k && x < |s.threads| && q in s.items && |s.items[q]| != Dim(k, q)
      && m.id == x
    requires s' == s.(threads := s'.threads, items := s.items[q := s.items[q] + [m]], sends := s.sends + 1)
    requires s.threads[t].pc == STest(q, m)
    requires s'.threads ==
      Broadcast(Goto(Put(s.threads, x, if q.AnswerQ? then Answered else Queued(q)), t, SCond(q, m)), NotEmpty(q))
    requires Local(k, s'.threads, t) && Local(k, s'.threads, x) && Belongs(k, s'.threads, q, m)
      && (q.AnswerQ? ==> q.student == x)
    requires s.threads[x].card.place == if q.AnswerQ? then Served(t) else Home
    ensures Inv(k, s')
  {
    hide Shape, LockInv, LocalInv, QueueInv, PlaceInv, TicketInv, SleepInv, CountInv;
    hide Has, QueueOk, Local, Belongs, Broadcast, Goto, Put, Frame;
    Mover(k, s, t);
    GotoBroadcast(s.threads, t, x, if q.AnswerQ? then Answered else Queued(q), SCond(q, m), NotEmpty(q));
    FrameLength(s.threads, s'.threads, t, x);
    assert s'.items.Keys == s.items.Keys;
    MovedShape(k, s, s', t, x);
    MovedLocals(k, s.threads, s'.threads, t, x);
    StoredQueues(k, s, s', t, x, q, m);
    StoredPlaces(k, s, s', t, x, q, m);
    StoredTickets(k, s, s', t, x, q, m);
    StoredSleepers(k, s, s', t, q, m);
    MovedCounts(k, s, s', t, x);
  }

  lemma FrameLength(a: seq<Thread>, b: seq<Thread>, t: nat, x: nat)
    requires Frame(a, b, t, x)
    ensures |b| == |a|
  {}

  lemma StudentStored(k: nat, a: seq<Thread>, b: seq<Thread>, t: nat, q: Queue, m: Info)
    requires t < k <= |a| && a[t].pc == STest(q, m) && Local(k, a, t)
    requires Frame(a, b, t, t) && b[t].pc == SCond(q, m) && b[t].card == a[t].card.(place := Queued(q))
    ensures !q.AnswerQ? && m.id == t && a[t].card.place == Home && Local(k, b, t) && Belongs(k, b, q, m)
  {
    StartedKept(k, a, b, t, t, a[t].card.desk);
  }

  lemma StudentStores(k: nat, s: State, t: nat, q: Queue, m: Info)
    requires Inv(k, s) && t < k && t < |s.threads| && s.threads[t].pc == STest(q, m) && q in s.items
      && |s.items[q]| != Dim(k, q)
    ensures Inv(k, Store(k, s, t, q, m))
  {
    hide Inv, Local, Belongs, Frame, Broadcast;
    Mover(k, s, t);
    var s' := Store(k, s, t, q, m);
    GotoBroadcast(s.threads, t, t, Queued(q), SCond(q, m), NotEmpty(q));
    StudentStored(k, s.threads, s'.threads, t, q, m);
    StoredInv(k, s, s', t, t, q, m);
  }

  /** What the server that stores, its student and the message look like afterwards. */
  lemma ServerStored(k: nat, a: seq<Thread>, b: seq<Thread>, t: nat, q: Queue, m: Info)
    requires k <= t < |a| && m.id < |a| && a[t].pc == STest(q, m) && Local(k, a, t) && Local(k, a, m.id)
    requires Frame(a, b, t, m.id) && b[t].pc == SCond(q, m) && b[m.id].card == a[m.id].card.(place := Answered)
    ensures m.id < k && q == AnswerQ(m.id) && a[m.id].card.place == Served(t)
    ensures Local(k, b, t) && Local(k, b, m.id) && Belongs(k, b, q, m)
  {
    assert Kept(a[m.id].pc, b[m.id].pc);
    StartedKept(k, a, b, t, m.id, a[m.id].card.desk);
  }

  lemma ServerStores(k: nat, s: State, t: nat, q: Queue, m: Info)
    requires Inv(k, s) && k <= t < |s.threads| && m.id < |s.threads| && s.threads[t].pc == STest(q, m)
    requires q in s.items && |s.items[q]| != Dim(k, q)
    ensures Inv(k, Store(k, s, t, q, m))
  {
    hide Inv, Local, Belongs, Frame, Broadcast;
    Mover(k, s, t);
    Mover(k, s, m.id);
    var s' := Store(k, s, t, q, m);
    GotoBroadcast(s.threads, t, m.id, Answered, SCond(q, m), NotEmpty(q));
    ServerStored(k, s.threads, s'.threads, t, q, m);
    StoredInv(k, s, s', t, m.id, q, m);
  }

  // ---------------------------------------------------------------- fetching

  lemma FetchedSleepers(k: nat, s: State, s': State, t: nat, q: Queue, m: Info)
    requires SleepInv0(k, s) && SleepInv0Shape(k, s') && t < |s.threads| && q in s.items && s.items[q] != []
    requires s'.tickets == s.tickets && s'.items == s.items[q := s.items[q][1..]]
    requires |s'.threads| == |s.threads| && s'.threads[t].pc == RUnlock(q, m)
    requires forall u :: 0 <= u < |s.threads| && u != t ==> s'.threads[u].pc == Woken(s.threads[u].pc, NotFull(q))
    ensures SleepInv(k, s')
  {
    forall u | 0 <= u < |s'.threads| ensures Sleeper(k, s', u) {
      if u != t {
        assert Sleeper(k, s, u);
      }
    }
  }

  lemma HasRest(ms: seq<Info>)
    requires ms != []
    ensures forall y :: y != ms[0].id && Has(ms, y) ==> Has(ms[1..], y)
  {
    forall y | y != ms[0].id && Has(ms, y) ensures Has(ms[1..], y) {
      var i :| 0 <= i < |ms| && ms[i].id == y;
      assert ms[1..][i - 1].id == y;
    }
  }

  lemma QueueRest(k: nat, a: seq<Thread>, b: seq<Thread>, t: nat, q: Queue, ms: seq<Info>)
    requires k <= |a| && ms != [] && QueueOk(k, a, q, ms)
    requires Frame(a, b, t, ms[0].id)
    ensures Belongs(k, a, q, ms[0]) && QueueOk(k, b, q, ms[1..])
  {
    forall i | 0 <= i < |ms| - 1 ensures Belongs(k, b, q, ms[1..][i]) {
      assert Belongs(k, a, q, ms[i + 1]);
    }
  }

  lemma QueueHead(k: nat, a: seq<Thread>, q: Queue, ms: seq<Info>)
    requires k <= |a| && ms != [] && QueueOk(k, a, q, ms)
    ensures Belongs(k, a, q, ms[0])
  {}

  lemma FetchedTickets(k: nat, s: State, s': State, t: nat, x: nat, q: Queue, m: Info)
    requires TicketInv(s) && s.tickets.Keys == TICKETS && Frame(s.threads, s'.threads, t, x) && s'.tickets == s.tickets
    requires q in s.items && s.items[q] != [] && s'.items == s.items[q := s.items[q][1..]]
    requires s.threads[t].pc == RTest(q) && s'.threads[t].pc == RUnlock(q, m)
    ensures TicketInv(s')
  {
    hide TicketInv, Frame;
    assert s'.items.Keys == s.items.Keys;
    MovedTickets(k, s, s', t, x, q);
  }

  lemma FetchedPlaces(k: nat, s: State, s': State, t: nat, x: nat, q: Queue, m: Info)
    requires x < k <= |s.threads| && PlaceInv(k, s) && Frame(s.threads, s'.threads, t, x) && m.id == x
    requires q in s.items && s.items[q] != [] && m == s.items[q][0] && s'.items == s.items[q := s.items[q][1..]]
    requires s.threads[t].pc == RTest(q) && s'.threads[t].pc == RUnlock(q, m)
    requires s'.threads[x].card.place == if t < k then Back else Served(t)
    ensures PlaceInv(k, s')
  {
    hide PlaceInv, Has;
    assert s'.items.Keys == s.items.Keys;
    HasRest(s.items[q]);
    assert Placed(k, s', x);
    hide Frame;
    MovedPlaces(k, s, s', t, x, q);
  }

  lemma FetchedQueues(k: nat, s: State, s': State, t: nat, x: nat, q: Queue)
    requires x < k <= |s.threads| && QueueInv(k, s) && Frame(s.threads, s'.threads, t, x)
    requires q in s.items && s.items[q] != [] && s.items[q][0].id == x && s'.items == s.items[q := s.items[q][1..]]
    requires s.threads[x].card.place == if q.AnswerQ? then Answered else Queued(q)
    requires q.AnswerQ? ==> q.student == x
    ensures QueueInv(k, s')
  {
    InQueue(k, s, q);
    hide QueueInv, Frame, QueueOk, Belongs;
    assert s'.items.Keys == s.items.Keys;
    QueueRest(k, s.threads, s'.threads, t, q, s.items[q]);
    MovedQueues(k, s, s', t, x, q);
  }

  /** The step that takes a message, whoever takes it, once its mover and the student are known to be in order. */
  lemma FetchedInv(k: nat, s: State, s': State, t: nat, x: nat, q: Queue, m: Info)
    requires Inv(k, s) && t < |s.threads| && x < k && x < |s.threads| && q in s.items && s.items[q] != []
      && m == s.items[q][0] && m.id == x
    requires s' == s.(threads := s'.threads, items := s.items[q := s.items[q][1..]])
    requires s.threads[t].pc == RTest(q)
    requires s'.threads == Broadcast(Goto(Put(s.threads, x, if t < k then Back else Served(t)), t, RUnlock(q, m)),
      NotFull(q))
    requires Local(k, s'.threads, t) && Local(k, s'.threads, x) && (q.AnswerQ? ==> q.student == x)
      && (q.AnswerQ? <==> t < k)
    requires s.threads[x].card.place == if q.AnswerQ? then Answered else Queued(q)
    ensures Inv(k, s')
  {
    hide Shape, LockInv, LocalInv, QueueInv, PlaceInv, TicketInv, SleepInv, CountInv, Local, Broadcast, Goto, Put,
        Frame;
    Mover(k, s, t);
    GotoBroadcast(s.threads, t, x, if t < k then Back else Served(t), RUnlock(q, m), NotFull(q));
    FrameLength(s.threads, s'.threads, t, x);
    assert s'.items.Keys == s.items.Keys;
    MovedShape(k, s, s', t, x);
    MovedLocals(k, s.threads, s'.threads, t, x);
    FetchedQueues(k, s, s', t, x, q);
    FetchedPlaces(k, s, s', t, x, q, m);
    FetchedTickets(k, s, s', t, x, q, m);
    FetchedSleepers(k, s, s', t, q, m);
    MovedCounts(k, s, s', t, x);
  }

  lemma StudentFetched(k: nat, a: seq<Thread>, b: seq<Thread>, t: nat, q: Queue, m: Info)
    requires t < k <= |a| && a[t].pc == RTest(q) && Local(k, a, t) && Belongs(k, a, q, m)
    requires Frame(a, b, t, t) && b[t].pc == RUnlock(q, m) && b[t].card == a[t].card.(place := Back)
    ensures q == AnswerQ(t) && m.id == t && a[t].card.place == Answered && Local(k, b, t)
  {
    StartedKept(k, a, b, t, t, a[t].card.desk);
  }

  lemma StudentFetches(k: nat, s: State, t: nat, q: Queue)
    requires Inv(k, s) && t < k && t < |s.threads| && s.threads[t].pc == RTest(q) && q in s.items && s.items[q] != []
    ensures Inv(k, Fetch(k, s, t, q))
  {
    hide Inv, Local, Belongs, Frame, Broadcast;
    HeadBelongs(k, s, q);
    Mover(k, s, t);
    var m, s' := s.items[q][0], Fetch(k, s, t, q);
    GotoBroadcast(s.threads, t, t, Back, RUnlock(q, m), NotFull(q));
    StudentFetched(k, s.threads, s'.threads, t, q, m);
    FetchedInv(k, s, s', t, t, q, m);
  }

  lemma HeadBelongs(k: nat, s: State, q: Queue)
    requires Inv(k, s) && q in s.items && s.items[q] != []
    ensures k <= |s.threads| && Belongs(k, s.threads, q, s.items[q][0]) && s.items[q][0].id < k
  {
    hide LockInv, LocalInv, QueueInv, PlaceInv, TicketInv, SleepInv, CountInv, QueueOk;
    InQueue(k, s, q);
    QueueHead(k, s.threads, q, s.items[q]);
  }

  lemma ServerFetched(k: nat, a: seq<Thread>, b: seq<Thread>, t: nat, q: Queue, m: Info)
    requires k <= t < |a| && a[t].pc == RTest(q) && Local(k, a, t) && Belongs(k, a, q, m) && Local(k, a, m.id)
    requires Frame(a, b, t, m.id) && b[t].pc == RUnlock(q, m) && b[m.id].card == a[m.id].card.(place := Served(t))
    ensures !q.AnswerQ? && a[m.id].card.place == Queued(q) && Local(k, b, t) && Local(k, b, m.id)
  {
    assert Kept(a[m.id].pc, b[m.id].pc);
    StartedKept(k, a, b, t, m.id, a[m.id].card.desk);
  }

  lemma ServerFetches(k: nat, s: State, t: nat, q: Queue)
    requires Inv(k, s) && k <= t < |s.threads| && s.threads[t].pc == RTest(q) && q in s.items && s.items[q] != []
    requires s.items[q][0].id < |s.threads|
    ensures Inv(k, Fetch(k, s, t, q))
  {
    hide Inv, Local, Belongs, Frame, Broadcast;
    HeadBelongs(k, s, q);
    var m, s' := s.items[q][0], Fetch(k, s, t, q);
    Mover(k, s, t);
    Mover(k, s, m.id);
    GotoBroadcast(s.threads, t, m.id, Served(t), RUnlock(q, m), NotFull(q));
    ServerFetched(k, s.threads, s'.threads, t, q, m);
    FetchedInv(k, s, s', t, m.id, q, m);
  }

  // ---------------------------------------------------------------- handling what was received

  /** A student goes on to the special office, or from there back to the office that served it first. */
  lemma ForwardStep(k: nat, s: State, t: nat, q: Queue, m: Info, s': State, card: Card, next: Queue)
    requires Inv(k, s) && t < k && t < |s.threads| && s.threads[t].pc == RUnlock(q, m)
    requires var c := s.threads[t].card;
      card == c.(leg := c.leg + 1, place := Home)
      && ((c.leg == 0 && m.urgent && next == SpecialQ) || (c.leg == 1 && next == UrgentQ(m.office)))
    requires s' == s.(threads := s.threads[t := Thread(card, SLock(next, m))], locks := s.locks - {BufLock(q)})
    ensures Inv(k, s')
  {
    hide Shape, LockInv, LocalInv, QueueInv, PlaceInv, TicketInv, SleepInv, CountInv;
    Mover(k, s, t);
    assert Frame(s.threads, s'.threads, t, t);
    HandledShape(k, s, s', t, t, q);
    MovedLocals(k, s.threads, s'.threads, t, t);
    UnplacedQueues(k, s, s', t, t);
    MovedPlaces(k, s, s', t, t, q);
    TicketsKept(s, s', t, t);
    SleepersKept(k, s, s', t, t);
    MovedCounts(k, s, s', t, t);
  }

  lemma HandledShape(k: nat, s: State, s': State, t: nat, x: nat, q: Queue)
    requires Inv(k, s) && Frame(s.threads, s'.threads, t, x) && s'.locks == s.locks - {BufLock(q)}
    requires s'.tickets == s.tickets && s'.items == s.items
    requires s.threads[t].pc.RUnlock? && s.threads[t].pc.q == q && s'.threads[t].pc.SLock?
    ensures Shape(k, s') && LockInv(s')
  {
    hide LocalInv, QueueInv, PlaceInv, TicketInv, SleepInv, CountInv;
    Mover(k, s, t);
    ShapeKept(k, s, s', t, x);
    LocksKept(s, s', t, x);
  }

  /** The message of `x` is in no queue, and no queue changes. */
  lemma UnplacedQueues(k: nat, s: State, s': State, t: nat, x: nat)
    requires x < k <= |s.threads| && QueueInv(k, s) && Frame(s.threads, s'.threads, t, x) && s'.items == s.items
    requires !s.threads[x].card.place.Queued? && !s.threads[x].card.place.Answered?
    ensures QueueInv(k, s')
  {
    forall p | p in s'.items ensures QueueOk(k, s'.threads, p, s'.items[p]) {
      QueueKept(k, s.threads, s'.threads, t, x, p, s.items[p]);
    }
  }

  /** An office answers a first request, and its number goes on the student's card. */
  lemma DeskStep(k: nat, s: State, t: nat, m: Info, r: Info, s': State)
    requires Inv(k, s) && k <= t < |s.threads| && m.id < |s.threads| && s.threads[t].pc == RUnlock(NormalQ, m)
    requires r.id == m.id && r.office == t - k
    requires var x := s.threads[m.id];
      s' == s.(threads := Goto(s.threads[m.id := x.(card := x.card.(desk := r.office))], t, SLock(AnswerQ(r.id), r)),
               locks := s.locks - {BufLock(NormalQ)})
    ensures Inv(k, s')
  {
    hide Shape, LockInv, LocalInv, QueueInv, PlaceInv, TicketInv, SleepInv, CountInv;
    Mover(k, s, t);
    var x := m.id;
    Mover(k, s, x);
    assert Frame(s.threads, s'.threads, t, x);
    HandledShape(k, s, s', t, x, NormalQ);
    MovedLocals(k, s.threads, s'.threads, t, x);
    UnplacedQueues(k, s, s', t, x);
    MovedPlaces(k, s, s', t, x, NormalQ);
    TicketsKept(s, s', t, x);
    SleepersKept(k, s, s', t, x);
    MovedCounts(k, s, s', t, x);
  }

  lemma HandleStep(k: nat, s: State, t: nat, q: Queue, m: Info, mark: bool)
    requires Inv(k, s) && t < |s.threads| && (t < k || m.id < |s.threads|) && s.threads[t].pc == RUnlock(q, m)
    ensures Inv(k, Handle(k, s, t, q, m, mark))
  {
    hide Inv;
    Mover(k, s, t);
    var c := s.threads[t].card;
    if t >= k {
      var r := Reply(k, t, q, m, mark);
      if q == NormalQ {
        DeskStep(k, s, t, m, r, Handle(k, s, t, q, m, mark));
      } else {
        ReplyStep(k, s, t, q, m, mark);
      }
    } else if c.leg == 0 && m.urgent {
      ForwardStep(k, s, t, q, m, Handle(k, s, t, q, m, mark), c.(leg := 1, place := Home), SpecialQ);
    } else if c.leg == 1 {
      ForwardStep(k, s, t, q, m, Handle(k, s, t, q, m, mark), c.(leg := 2, place := Home), UrgentQ(m.office));
    } else {
      LastAnswerStep(k, s, t, q, m);
    }
  }

  // ---------------------------------------------------------------- every step, every run

  lemma StepInv(k: nat, s: State, t: nat, mark: bool)
    requires Inv(k, s) && CanStep(k, s, t)
    ensures Inv(k, Next(k, s, t, mark))
  {
    hide Inv, Create, Store, CountTicket, Fetch, Handle, TakeTicket, SignOff, Terminate, Release, Acquire;
    Mover(k, s, t);
    if Wants(s.threads[t].pc).Some? {
      AcquireStep(k, s, t);
    } else {
      match s.threads[t].pc
      case Begin => CreateStep(k, s, t);
      case STest(q, m) =>
        if |s.items[q]| == Dim(k, q) { SendBlocksStep(k, s, t, q, m); }
        else if t < k { StudentStores(k, s, t, q, m); }
        else { ServerStores(k, s, t, q, m); }
      case SCount(q, m) => CountTicketStep(k, s, t, q, m);
      case SFree(q, m) => SendFreesStep(k, s, t, q, m);
      case SUnlock(q, m) => SendEndsStep(k, s, t, q, m);
      case RTest(q) =>
        if s.items[q] == [] { ReceiveBlocksStep(k, s, t, q); }
        else if t < k { StudentFetches(k, s, t, q); }
        else { ServerFetches(k, s, t, q); }
      case RUnlock(q, m) => HandleStep(k, s, t, q, m, mark);
      case TTest =>
        if Choice(k, s, t).None? { TicketBlocksStep(k, s, t); }
        else {
          ChoiceCounts(k, s, t, Choice(k, s, t).value);
          TakeTicketStep(k, s, t, Choice(k, s, t).value);
        }
      case TUnlock(q) => TicketEndsStep(k, s, t, q);
      case NDec => SignOffStep(k, s, t);
      case NUnlock(last) => SignOffEndsStep(k, s, t, last);
      case Kill => TerminateStep(k, s, t);
    }
  }

  lemma InitialCounts(k: nat, s: State)
    requires k >= 1 && s == Initial(k)
    ensures CountInv(k, s) && TicketInv(s)
  {
    CountAll(s.threads[..k], NotSigned);
    CountNone(s.threads[..k], Killer);
    SumBound(s.threads[..k], Hops, 0);
    forall q | q in s.tickets ensures 0 <= s.tickets[q] == |Contents(s, q)| - Count(s.threads, InFlight(q)) {
      CountNone(s.threads, InFlight(q));
    }
  }

  lemma InitialShape(k: nat, s: State)
    requires k >= 1 && s == Initial(k)
    ensures Shape(k, s) && LockInv(s) && SleepInv(k, s)
  {}

  lemma InitialPlaces(k: nat, s: State)
    requires k >= 1 && s == Initial(k)
    ensures LocalInv(k, s.threads) && QueueInv(k, s) && PlaceInv(k, s)
  {}

  lemma InitialInv(k: nat)
    requires k >= 1
    ensures Inv(k, Initial(k))
  {
    hide Shape, LockInv, LocalInv, QueueInv, PlaceInv, TicketInv, SleepInv, CountInv, Initial;
    InitialShape(k, Initial(k));
    InitialPlaces(k, Initial(k));
    InitialCounts(k, Initial(k));
  }

  lemma {:induction false} RunInv(k: nat, s: State, schedule: seq<(nat, bool)>)
    requires Inv(k, s) && Feasible(k, s, schedule)
    ensures Inv(k, Run(k, s, schedule))
    decreases |schedule|
  {
    hide Inv, Next;
    if schedule != [] {
      StepInv(k, s, schedule[0].0, schedule[0].1);
      RunInv(k, Next(k, s, schedule[0].0, schedule[0].1), schedule[1..]);
    }
  }
}

/**
 What every step of the office system keeps: the mutexes, the place of every request, the contents of every queue,
 the counters, the sleepers, and the number of students that have not signed off.
 */
module OfficeInvariant {
  import opened Counting
  import opened Options
  import opened Offices

  // ---------------------------------------------------------------- messages

  /** `m` is what the student with card `c` asks in its current round trip, and `q` is where it asks. */
  ghost predicate Request(q: Queue, c: Card, m: Info) {
    match c.leg
    case 0 => q == NormalQ && !m.urgent
    case 1 => q == SpecialQ && m.urgent && m.office == c.desk < OFFICES
    case 2 => q == UrgentQ(c.desk) && m.urgent && m.office == c.desk < OFFICES
    case _ => false
  }

  /** `m` is the answer to it: from the first office on it carries that office's number. */
  ghost predicate Answer(c: Card, m: Info) {
    m.office == c.desk < OFFICES && (c.leg == 1 ==> m.urgent) && (c.leg == 2 ==> !m.urgent)
  }

  /** The request is under way: neither before it is sent nor after it came back. */
  ghost predicate Out(p: Place) {
    p.Queued? || p.Served? || p.Answered?
  }

  predicate Serves(k: nat, t: nat, q: Queue) {
    if t == k + OFFICES then q == SpecialQ
    else k <= t < k + OFFICES && (q == NormalQ || q == UrgentQ(t - k))
  }

  /** The message of student `x` is in the hands of a server at `pc`. */
  predicate Busy(pc: Pc, x: nat) {
    match pc
    case RUnlock(_, m) => m.id == x
    case SLock(_, m) => m.id == x
    case STest(_, m) => m.id == x
    case SSleep(_, m) => m.id == x
    case _ => false
  }

  ghost predicate StudentLocal(t: nat, c: Card, pc: Pc) {
    c.leg <= 2 &&
    match pc
    case Begin => c == Card(0, Home, OFFICES)
    case SLock(q, m) => c.place == Home && m.id == t && Request(q, c, m)
    case STest(q, m) => c.place == Home && m.id == t && Request(q, c, m)
    case SSleep(q, m) => c.place == Home && m.id == t && Request(q, c, m)
    case SCond(q, m) => Out(c.place) && m.id == t && Request(q, c, m)
    case SCount(q, m) => Out(c.place) && m.id == t && Request(q, c, m)
    case SFree(q, m) => Out(c.place) && m.id == t
    case SUnlock(q, m) => Out(c.place) && m.id == t
    case RLock(q) => Out(c.place) && q == AnswerQ(t)
    case RTest(q) => Out(c.place) && q == AnswerQ(t)
    case RSleep(q) => Out(c.place) && q == AnswerQ(t)
    case RUnlock(q, m) => c.place == Back && q == AnswerQ(t) && m.id == t && Answer(c, m)
    case NLock => c.place == Back
    case NDec => c.place == Back
    case NUnlock(_) => c.place == Back
    case Kill => c.place == Back
    case Gone => c.place == Back
    case _ => false
  }

  ghost predicate Holding(k: nat, threads: seq<Thread>, t: nat, m: Info) {
    m.id < k <= |threads| && threads[m.id].card.place == Served(t)
  }

  /** Office `o` has created its urgent queue. */
  ghost predicate Started(k: nat, threads: seq<Thread>, o: nat) {
    o < OFFICES ==> k + o < |threads| && !threads[k + o].pc.Begin?
  }

  ghost predicate ServerLocal(k: nat, threads: seq<Thread>, t: nat, pc: Pc)
    requires k <= |threads|
  {
    match pc
    case Begin => t < k + OFFICES
    case SLock(q, m) => Holding(k, threads, t, m) && q == AnswerQ(m.id) && Answer(threads[m.id].card, m)
    case STest(q, m) => Holding(k, threads, t, m) && q == AnswerQ(m.id) && Answer(threads[m.id].card, m)
    case SSleep(q, m) => Holding(k, threads, t, m) && q == AnswerQ(m.id) && Answer(threads[m.id].card, m)
    case SCond(q, m) => m.id < k && q == AnswerQ(m.id) && m.office < OFFICES && Started(k, threads, m.office)
    case SCount(q, m) => m.id < k && q == AnswerQ(m.id) && m.office < OFFICES && Started(k, threads, m.office)
    case SFree(q, m) => m.id < k && q == AnswerQ(m.id)
    case SUnlock(q, m) => m.id < k && q == AnswerQ(m.id)
    case RLock(q) => Serves(k, t, q)
    case RTest(q) => Serves(k, t, q)
    case RUnlock(q, m) => Serves(k, t, q) && Holding(k, threads, t, m) && Request(q, threads[m.id].card, m)
    case TUnlock(q) => Serves(k, t, q)
    case TLock => true
    case TTest => true
    case TSleep => true
    case _ => false
  }

  ghost predicate Local(k: nat, threads: seq<Thread>, t: nat)
    requires k <= |threads| && t < |threads|
  {
    if t < k then StudentLocal(t, threads[t].card, threads[t].pc) && Started(k, threads, threads[t].card.desk)
    else threads[t].card == SERVER && ServerLocal(k, threads, t, threads[t].pc)
  }

  /** Message `m` may be in queue `q`. */
  ghost predicate Belongs(k: nat, threads: seq<Thread>, q: Queue, m: Info)
    requires k <= |threads|
  {
    m.id < k
    && var c := threads[m.id].card;
       if q.AnswerQ? then q.student == m.id && c.place == Answered && Answer(c, m)
       else c.place == Queued(q) && Request(q, c, m)
  }

  ghost predicate QueueOk(k: nat, threads: seq<Thread>, q: Queue, ms: seq<Info>)
    requires k <= |threads|
  {
    && |ms| <= Dim(k, q)
    && (forall i :: 0 <= i < |ms| ==> Belongs(k, threads, q, ms[i]))
    && (forall i, j :: 0 <= i < j < |ms| ==> ms[i].id != ms[j].id)
  }

  ghost predicate Has(ms: seq<Info>, x: nat) {
    exists i :: 0 <= i < |ms| && ms[i].id == x
  }

  /** The request of student `x` is where its card says. */
  ghost predicate Placed(k: nat, s: State, x: nat)
    requires x < k <= |s.threads|
  {
    match s.threads[x].card.place
    case Queued(q) => q in s.items && Has(s.items[q], x)
    case Answered => AnswerQ(x) in s.items && Has(s.items[AnswerQ(x)], x)
    case Served(u) => k <= u < |s.threads| && Busy(s.threads[u].pc, x)
    case _ => true
  }

  // ---------------------------------------------------------------- the invariant

  ghost predicate Shape(k: nat, s: State) {
    && k >= 1 && |s.threads| == k + OFFICES + 1 && s.tickets.Keys == TICKETS
    && (forall q :: q in s.items ==> Created(k, q))
    && NormalQ in s.items && SpecialQ in s.items
    && (forall o: nat :: o < OFFICES ==> (UrgentQ(o) in s.items <==> !s.threads[k + o].pc.Begin?))
    && (forall x: nat :: x < k ==> (AnswerQ(x) in s.items <==> !s.threads[x].pc.Begin?))
  }

  predicate Created(k: nat, q: Queue) {
    (q.UrgentQ? ==> q.office < OFFICES) && (q.AnswerQ? ==> q.student < k)
  }

  ghost predicate LockInv(s: State) {
    && (forall x :: x in s.locks ==> s.locks[x] < |s.threads|)
    && (forall t, x :: 0 <= t < |s.threads| ==> (x in Held(s.threads[t].pc) <==> x in s.locks && s.locks[x] == t))
  }

  ghost predicate LocalInv(k: nat, threads: seq<Thread>)
    requires k <= |threads|
  {
    forall t :: 0 <= t < |threads| ==> Local(k, threads, t)
  }

  ghost predicate QueueInv(k: nat, s: State)
    requires k <= |s.threads|
  {
    forall q :: q in s.items ==> QueueOk(k, s.threads, q, s.items[q])
  }

  ghost predicate PlaceInv(k: nat, s: State)
    requires k <= |s.threads|
  {
    forall x: nat :: x < k ==> Placed(k, s, x)
  }

  function Contents(s: State, q: Queue): seq<Info> {
    if q in s.items then s.items[q] else []
  }

  /** A ticket has been taken but the message not yet, or a message stored but not yet counted. */
  predicate Between(pc: Pc, q: Queue) {
    match pc
    case TUnlock(p) => p == q
    case RLock(p) => p == q
    case RTest(p) => p == q
    case RSleep(p) => p == q
    case SCond(p, _) => p == q
    case SCount(p, _) => p == q
    case _ => false
  }

  function InFlight(q: Queue): Thread -> bool {
    (th: Thread) => Between(th.pc, q)
  }

  /** counter + tickets taken + messages not yet counted = length of the queue */
  ghost predicate TicketInv(s: State) {
    forall q :: q in s.tickets ==> 0 <= s.tickets[q] == |Contents(s, q)| - Count(s.threads, InFlight(q))
  }

  /** Nobody sleeps on a condition that has come true. */
  ghost predicate Sleeper(k: nat, s: State, t: nat)
    requires t < |s.threads| && s.tickets.Keys == TICKETS && |s.threads| == k + OFFICES + 1
  {
    match s.threads[t].pc
    case SSleep(q, _) => q in s.items && |s.items[q]| == Dim(k, q)
    case RSleep(q) => q in s.items && s.items[q] == []
    case TSleep => Choice(k, s, t) == None
    case _ => true
  }

  ghost predicate SleepInv(k: nat, s: State)
    requires s.tickets.Keys == TICKETS && |s.threads| == k + OFFICES + 1
  {
    forall t :: 0 <= t < |s.threads| ==> Sleeper(k, s, t)
  }

  predicate NotSigned(th: Thread) {
    !th.pc.NUnlock? && !th.pc.Kill? && !th.pc.Gone?
  }

  predicate Killer(th: Thread) {
    (th.pc.NUnlock? && th.pc.last) || th.pc.Kill?
  }

  /** Sends that the student's request has been through. */
  function Hops(th: Thread): nat {
    2 * th.card.leg +
    match th.card.place
    case Home => 0
    case Queued(_) => 1
    case Served(_) => 1
    case Answered => 2
    case Back => 2
  }

  ghost predicate CountInv(k: nat, s: State)
    requires k <= |s.threads|
  {
    && s.num == Count(s.threads[..k], NotSigned)
    && s.signals + Count(s.threads[..k], Killer) == One(s.num == 0)
    && s.sends == Sum(s.threads[..k], Hops)
  }

  ghost predicate Inv(k: nat, s: State) {
    && Shape(k, s) && LockInv(s) && LocalInv(k, s.threads) && QueueInv(k, s) && PlaceInv(k, s)
    && TicketInv(s) && SleepInv(k, s) && CountInv(k, s)
  }

  // ---------------------------------------------------------------- frames

  function Awake(pc: Pc): Pc {
    match pc
    case SSleep(q, m) => SLock(q, m)
    case RSleep(q) => RLock(q)
    case TSleep => TLock
    case _ => pc
  }

  /** A thread that does not move stays where it is or is woken. */
  predicate Kept(pc: Pc, pc': Pc) {
    pc' == pc || pc' == Awake(pc)
  }

  /** Thread `t` moved; the card of `x` may have changed; everyone else at most woke up. */
  ghost predicate Frame(a: seq<Thread>, b: seq<Thread>, t: nat, x: nat) {
    && |b| == |a| && t < |a|
    && (forall u :: 0 <= u < |a| && u != t ==> Kept(a[u].pc, b[u].pc))
    && (forall u :: 0 <= u < |a| && u != x ==> b[u].card == a[u].card)
  }

  /** Only entries of `t` change, and afterwards `t` holds what its new program counter says. */
  ghost predicate Relocked(l: map<Mutex, nat>, l': map<Mutex, nat>, t: nat, pc: Pc) {
    && (forall x :: x in l' && l'[x] != t ==> x in l && l[x] == l'[x])
    && (forall x :: x in l && l[x] != t ==> x in l' && l'[x] == l[x])
    && (forall x :: x in Held(pc) <==> x in l' && l'[x] == t)
  }

  lemma LocksKept(s: State, s': State, t: nat, x: nat)
    requires LockInv(s) && Frame(s.threads, s'.threads, t, x) && Relocked(s.locks, s'.locks, t, s'.threads[t].pc)
    ensures LockInv(s')
  {
    forall u, m | 0 <= u < |s.threads|
      ensures m in Held(s'.threads[u].pc) <==> m in s'.locks && s'.locks[m] == u
    {
      if u != t {
        assert Kept(s.threads[u].pc, s'.threads[u].pc);
        assert m in Held(s.threads[u].pc) <==> m in s.locks && s.locks[m] == u;
      }
    }
  }

  lemma LocalKept(k: nat, a: seq<Thread>, b: seq<Thread>, t: nat, x: nat, u: nat)
    requires k <= |a| && x < |a| && Frame(a, b, t, x) && u < |a| && u != t && Local(k, a, u)
    requires a[x].card == b[x].card || (u != x && a[x].card.place != Served(u))
    requires !b[t].pc.Begin?
    ensures Local(k, b, u)
  {
    assert Kept(a[u].pc, b[u].pc);
    forall o: nat | Started(k, a, o) ensures Started(k, b, o) {
      StartedKept(k, a, b, t, x, o);
    }
  }

  lemma StartedKept(k: nat, a: seq<Thread>, b: seq<Thread>, t: nat, x: nat, o: nat)
    requires Frame(a, b, t, x) && Started(k, a, o) && !b[t].pc.Begin?
    ensures Started(k, b, o)
  {
    if o < OFFICES && k + o != t {
      assert Kept(a[k + o].pc, b[k + o].pc);
    }
  }

  lemma QueueKept(k: nat, a: seq<Thread>, b: seq<Thread>, t: nat, x: nat, q: Queue, ms: seq<Info>)
    requires k <= |a| && x < |a| && Frame(a, b, t, x) && QueueOk(k, a, q, ms)
    requires a[x].card == b[x].card
      || (a[x].card.place != Queued(q) && !(q == AnswerQ(x) && a[x].card.place == Answered))
    ensures QueueOk(k, b, q, ms)
  {
    forall i | 0 <= i < |ms| ensures Belongs(k, b, q, ms[i]) {
      assert Belongs(k, a, q, ms[i]);
    }
  }

  lemma PlacedKept(k: nat, s: State, s': State, t: nat, x: nat, y: nat)
    requires y < k <= |s.threads| && Frame(s.threads, s'.threads, t, x) && Placed(k, s, y)
    requires s.threads[y].card.place == s'.threads[y].card.place
    requires forall q :: q in s.items && Has(s.items[q], y) ==> q in s'.items && Has(s'.items[q], y)
    requires t >= k && Busy(s.threads[t].pc, y) ==> Busy(s'.threads[t].pc, y)
    ensures Placed(k, s', y)
  {
    if s.threads[y].card.place.Served? {
      var u := s.threads[y].card.place.server;
      if u != t {
        assert Kept(s.threads[u].pc, s'.threads[u].pc);
      }
    }
  }

  lemma TicketsKept(s: State, s': State, t: nat, x: nat)
    requires TicketInv(s) && Frame(s.threads, s'.threads, t, x) && s'.tickets == s.tickets && s'.items == s.items
    requires forall q :: q in s.tickets ==> Between(s.threads[t].pc, q) == Between(s'.threads[t].pc, q)
    ensures TicketInv(s')
  {
    forall q | q in s'.tickets ensures 0 <= s'.tickets[q] == |Contents(s', q)| - Count(s'.threads, InFlight(q)) {
      FlightSame(s.threads, s'.threads, t, x, q);
    }
  }

  lemma FlightSame(a: seq<Thread>, b: seq<Thread>, t: nat, x: nat, q: Queue)
    requires Frame(a, b, t, x)
    ensures Count(b, InFlight(q)) + One(Between(a[t].pc, q)) == Count(a, InFlight(q)) + One(Between(b[t].pc, q))
  {
    forall u | 0 <= u < |a| && u != t ensures InFlight(q)(a[u]) == InFlight(q)(b[u]) {
      assert Kept(a[u].pc, b[u].pc);
    }
    CountChange(a, b, t, InFlight(q));
  }

  lemma SignedSame(k: nat, a: seq<Thread>, b: seq<Thread>, t: nat, x: nat)
    requires k <= |a| && Frame(a, b, t, x)
    ensures t < k ==> Count(b[..k], NotSigned) + One(NotSigned(a[t])) == Count(a[..k], NotSigned) + One(NotSigned(b[t]))
    ensures t < k ==> Count(b[..k], Killer) + One(Killer(a[t])) == Count(a[..k], Killer) + One(Killer(b[t]))
    ensures t >= k ==>
      Count(b[..k], NotSigned) == Count(a[..k], NotSigned) && Count(b[..k], Killer) == Count(a[..k], Killer)
  {
    forall u | 0 <= u < k && u != t ensures NotSigned(a[..k][u]) == NotSigned(b[..k][u])
        && Killer(a[..k][u]) == Killer(b[..k][u]) {
      assert Kept(a[u].pc, b[u].pc);
    }
    if t < k {
      CountChange(a[..k], b[..k], t, NotSigned);
      CountChange(a[..k], b[..k], t, Killer);
    } else {
      CountSame(a[..k], b[..k], NotSigned);
      CountSame(a[..k], b[..k], Killer);
    }
  }

  lemma HopsChange(k: nat, a: seq<Thread>, b: seq<Thread>, t: nat, x: nat)
    requires x < k <= |a| && Frame(a, b, t, x)
    ensures Sum(b[..k], Hops) + Hops(a[x]) == Sum(a[..k], Hops) + Hops(b[x])
  {
    SumChange(a[..k], b[..k], x, Hops);
  }

  lemma SleepersKept(k: nat, s: State, s': State, t: nat, x: nat)
    requires SleepInv0(k, s) && Frame(s.threads, s'.threads, t, x)
    requires s'.tickets == s.tickets && s'.items == s.items && Sleeper(k, s', t)
    ensures SleepInv(k, s')
  {
    forall u | 0 <= u < |s'.threads| ensures Sleeper(k, s', u) {
      if u != t {
        assert Kept(s.threads[u].pc, s'.threads[u].pc);
        assert Sleeper(k, s, u);
      }
    }
  }

  ghost predicate SleepInv0(k: nat, s: State) {
    s.tickets.Keys == TICKETS && |s.threads| == k + OFFICES + 1 && SleepInv(k, s)
  }

  // ---------------------------------------------------------------- steps that move no message

  /** A step that changes mutexes and the mover's program counter only. */
  ghost predicate QuietMove(k: nat, s: State, s': State, t: nat) {
    && Frame(s.threads, s'.threads, t, t) && s'.threads[t].card == s.threads[t].card
    && s' == s.(threads := s'.threads, locks := s'.locks)
    && Relocked(s.locks, s'.locks, t, s'.threads[t].pc)
    && var pc, pc' := s.threads[t].pc, s'.threads[t].pc;
       && !pc.Begin? && !pc'.Begin?
       && (forall q :: q in TICKETS ==> Between(pc, q) == Between(pc', q))
       && (forall y :: t >= k && Busy(pc, y) ==> Busy(pc', y))
       && NotSigned(s.threads[t]) == NotSigned(s'.threads[t]) && Killer(s.threads[t]) == Killer(s'.threads[t])
  }

  lemma BeginKept(a: seq<Thread>, b: seq<Thread>, t: nat, x: nat, u: nat)
    requires Frame(a, b, t, x) && u < |a| && u != t
    ensures b[u].pc.Begin? == a[u].pc.Begin?
  {
    assert Kept(a[u].pc, b[u].pc);
  }

  lemma ShapeKept(k: nat, s: State, s': State, t: nat, x: nat)
    requires Shape(k, s) && Frame(s.threads, s'.threads, t, x)
    requires s'.tickets.Keys == s.tickets.Keys && s'.items.Keys == s.items.Keys
    requires !s.threads[t].pc.Begin? && !s'.threads[t].pc.Begin?
    ensures Shape(k, s')
  {
    forall u | 0 <= u < |s.threads| ensures s'.threads[u].pc.Begin? == s.threads[u].pc.Begin? {
      if u != t { BeginKept(s.threads, s'.threads, t, x, u); }
    }
    forall q | q in s'.items ensures Created(k, q) {
      assert q in s.items.Keys;
    }
    assert NormalQ in s.items.Keys && SpecialQ in s.items.Keys;
    forall o: nat | o < OFFICES ensures UrgentQ(o) in s'.items <==> !s'.threads[k + o].pc.Begin? {
      assert UrgentQ(o) in s.items.Keys <==> UrgentQ(o) in s.items;
    }
    forall y: nat | y < k ensures AnswerQ(y) in s'.items <==> !s'.threads[y].pc.Begin? {
      assert AnswerQ(y) in s.items.Keys <==> AnswerQ(y) in s.items;
    }
  }

  lemma QuietMessages(k: nat, s: State, s': State, t: nat)
    requires k <= |s.threads| && QueueInv(k, s) && PlaceInv(k, s) && QuietMove(k, s, s', t)
    ensures QueueInv(k, s') && PlaceInv(k, s')
  {
    forall q | q in s'.items ensures QueueOk(k, s'.threads, q, s'.items[q]) {
      QueueKept(k, s.threads, s'.threads, t, t, q, s.items[q]);
    }
    forall y: nat | y < k ensures Placed(k, s', y) {
      PlacedKept(k, s, s', t, t, y);
    }
  }

  lemma QuietCounts(k: nat, s: State, s': State, t: nat)
    requires k <= |s.threads| && CountInv(k, s) && QuietMove(k, s, s', t)
    ensures CountInv(k, s')
  {
    SignedSame(k, s.threads, s'.threads, t, t);
    forall u | 0 <= u < k ensures Hops(s.threads[..k][u]) == Hops(s'.threads[..k][u]) {
      assert s.threads[u].card == s'.threads[u].card;
    }
    SumSame(s.threads[..k], s'.threads[..k], Hops);
  }

  lemma QuietLocals(k: nat, a: seq<Thread>, b: seq<Thread>, t: nat)
    requires k <= |a| && LocalInv(k, a) && Frame(a, b, t, t) && a[t].card == b[t].card && Local(k, b, t)
    requires !b[t].pc.Begin?
    ensures LocalInv(k, b)
  {
    forall u | 0 <= u < |b| ensures Local(k, b, u) {
      if u != t {
        assert Local(k, a, u);
        LocalKept(k, a, b, t, t, u);
      }
    }
  }

  lemma QuietInv(k: nat, s: State, s': State, t: nat)
    requires Inv(k, s) && QuietMove(k, s, s', t) && Local(k, s'.threads, t) && Sleeper(k, s', t)
    ensures Inv(k, s')
  {
    ShapeKept(k, s, s', t, t);
    LocksKept(s, s', t, t);
    TicketsKept(s, s', t, t);
    QuietMessages(k, s, s', t);
    QuietCounts(k, s, s', t);
    QuietLocals(k, s.threads, s'.threads, t);
    SleepersKept(k, s, s', t, t);
  }
}

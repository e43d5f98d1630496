/**
 The students, the four offices and the special office. Threads talk through bounded queues, each with its own mutex
 and two condition variables; a further mutex and condition variable guard the counters that tell the offices how
 many requests wait for them. The machine takes one step of one thread at a time: one lock operation, one test, or
 the body of one critical section together with its broadcast.
 */
module Offices {
  import opened Options

  const OFFICES := 4

  datatype Info = Info(id: nat, office: nat, urgent: bool)

  datatype Queue = NormalQ | SpecialQ | UrgentQ(office: nat) | AnswerQ(student: nat)

  datatype Mutex = BufLock(q: Queue) | CondLock | NumLock

  /** Condition variables. */
  datatype Signal = NotEmpty(q: Queue) | NotFull(q: Queue) | Ticket

  /** Where a student's request is, in its current round trip. */
  datatype Place = Home | Queued(q: Queue) | Served(server: nat) | Answered | Back

  /**
   A student's round trip (0 normal, 1 special, 2 urgent). `place` and `desk`, the office that served the student
   first, are history that no guard reads. The servers carry a constant card.
   */
  datatype Card = Card(leg: nat, place: Place, desk: nat)

  datatype Pc =
    | Begin                      // about to create its own queue
    // send
    | SLock(q: Queue, m: Info)   // wants the queue's mutex
    | STest(q: Queue, m: Info)   // holds it: waits if full, else stores the message
    | SSleep(q: Queue, m: Info)  // waits for notfull
    | SCond(q: Queue, m: Info)   // holds it and wants the counters' mutex
    | SCount(q: Queue, m: Info)  // holds both: updates a counter
    | SFree(q: Queue, m: Info)   // holds both
    | SUnlock(q: Queue, m: Info) // holds the queue's
    // receive
    | RLock(q: Queue)
    | RTest(q: Queue)            // waits if empty, else takes a message
    | RSleep(q: Queue)           // waits for notempty
    | RUnlock(q: Queue, m: Info)
    // waiting for work
    | TLock
    | TTest                      // waits if its counters are zero, else takes a ticket
    | TSleep
    | TUnlock(q: Queue)
    // signing off
    | NLock
    | NDec
    | NUnlock(last: bool)
    | Kill
    | Gone

  datatype Thread = Thread(card: Card, pc: Pc)

  /**
   Threads 0..k-1 are the students, k..k+3 the offices, k+4 the special office. A queue is in `items` from its
   creation on; `tickets` are the counters `normal` (NormalQ), `urgent[4]` (SpecialQ) and `urgent[o]` (UrgentQ(o));
   `locks` maps every held mutex to its holder. `sends` counts the messages stored, and is history.
   */
  datatype State = State(
    threads: seq<Thread>, items: map<Queue, seq<Info>>, tickets: map<Queue, int>, locks: map<Mutex, nat>,
    num: int, signals: nat, sends: nat)

  const SERVER := Card(2, Back, OFFICES)

  const TICKETS := {NormalQ, SpecialQ, UrgentQ(0), UrgentQ(1), UrgentQ(2), UrgentQ(3)}

  function Dim(k: nat, q: Queue): nat {
    match q
    case NormalQ => k
    case SpecialQ => k
    case UrgentQ(_) => k / 2
    case AnswerQ(_) => 2
  }

  function InitialThread(k: nat, t: nat): Thread {
    if t < k then Thread(Card(0, Home, OFFICES), Begin)
    else Thread(SERVER, if t < k + OFFICES then Begin else TLock)
  }

  function Initial(k: nat): State {
    State(seq(k + OFFICES + 1, (t: nat) => InitialThread(k, t)), map[NormalQ := [], SpecialQ := []],
          map q | q in TICKETS :: 0, map[], k, 0, 0)
  }

  // ---------------------------------------------------------------- steps

  function Held(pc: Pc): set<Mutex> {
    match pc
    case STest(q, _) => {BufLock(q)}
    case SCond(q, _) => {BufLock(q)}
    case SCount(q, _) => {BufLock(q), CondLock}
    case SFree(q, _) => {BufLock(q), CondLock}
    case SUnlock(q, _) => {BufLock(q)}
    case RTest(q) => {BufLock(q)}
    case RUnlock(q, _) => {BufLock(q)}
    case TTest => {CondLock}
    case TUnlock(_) => {CondLock}
    case NDec => {NumLock}
    case NUnlock(_) => {NumLock}
    case _ => {}
  }

  function Wants(pc: Pc): Option<Mutex> {
    match pc
    case SLock(q, _) => Some(BufLock(q))
    case SCond(_, _) => Some(CondLock)
    case RLock(q) => Some(BufLock(q))
    case TLock => Some(CondLock)
    case NLock => Some(NumLock)
    case _ => None
  }

  function Granted(pc: Pc): Pc
    requires Wants(pc).Some?
  {
    match pc
    case SLock(q, m) => STest(q, m)
    case SCond(q, m) => SCount(q, m)
    case RLock(q) => RTest(q)
    case TLock => TTest
    case NLock => NDec
  }

  predicate Asleep(pc: Pc) {
    pc.SSleep? || pc.RSleep? || pc.TSleep?
  }

  predicate Enabled(s: State, t: nat) {
    && t < |s.threads|
    && var pc := s.threads[t].pc;
       !Asleep(pc) && !pc.Gone? && (Wants(pc).Some? ==> Wants(pc).value !in s.locks)
  }

  /** The queue a step works on exists, and so does the one whose address it compares. */
  predicate Safe(k: nat, s: State, t: nat)
    requires t < |s.threads|
  {
    match s.threads[t].pc
    case STest(q, m) => q in s.items && (t < k || m.id < |s.threads|)
    case SCount(q, m) => (m.urgent ==> m.office < OFFICES && UrgentQ(m.office) in s.items)
        && (Counter(q, m).Some? ==> q in s.tickets)
    case RTest(q) => q in s.items && (t < k || forall i :: 0 <= i < |s.items[q]| ==> s.items[q][i].id < |s.threads|)
    case RUnlock(_, m) => t < k || m.id < |s.threads|
    case TTest => s.tickets.Keys == TICKETS && t < k + OFFICES + 1
    case _ => true
  }

  predicate CanStep(k: nat, s: State, t: nat) {
    Enabled(s, t) && Safe(k, s, t)
  }

  /** The counter that a send to `q` increments. */
  function Counter(q: Queue, m: Info): Option<Queue> {
    if m.urgent then (if q == UrgentQ(m.office) || q == SpecialQ then Some(q) else None)
    else if q == NormalQ then Some(q) else None
  }

  /** The counter that a server takes a ticket from: an office prefers its own urgent queue. */
  function Choice(k: nat, s: State, t: nat): Option<Queue>
    requires s.tickets.Keys == TICKETS && t < k + OFFICES + 1
  {
    if k <= t < k + OFFICES then
      if s.tickets[UrgentQ(t - k)] != 0 then Some(UrgentQ(t - k))
      else if s.tickets[NormalQ] != 0 then Some(NormalQ)
      else None
    else if s.tickets[SpecialQ] != 0 then Some(SpecialQ)
    else None
  }

  /** The answer of a server to the request `m` from queue `q`; `mark` is an office's random decision. */
  function Reply(k: nat, t: nat, q: Queue, m: Info, mark: bool): Info {
    if t == k + OFFICES then m
    else if q == NormalQ then m.(office := if t < k then 0 else t - k, urgent := mark)
    else m.(urgent := false)
  }

  function Woken(pc: Pc, c: Signal): Pc {
    match pc
    case SSleep(q, m) => if c == NotFull(q) then SLock(q, m) else pc
    case RSleep(q) => if c == NotEmpty(q) then RLock(q) else pc
    case TSleep => if c == Ticket then TLock else pc
    case _ => pc
  }

  function Broadcast(threads: seq<Thread>, c: Signal): (r: seq<Thread>)
    ensures |r| == |threads|
    ensures forall u :: 0 <= u < |r| ==> r[u] == threads[u].(pc := Woken(threads[u].pc, c))
  {
    seq(|threads|, (u: nat) requires u < |threads| => threads[u].(pc := Woken(threads[u].pc, c)))
  }

  function Goto(threads: seq<Thread>, t: nat, pc: Pc): seq<Thread>
    requires t < |threads|
  {
    threads[t := threads[t].(pc := pc)]
  }

  function Put(threads: seq<Thread>, x: nat, place: Place): seq<Thread>
    requires x < |threads|
  {
    threads[x := threads[x].(card := threads[x].card.(place := place))]
  }

  function Store(k: nat, s: State, t: nat, q: Queue, m: Info): State
    requires t < |s.threads| && q in s.items && (t < k || m.id < |s.threads|)
  {
    var moved := if t < k then Put(s.threads, t, Queued(q)) else Put(s.threads, m.id, Answered);
    s.(threads := Broadcast(Goto(moved, t, SCond(q, m)), NotEmpty(q)),
       items := s.items[q := s.items[q] + [m]], sends := s.sends + 1)
  }

  function Fetch(k: nat, s: State, t: nat, q: Queue): State
    requires t < |s.threads| && q in s.items && s.items[q] != [] && (t < k || s.items[q][0].id < |s.threads|)
  {
    var m := s.items[q][0];
    var moved := if t < k then Put(s.threads, t, Back) else Put(s.threads, m.id, Served(t));
    s.(threads := Broadcast(Goto(moved, t, RUnlock(q, m)), NotFull(q)), items := s.items[q := s.items[q][1..]])
  }

  /** After a receive: a student goes on to its next round trip or signs off, a server answers. */
  function Handled(k: nat, s: State, t: nat, q: Queue, m: Info, mark: bool): seq<Thread>
    requires t < |s.threads| && (t < k || m.id < |s.threads|)
  {
    var c := s.threads[t].card;
    if t < k then
      if c.leg == 0 && m.urgent then s.threads[t := Thread(c.(leg := 1, place := Home), SLock(SpecialQ, m))]
      else if c.leg == 1 then s.threads[t := Thread(c.(leg := 2, place := Home), SLock(UrgentQ(m.office), m))]
      else Goto(s.threads, t, NLock)
    else
      var x := s.threads[m.id];
      var r := Reply(k, t, q, m, mark);
      Goto(if q == NormalQ then s.threads[m.id := x.(card := x.card.(desk := r.office))] else s.threads, t,
          SLock(AnswerQ(r.id), r))
  }

  /** The mover goes on to `pc` and gives back a mutex. */
  function Release(s: State, t: nat, pc: Pc, x: Mutex): State
    requires t < |s.threads|
  {
    s.(threads := Goto(s.threads, t, pc), locks := s.locks - {x})
  }

  function Acquire(s: State, t: nat): State
    requires t < |s.threads| && Wants(s.threads[t].pc).Some?
  {
    var pc := s.threads[t].pc;
    s.(threads := Goto(s.threads, t, Granted(pc)), locks := s.locks[Wants(pc).value := t])
  }

  /** A student creates its answer queue, an office its urgent queue. */
  function Create(k: nat, s: State, t: nat): State
    requires t < |s.threads|
  {
    if t < k then
      s.(threads := Goto(s.threads, t, SLock(NormalQ, Info(t, OFFICES, false))), items := s.items[AnswerQ(t) := []])
    else
      s.(threads := Goto(s.threads, t, TLock), items := s.items[UrgentQ(t - k) := []])
  }

  function CountTicket(s: State, t: nat, q: Queue, m: Info): State
    requires t < |s.threads| && (Counter(q, m).Some? ==> q in s.tickets)
  {
    s.(threads := Broadcast(Goto(s.threads, t, SFree(q, m)), Ticket),
       tickets := if Counter(q, m).Some? then s.tickets[q := s.tickets[q] + 1] else s.tickets)
  }

  function TakeTicket(s: State, t: nat, q: Queue): State
    requires t < |s.threads| && q in s.tickets
  {
    s.(threads := Goto(s.threads, t, TUnlock(q)), tickets := s.tickets[q := s.tickets[q] - 1])
  }

  function Handle(k: nat, s: State, t: nat, q: Queue, m: Info, mark: bool): State
    requires t < |s.threads| && (t < k || m.id < |s.threads|)
  {
    s.(threads := Handled(k, s, t, q, m, mark), locks := s.locks - {BufLock(q)})
  }

  function SignOff(s: State, t: nat): State
    requires t < |s.threads|
  {
    s.(threads := Goto(s.threads, t, NUnlock(s.num - 1 == 0)), num := s.num - 1)
  }

  function Terminate(s: State, t: nat): State
    requires t < |s.threads|
  {
    s.(threads := Goto(s.threads, t, Gone), signals := s.signals + 1)
  }

  function Next(k: nat, s: State, t: nat, mark: bool): State
    requires CanStep(k, s, t)
  {
    if Wants(s.threads[t].pc).Some? then Acquire(s, t)
    else match s.threads[t].pc
      case Begin => Create(k, s, t)
      case STest(q, m) =>
        if |s.items[q]| == Dim(k, q) then Release(s, t, SSleep(q, m), BufLock(q)) else Store(k, s, t, q, m)
      case SCount(q, m) => CountTicket(s, t, q, m)
      case SFree(q, m) => Release(s, t, SUnlock(q, m), CondLock)
      case SUnlock(q, m) => Release(s, t, if t < k then RLock(AnswerQ(m.id)) else TLock, BufLock(q))
      case RTest(q) =>
        if s.items[q] == [] then Release(s, t, RSleep(q), BufLock(q)) else Fetch(k, s, t, q)
      case RUnlock(q, m) => Handle(k, s, t, q, m, mark)
      case TTest =>
        if Choice(k, s, t).None? then Release(s, t, TSleep, CondLock) else TakeTicket(s, t, Choice(k, s, t).value)
      case TUnlock(q) => Release(s, t, RLock(q), CondLock)
      case NDec => SignOff(s, t)
      case NUnlock(last) => Release(s, t, if last then Kill else Gone, NumLock)
      case Kill => Terminate(s, t)
  }

  /** A schedule names the thread that takes each step and what an office decides if it decides in that step. */
  predicate Feasible(k: nat, s: State, schedule: seq<(nat, bool)>)
    decreases |schedule|
  {
    schedule == [] ||
    (CanStep(k, s, schedule[0].0) && Feasible(k, Next(k, s, schedule[0].0, schedule[0].1), schedule[1..]))
  }

  function Run(k: nat, s: State, schedule: seq<(nat, bool)>): State
    requires Feasible(k, s, schedule)
    decreases |schedule|
  {
    if schedule == [] then s else Run(k, Next(k, s, schedule[0].0, schedule[0].1), schedule[1..])
  }
}

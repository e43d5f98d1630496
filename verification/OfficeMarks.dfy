/**
 What an office decides about a student when it answers the first request settles the student's whole course: one
 round trip if it does not mark the student urgent, three if it does.
 */
module OfficeMarks {
  import opened Counting
  import opened Options
  import opened Offices
  import opened OfficeInvariant
  import opened OfficeSteps
  import opened OfficeMessages
  import opened OfficeResults
  import opened OfficeBounds
  import opened OfficeOutcomes
  import opened OfficeRouting

  // ---------------------------------------------------------------- where the decision is

  predicate AllMarked(ms: seq<Info>, mark: bool) {
    forall i :: 0 <= i < |ms| ==> ms[i].urgent == mark
  }

  /** The message in the hands of a thread that is about to send it. */
  function Cargo(pc: Pc): Option<Info> {
    match pc
    case SLock(_, m) => Some(m)
    case STest(_, m) => Some(m)
    case SSleep(_, m) => Some(m)
    case _ => None
  }

  /** While the first answer is on its way, the decision `d` about student `x` travels with the message. */
  ghost predicate FirstTrip(s: State, x: nat, d: Option<bool>)
    requires x < |s.threads|
  {
    match s.threads[x].card.place
    case Home => d == None
    case Queued(_) => d == None
    case Served(u) =>
      u < |s.threads| &&
      if s.threads[u].pc.RUnlock? then d == None
      else d.Some? && (Cargo(s.threads[u].pc).Some? ==> Cargo(s.threads[u].pc).value.urgent == d.value)
    case Answered => d.Some? && AllMarked(Contents(s, AnswerQ(x)), d.value)
    case Back => d == Some(if s.threads[x].pc.RUnlock? then s.threads[x].pc.m.urgent else false)
  }

  /** `d` is what has been decided about student `x`; only a marked student goes on to the other two round trips. */
  ghost predicate CourseAt(s: State, x: nat, d: Option<bool>)
    requires x < |s.threads|
  {
    var c, pc := s.threads[x].card, s.threads[x].pc;
    && (c.leg == 0 ==> FirstTrip(s, x, d))
    && (c.leg != 0 ==> d == Some(true))
    && (c.leg == 1 ==> !Leaving(pc))
    && (d.Some? ==> c.desk < OFFICES)
  }

  /** What is known after a step of thread `t` in which it decides `mark` if it decides anything. */
  ghost function Decided(k: nat, s: State, t: nat, mark: bool, x: nat, d: Option<bool>): Option<bool> {
    if AnswersFirst(k, s, t, x) then Some(mark) else d
  }

  // ---------------------------------------------------------------- one step

  /** Threads but `t` keep what they carry; cards but that of `y` stay. */
  ghost predicate Around(s: State, s': State, t: nat, y: nat) {
    && |s'.threads| == |s.threads|
    && (forall u :: 0 <= u < |s.threads| && u != t ==>
          && s'.threads[u].pc.RUnlock? == s.threads[u].pc.RUnlock?
          && (s.threads[u].pc.RUnlock? ==> s'.threads[u].pc == s.threads[u].pc)
          && Cargo(s'.threads[u].pc) == Cargo(s.threads[u].pc)
          && Leaving(s'.threads[u].pc) == Leaving(s.threads[u].pc))
    && (forall u :: 0 <= u < |s.threads| && u != y ==> s'.threads[u].card == s.threads[u].card)
  }

  lemma BroadcastAround(s: State, s': State, t: nat, y: nat, place: Place, pc': Pc, c: Signal)
    requires t < |s.threads| && y < |s.threads| && Awake(pc') == pc'
    requires s'.threads == Broadcast(Goto(Put(s.threads, y, place), t, pc'), c)
    ensures Around(s, s', t, y) && s'.threads[t].pc == pc' && s'.threads[y].card == s.threads[y].card.(place := place)
  {
    hide Cargo, Leaving;
    forall u | 0 <= u < |s.threads| && u != t
      ensures s'.threads[u].pc == s.threads[u].pc || s'.threads[u].pc == Awake(s.threads[u].pc)
    {
      WokenKeeps(s.threads[u].pc, c);
    }
    forall u | 0 <= u < |s.threads| && u != t
      ensures Cargo(s'.threads[u].pc) == Cargo(s.threads[u].pc) && Leaving(s'.threads[u].pc) == Leaving(s.threads[u].pc)
    {
      WokenKeeps(s.threads[u].pc, c);
    }
  }

  lemma WokenKeeps(pc: Pc, c: Signal)
    ensures Woken(pc, c) == pc || Woken(pc, c) == Awake(pc)
    ensures Cargo(Awake(pc)) == Cargo(pc) && Leaving(Awake(pc)) == Leaving(pc)
  {}

  lemma GotoAround(s: State, s': State, t: nat, pc': Pc)
    requires t < |s.threads| && s'.threads == Goto(s.threads, t, pc')
    ensures Around(s, s', t, t) && s'.threads[t].pc == pc' && s'.threads[t].card == s.threads[t].card
  {}

  /** A student that the step does not concern. */
  lemma CourseKept(k: nat, s: State, s': State, t: nat, y: nat, x: nat, d: Option<bool>)
    requires Inv(k, s) && x < k && x < |s.threads| && CourseAt(s, x, d) && Around(s, s', t, y)
    requires x != t && x < |s'.threads| && s'.threads[x].card == s.threads[x].card
    requires Contents(s', AnswerQ(x)) == Contents(s, AnswerQ(x)) || s.threads[x].card.place != Answered
    requires s.threads[x].card.place == Served(t) ==>
      t < |s.threads| && t < |s'.threads| && !s.threads[t].pc.RUnlock? && !s'.threads[t].pc.RUnlock?
      && (Cargo(s'.threads[t].pc).Some? ==> Cargo(s'.threads[t].pc) == Cargo(s.threads[t].pc))
    ensures CourseAt(s', x, d)
  {
    hide Inv, Leaving, Around;
    AroundAt(s, s', t, y, x);
    if s.threads[x].card.leg == 0 {
      match s.threads[x].card.place
      case Served(u) =>
        NotServing(k, s, x);
        if u != t {
          AroundAt(s, s', t, y, u);
        }
        hide Cargo;
        assert FirstTrip(s', x, d);
      case Answered =>
        hide AllMarked, Contents;
        assert FirstTrip(s', x, d);
      case _ =>
        assert FirstTrip(s', x, d);
    }
    hide FirstTrip;
  }

  lemma CardKept(s: State, s': State, t: nat, y: nat, x: nat)
    requires Around(s, s', t, y) && x < |s.threads| && x != y
    ensures x < |s'.threads| && s'.threads[x].card == s.threads[x].card
  {}

  lemma AroundAt(s: State, s': State, t: nat, y: nat, u: nat)
    requires Around(s, s', t, y) && u < |s.threads| && u != t
    ensures u < |s'.threads| && s'.threads[u].pc.RUnlock? == s.threads[u].pc.RUnlock?
    ensures s.threads[u].pc.RUnlock? ==> s'.threads[u].pc == s.threads[u].pc
    ensures Cargo(s'.threads[u].pc) == Cargo(s.threads[u].pc) && Leaving(s'.threads[u].pc) == Leaving(s.threads[u].pc)
  {}

  /** A step of the mover that touches no message. */
  lemma QuietCourse(k: nat, s: State, s': State, t: nat, pc': Pc, x: nat, d: Option<bool>)
    requires Inv(k, s) && x < k && x < |s.threads| && t < |s.threads| && CourseAt(s, x, d)
    requires s'.threads == Goto(s.threads, t, pc') && Contents(s', AnswerQ(x)) == Contents(s, AnswerQ(x))
    requires !s.threads[t].pc.RUnlock? && !pc'.RUnlock? && (Leaving(pc') ==> Leaving(s.threads[t].pc))
    requires Cargo(pc').Some? && t >= k ==> Cargo(pc') == Cargo(s.threads[t].pc)
    ensures CourseAt(s', x, d)
  {
    hide Inv;
    GotoAround(s, s', t, pc');
    if x != t {
      if s.threads[x].card.place == Served(t) {
        NotServing(k, s, x);
      }
      CourseKept(k, s, s', t, t, x, d);
    } else {
      if s.threads[x].card.place.Served? {
        NotServing(k, s, x);
      }
    }
  }

  lemma StoredCourse(k: nat, s: State, s': State, t: nat, q: Queue, m: Info, x: nat, d: Option<bool>)
    requires Inv(k, s) && x < k && x < |s.threads| && t < |s.threads| && CourseAt(s, x, d)
    requires s.threads[t].pc == STest(q, m) && q in s.items && (t < k || m.id < |s.threads|)
    requires |s'.threads| == |s.threads| && s' == Store(k, s, t, q, m)
    ensures CourseAt(s', x, d)
  {
    hide Inv, Broadcast;
    Mover(k, s, t);
    var y := if t < k then t else m.id;
    BroadcastAround(s, s', t, y, if t < k then Queued(q) else Answered, SCond(q, m), NotEmpty(q));
    if s.threads[x].card.place.Served? {
      NotServing(k, s, x);
    }
    if x != y {
      CourseKept(k, s, s', t, y, x, d);
    } else if t >= k {
      AnswerSpace(k, s, t, q, m);
    }
  }

  /** The answer queue that a server stores in is empty. */
  lemma AnswerSpace(k: nat, s: State, t: nat, q: Queue, m: Info)
    requires Inv(k, s) && k <= t < |s.threads| && s.threads[t].pc == STest(q, m) && q in s.items
    ensures q == AnswerQ(m.id) && s.items[q] == [] && m.id < k && m.id < |s.threads|
      && s.threads[m.id].card.place == Served(t)
  {
    hide Inv;
    Pieces(k, s);
    Mover(k, s, t);
    InQueue(k, s, q);
    EmptyFor(k, s.threads, m.id, s.items[q]);
  }

  lemma FetchedCourse(k: nat, s: State, s': State, t: nat, q: Queue, x: nat, d: Option<bool>)
    requires Inv(k, s) && x < k && x < |s.threads| && t < |s.threads| && CourseAt(s, x, d)
    requires s.threads[t].pc == RTest(q) && q in s.items && s.items[q] != []
      && (t < k || s.items[q][0].id < |s.threads|)
    requires |s'.threads| == |s.threads| && s' == Fetch(k, s, t, q)
    ensures CourseAt(s', x, d)
  {
    hide Inv, Broadcast, CourseAt, Around;
    FetchedPlace(k, s, t, q);
    OwnAnswers(k, s, t, q);
    var m := s.items[q][0];
    BroadcastAround(s, s', t, m.id, if t < k then Back else Served(t), RUnlock(q, m), NotFull(q));
    if x == m.id {
      if x != t { AroundAt(s, s', t, x, x); }
      FetchedOne(k, s, s', t, q, x, d);
    } else {
      CardKept(s, s', t, m.id, x);
      if s.threads[x].card.place.Served? {
        NotServing(k, s, x);
      }
      OtherAnswers(k, s, s', t, q, x);
      CourseKept(k, s, s', t, m.id, x, d);
    }
  }

  lemma OwnAnswers(k: nat, s: State, t: nat, q: Queue)
    requires Inv(k, s) && t < |s.threads| && s.threads[t].pc == RTest(q)
    ensures if t < k then q == AnswerQ(t) else q in TICKETS
  {
    hide Inv;
    Mover(k, s, t);
  }

  /** Only the student itself takes messages from its answer queue. */
  lemma OtherAnswers(k: nat, s: State, s': State, t: nat, q: Queue, x: nat)
    requires q in s.items && s.items[q] != [] && s'.items == s.items[q := s.items[q][1..]] && x != t
    requires if t < k then q == AnswerQ(t) else q in TICKETS
    ensures Contents(s', AnswerQ(x)) == Contents(s, AnswerQ(x))
  {}

  lemma FetchedOne(k: nat, s: State, s': State, t: nat, q: Queue, x: nat, d: Option<bool>)
    requires x < |s.threads| && t < |s.threads| == |s'.threads| && CourseAt(s, x, d)
    requires q in s.items && s.items[q] != [] && s'.threads[t].pc == RUnlock(q, s.items[q][0])
    requires s'.threads[x].card == s.threads[x].card.(place := if t < k then Back else Served(t))
    requires if t < k then x == t && q == AnswerQ(x) && s.threads[x].card.place == Answered
             else s.threads[x].card.place == Queued(q) && Leaving(s'.threads[x].pc) == Leaving(s.threads[x].pc)
    requires x == t <==> t < k
    ensures CourseAt(s', x, d)
  {}

  lemma CountedCourse(k: nat, s: State, s': State, t: nat, q: Queue, m: Info, x: nat, d: Option<bool>)
    requires Inv(k, s) && x < k && x < |s.threads| && t < |s.threads| && CourseAt(s, x, d)
    requires s.threads[t].pc == SCount(q, m) && (Counter(q, m).Some? ==> q in s.tickets)
    requires |s'.threads| == |s.threads| && s' == CountTicket(s, t, q, m)
    ensures CourseAt(s', x, d)
  {
    hide Inv, Broadcast;
    Mover(k, s, t);
    PutSame(s.threads, t);
    BroadcastAround(s, s', t, t, s.threads[t].card.place, SFree(q, m), Ticket);
    if s.threads[x].card.place.Served? {
      NotServing(k, s, x);
    }
    if x != t {
      CourseKept(k, s, s', t, t, x, d);
    }
  }

  lemma HandledCourse(k: nat, s: State, s': State, t: nat, q: Queue, m: Info, mark: bool, x: nat, d: Option<bool>)
    requires Inv(k, s) && RoutingInv(k, s) && x < k && x < |s.threads| && t < |s.threads| && CourseAt(s, x, d)
    requires s.threads[t].pc == RUnlock(q, m) && (t < k || m.id < |s.threads|)
    requires |s'.threads| == |s.threads| && s' == Handle(k, s, t, q, m, mark)
    ensures CourseAt(s', x, Decided(k, s, t, mark, x, d))
  {
    hide Inv, RoutingInv;
    Mover(k, s, t);
    Mover(k, s, x);
    if s.threads[x].card.place.Served? {
      NotServing(k, s, x);
    }
  }

  lemma ReleaseCourse(k: nat, s: State, t: nat, pc': Pc, lock: Mutex, x: nat, d: Option<bool>)
    requires Inv(k, s) && x < k && x < |s.threads| && t < |s.threads| && CourseAt(s, x, d)
    requires !s.threads[t].pc.RUnlock? && !pc'.RUnlock? && !Leaving(pc')
    requires Cargo(pc').Some? ==> Cargo(pc') == Cargo(s.threads[t].pc)
    ensures CourseAt(Release(s, t, pc', lock), x, d)
  {
    QuietCourse(k, s, Release(s, t, pc', lock), t, pc', x, d);
  }

  lemma NoAnswer(k: nat, s: State, t: nat, x: nat)
    requires t < |s.threads| && !s.threads[t].pc.RUnlock?
    ensures !AnswersFirst(k, s, t, x)
  {}

  lemma SendCourse(k: nat, s: State, s': State, t: nat, q: Queue, m: Info, x: nat, d: Option<bool>)
    requires Inv(k, s) && x < k && x < |s.threads| && t < |s.threads| && CourseAt(s, x, d)
    requires s.threads[t].pc == STest(q, m) && q in s.items && (t < k || m.id < |s.threads|)
    requires |s'.threads| == |s.threads|
    requires s' == if |s.items[q]| == Dim(k, q) then Release(s, t, SSleep(q, m), BufLock(q)) else Store(k, s, t, q, m)
    ensures CourseAt(s', x, d)
  {
    hide Inv, CourseAt, Release, Store;
    if |s.items[q]| == Dim(k, q) {
      ReleaseCourse(k, s, t, SSleep(q, m), BufLock(q), x, d);
    } else {
      StoredCourse(k, s, s', t, q, m, x, d);
    }
  }

  lemma ReceiveCourse(k: nat, s: State, s': State, t: nat, q: Queue, x: nat, d: Option<bool>)
    requires Inv(k, s) && x < k && x < |s.threads| && t < |s.threads| && CourseAt(s, x, d)
    requires s.threads[t].pc == RTest(q) && q in s.items
    requires s.items[q] == [] || t < k || s.items[q][0].id < |s.threads|
    requires |s'.threads| == |s.threads|
    requires s' == if s.items[q] == [] then Release(s, t, RSleep(q), BufLock(q)) else Fetch(k, s, t, q)
    ensures CourseAt(s', x, d)
  {
    hide Inv, CourseAt, Release, Fetch;
    if s.items[q] == [] {
      ReleaseCourse(k, s, t, RSleep(q), BufLock(q), x, d);
    } else {
      FetchedCourse(k, s, s', t, q, x, d);
    }
  }

  lemma NextCases(k: nat, s: State, t: nat, mark: bool)
    requires CanStep(k, s, t)
    ensures match s.threads[t].pc
      case STest(q, m) => q in s.items && (t < k || m.id < |s.threads|) && Next(k, s, t, mark) ==
        if |s.items[q]| == Dim(k, q) then Release(s, t, SSleep(q, m), BufLock(q)) else Store(k, s, t, q, m)
      case RTest(q) => q in s.items && (s.items[q] == [] || t < k || s.items[q][0].id < |s.threads|)
        && Next(k, s, t, mark) == if s.items[q] == [] then Release(s, t, RSleep(q), BufLock(q)) else Fetch(k, s, t, q)
      case SCount(q, m) => (Counter(q, m).Some? ==> q in s.tickets) && Next(k, s, t, mark) == CountTicket(s, t, q, m)
      case RUnlock(q, m) => (t < k || m.id < |s.threads|) && Next(k, s, t, mark) == Handle(k, s, t, q, m, mark)
      case Begin => Next(k, s, t, mark) == Create(k, s, t)
      case _ => true
  {
    hide Create, Store, CountTicket, Fetch, Handle, TakeTicket, SignOff, Terminate, Release, Acquire, Counter, Dim;
  }

  lemma StepCourse(k: nat, s: State, t: nat, mark: bool, x: nat, d: Option<bool>)
    requires Inv(k, s) && RoutingInv(k, s) && CanStep(k, s, t) && x < k && x < |s.threads| && CourseAt(s, x, d)
    ensures |Next(k, s, t, mark).threads| == |s.threads|
    ensures CourseAt(Next(k, s, t, mark), x, Decided(k, s, t, mark, x, d))
  {
    StepRouting(k, s, t, mark);
    NextCases(k, s, t, mark);
    assert t < |s.threads|;
    hide Inv, RoutingInv, CourseAt, AnswersFirst, Next, CanStep, Counter, Dim;
    hide Create, Store, CountTicket, Fetch, Handle, TakeTicket, SignOff, Terminate, Release, Acquire;
    if !s.threads[t].pc.RUnlock? {
      NoAnswer(k, s, t, x);
    }
    var s' := Next(k, s, t, mark);
    var pc := s.threads[t].pc;
    if pc.STest? {
      SendCourse(k, s, s', t, pc.q, pc.m, x, d);
    } else if pc.RTest? {
      ReceiveCourse(k, s, s', t, pc.q, x, d);
    } else if pc.SCount? {
      CountedCourse(k, s, s', t, pc.q, pc.m, x, d);
    } else if pc.RUnlock? {
      HandledCourse(k, s, s', t, pc.q, pc.m, mark, x, d);
    } else if pc.Begin? {
      BeginCourse(k, s, s', t, x, d);
    } else {
      QuietStepCourse(k, s, s', t, mark, x, d);
    }
  }

  lemma QuietStepCourse(k: nat, s: State, s': State, t: nat, mark: bool, x: nat, d: Option<bool>)
    requires Inv(k, s) && CanStep(k, s, t) && x < k && x < |s.threads| && CourseAt(s, x, d)
    requires var pc := s.threads[t].pc; !pc.STest? && !pc.RTest? && !pc.SCount? && !pc.RUnlock? && !pc.Begin?
    requires |s'.threads| == |s.threads| && s' == Next(k, s, t, mark)
    ensures CourseAt(s', x, d)
  {
    assert t < |s.threads|;
    hide Inv, Next, CanStep, CourseAt;
    var pc' := QuietMarks(k, s, t, mark);
    QuietCourse(k, s, s', t, pc', x, d);
  }

  lemma QuietMarks(k: nat, s: State, t: nat, mark: bool) returns (pc': Pc)
    requires Inv(k, s) && CanStep(k, s, t)
    requires var pc := s.threads[t].pc; !pc.STest? && !pc.RTest? && !pc.SCount? && !pc.RUnlock? && !pc.Begin?
    ensures Next(k, s, t, mark).threads == Goto(s.threads, t, pc') && Next(k, s, t, mark).items == s.items
    ensures !pc'.RUnlock? && (Leaving(pc') ==> Leaving(s.threads[t].pc))
      && (Cargo(pc').Some? ==> Cargo(pc') == Cargo(s.threads[t].pc))
  {
    hide Inv;
    pc' := QuietPc(k, s, t, mark);
    assert Next(k, s, t, mark).threads[t].pc == pc';
  }

  lemma BeginCourse(k: nat, s: State, s': State, t: nat, x: nat, d: Option<bool>)
    requires Inv(k, s) && x < k && x < |s.threads| && t < |s.threads| && CourseAt(s, x, d) && s.threads[t].pc == Begin
    requires |s'.threads| == |s.threads| && s' == Create(k, s, t)
    ensures CourseAt(s', x, d)
  {
    hide Inv;
    Mover(k, s, t);
    Mover(k, s, x);
    GotoAround(s, s', t, s'.threads[t].pc);
    if s.threads[x].card.place.Served? {
      NotServing(k, s, x);
    }
    if x != t {
      CourseKept(k, s, s', t, t, x, d);
    }
  }

  // ---------------------------------------------------------------- every run

  lemma InitialCourse(k: nat, x: nat)
    requires x < k
    ensures x < |Initial(k).threads| && CourseAt(Initial(k), x, None)
  {}

  lemma {:induction false} RunCourse(k: nat, s: State, schedule: seq<(nat, bool)>, x: nat, d: Option<bool>)
    returns (e: Option<bool>)
    requires Inv(k, s) && RoutingInv(k, s) && Feasible(k, s, schedule) && x < k && x < |s.threads| && CourseAt(s, x, d)
    ensures |Run(k, s, schedule).threads| == |s.threads| && CourseAt(Run(k, s, schedule), x, e)
    decreases |schedule|
  {
    hide Inv, RoutingInv, Next, CanStep, CourseAt;
    if schedule == [] {
      e := d;
    } else {
      var (t, mark) := schedule[0];
      StepInv(k, s, t, mark);
      StepRouting(k, s, t, mark);
      StepCourse(k, s, t, mark, x, d);
      e := RunCourse(k, Next(k, s, t, mark), schedule[1..], x, Decided(k, s, t, mark, x, d));
    }
  }

  /** What has been decided is not decided again. */
  lemma {:induction false} RunSettled(k: nat, s: State, schedule: seq<(nat, bool)>, x: nat, d: Option<bool>)
    requires Inv(k, s) && RoutingInv(k, s) && Feasible(k, s, schedule) && x < k && x < |s.threads| && CourseAt(s, x, d)
    requires s.threads[x].card.desk < OFFICES
    ensures |Run(k, s, schedule).threads| == |s.threads| && CourseAt(Run(k, s, schedule), x, d)
    decreases |schedule|
  {
    hide Inv, Next, CanStep, CourseAt, DeskAt, AnswersFirst;
    if schedule != [] {
      var (t, mark) := schedule[0];
      StepInv(k, s, t, mark);
      StepRouting(k, s, t, mark);
      StepDesk(k, s, t, mark, x);
      StepCourse(k, s, t, mark, x, d);
      RunSettled(k, Next(k, s, t, mark), schedule[1..], x, d);
    }
  }

  lemma CourseFrom(k: nat, schedule: seq<(nat, bool)>, i: nat, x: nat)
    requires k >= 1 && x < k && Feasible(k, Initial(k), schedule) && AnswersAt(k, Initial(k), schedule, i, x)
    ensures var e := Run(k, Initial(k), schedule);
      Inv(k, e) && x < |e.threads| && CourseAt(e, x, Some(schedule[i].1))
  {
    hide Inv, RoutingInv, Next, CanStep, Initial, AnswersFirst, CourseAt;
    var init := Initial(k);
    InitialInv(k);
    InitialRouting(k);
    InitialCourse(k, x);
    RunSplit(k, init, schedule, i);
    RunRouting(k, init, schedule[..i]);
    var s, rest := Run(k, init, schedule[..i]), schedule[i..];
    var (t, mark) := schedule[i];
    assert rest[0] == schedule[i];
    var d := RunCourse(k, init, schedule[..i], x, None);
    SettlesDesk(k, s, t, mark, x);
    StepCourse(k, s, t, mark, x, d);
    RunSettled(k, Next(k, s, t, mark), rest[1..], x, Some(mark));
    RunRouting(k, init, schedule);
  }

  /** Two messages for each round trip finished. */
  lemma LeavingHops(k: nat, s: State, x: nat)
    requires Inv(k, s) && x < k && x < |s.threads| && Leaving(s.threads[x].pc)
    ensures Hops(s.threads[x]) == 2 * s.threads[x].card.leg + 2 && s.threads[x].card.leg <= 2
    ensures s.threads[x].card.place == Back && !s.threads[x].pc.RUnlock?
  {
    hide Inv;
    Mover(k, s, x);
  }

  /**
   The mark that an office gives a student with the first answer, in step `i` of a run, decides the student's course:
   only a marked one goes on to the special office, and one that signs off has made three round trips if it was
   marked and one if it was not.
   */
  lemma MarkDecides(k: nat, schedule: seq<(nat, bool)>, i: nat, x: nat)
    requires k >= 1 && x < k && Feasible(k, Initial(k), schedule) && AnswersAt(k, Initial(k), schedule, i, x)
    ensures var e, mark := Run(k, Initial(k), schedule), schedule[i].1;
      && x < |e.threads|
      && (e.threads[x].card.leg >= 1 ==> mark)
      && (Leaving(e.threads[x].pc) ==>
            e.threads[x].card.leg == (if mark then 2 else 0) && Hops(e.threads[x]) == if mark then 6 else 2)
  {
    hide Inv, Feasible, Run, Initial, AnswersAt, Leaving, Hops;
    CourseFrom(k, schedule, i, x);
    var e := Run(k, Initial(k), schedule);
    if Leaving(e.threads[x].pc) {
      LeavingHops(k, e, x);
    }
  }

  /** Nobody signs off, or goes on, before a first answer. */
  lemma AnswerCame(k: nat, schedule: seq<(nat, bool)>, x: nat) returns (i: nat)
    requires k >= 1 && x < k && Feasible(k, Initial(k), schedule)
    requires var e := Run(k, Initial(k), schedule);
      x < |e.threads| && (Leaving(e.threads[x].pc) || e.threads[x].card.leg >= 1)
    ensures AnswersAt(k, Initial(k), schedule, i, x)
  {
    hide Inv, RoutingInv, Feasible, Run, Initial, AnswersAt, Leaving, Hops;
    InitialInv(k);
    InitialRouting(k);
    InitialCourse(k, x);
    InitialDesk(k, x);
    RunRouting(k, Initial(k), schedule);
    var e := Run(k, Initial(k), schedule);
    var d := RunCourse(k, Initial(k), schedule, x, None);
    if Leaving(e.threads[x].pc) {
      LeavingHops(k, e, x);
    }
    i := DeskWasSet(k, Initial(k), schedule, x);
  }

  // ---------------------------------------------------------------- all students

  ghost predicate WasMarked(k: nat, schedule: seq<(nat, bool)>, x: nat) {
    exists i: nat :: AnswersAt(k, Initial(k), schedule, i, x) && schedule[i].1
  }

  /** The students that were marked in this run. */
  ghost function SentOn(k: nat, schedule: seq<(nat, bool)>): set<nat> {
    set x: nat | x < k && WasMarked(k, schedule, x)
  }

  lemma {:induction false} SumOfTwoKinds<T>(a: seq<T>, f: T -> nat, marked: set<nat>)
    requires forall x :: x in marked ==> x < |a|
    requires forall x :: 0 <= x < |a| ==> f(a[x]) == if x in marked then 6 else 2
    ensures Sum(a, f) == 2 * |a| + 4 * |marked|
  {
    if a == [] {
      assert marked == {};
    } else {
      var n := |a| - 1;
      SumSplit(a, n, f);
      assert a[n..] == [a[n]];
      SumOfTwoKinds(a[..n], f, marked - {n});
    }
  }

  /**
   A run after which all students have left has sent two messages for each student and four more for each marked one.
   */
  lemma SendsOfCompleteRun(k: nat, schedule: seq<(nat, bool)>)
    requires k >= 1 && Feasible(k, Initial(k), schedule) && AllGone(k, Run(k, Initial(k), schedule))
    ensures Run(k, Initial(k), schedule).sends == 2 * k + 4 * |SentOn(k, schedule)|
  {
    hide Inv, Feasible, Run, Initial, AnswersAt, Hops;
    InitialInv(k);
    RunInv(k, Initial(k), schedule);
    var e := Run(k, Initial(k), schedule);
    Pieces(k, e);
    hide LockInv, LocalInv, QueueInv, PlaceInv, TicketInv, SleepInv;
    var marked := SentOn(k, schedule);
    forall x | 0 <= x < k ensures Hops(e.threads[..k][x]) == if x in marked then 6 else 2 {
      GoneHops(k, schedule, x);
    }
    SumOfTwoKinds(e.threads[..k], Hops, marked);
  }

  lemma GoneHops(k: nat, schedule: seq<(nat, bool)>, x: nat)
    requires k >= 1 && x < k && Feasible(k, Initial(k), schedule)
    requires var e := Run(k, Initial(k), schedule); x < |e.threads| && e.threads[x].pc.Gone?
    ensures Hops(Run(k, Initial(k), schedule).threads[x]) == if x in SentOn(k, schedule) then 6 else 2
  {
    hide Inv, Feasible, Run, Initial, AnswersAt, Hops;
    var i := AnswerCame(k, schedule, x);
    MarkDecides(k, schedule, i, x);
    forall j: nat | AnswersAt(k, Initial(k), schedule, j, x) ensures j == i {
      AnsweredOnce(k, schedule, i, j, x);
    }
  }
}

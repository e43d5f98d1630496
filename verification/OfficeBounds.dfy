/** Every run of the office system ends: a measure that each step of each thread makes smaller. */
module OfficeBounds {
  import opened Counting
  import opened Offices
  import opened OfficeInvariant
  import opened OfficeSteps
  import opened OfficeMessages
  import opened OfficeResults

  /** Stages of a student's request still ahead: four in each of three round trips. */
  function Stages(th: Thread): nat {
    var done := 4 * th.card.leg + match th.card.place
      case Home => 0
      case Queued(_) => 1
      case Served(_) => 2
      case Answered => 3
      case Back => 4;
    if done <= 12 then 12 - done else 0
  }

  function Uncounted(th: Thread): nat {
    One(th.pc.SCond? || th.pc.SCount?)
  }

  /** Steps a thread can take before a message moves or a counter changes; falling asleep is one. */
  function Weight(th: Thread): nat {
    match th.pc
    case Begin => 13
    case RUnlock(_, _) => 12
    case SLock(_, _) => 11
    case STest(_, _) => 10
    case SSleep(_, _) => 9
    case SFree(_, _) => 9
    case SUnlock(_, _) => 8
    case TLock => 7
    case TTest => 6
    case TSleep => 5
    case TUnlock(_) => 5
    case RLock(_) => 4
    case RTest(_) => 3
    case RSleep(_) => 2
    case SCond(_, _) => 2
    case SCount(_, _) => 1
    case NLock => 4
    case NDec => 3
    case NUnlock(_) => 2
    case Kill => 1
    case Gone => 0
  }

  /** What only events use up: a message moved, or a stored message counted. */
  ghost function Events(threads: seq<Thread>): nat {
    2 * Sum(threads, Stages) + Sum(threads, Uncounted)
  }

  ghost function Measure(threads: seq<Thread>): nat {
    (13 * |threads| + 1) * Events(threads) + Sum(threads, Weight)
  }

  lemma MeasureDrops(n: nat, e: nat, w: nat, e': nat, w': nat)
    requires (e' < e && w' <= 13 * n) || (e' == e && w' < w)
    ensures (13 * n + 1) * e' + w' < (13 * n + 1) * e + w
  {
    if e' < e {
      Scale(13 * n + 1, e' + 1, e);
      assert (13 * n + 1) * (e' + 1) == (13 * n + 1) * e' + (13 * n + 1);
    }
  }

  lemma Scale(c: nat, x: nat, y: nat)
    requires x <= y
    ensures c * x <= c * y
  {
    assert c * (y - x) >= 0;
  }

  lemma EventsChange(a: seq<Thread>, b: seq<Thread>, t: nat, x: nat)
    requires Frame(a, b, t, x) && x < |a|
    ensures Sum(b, Stages) + Stages(a[x]) == Sum(a, Stages) + Stages(b[x])
    ensures Sum(b, Uncounted) + Uncounted(a[t]) == Sum(a, Uncounted) + Uncounted(b[t])
    ensures Sum(b, Weight) <= 13 * |b|
  {
    SumChange(a, b, x, Stages);
    forall u | 0 <= u < |a| && u != t ensures Uncounted(a[u]) == Uncounted(b[u]) {
      assert Kept(a[u].pc, b[u].pc);
    }
    SumChange(a, b, t, Uncounted);
    SumBound(b, Weight, 13);
  }

  lemma EventDrops(a: seq<Thread>, b: seq<Thread>, t: nat, x: nat)
    requires Frame(a, b, t, x) && x < |a|
    requires 2 * Stages(b[x]) + Uncounted(b[t]) < 2 * Stages(a[x]) + Uncounted(a[t])
    ensures Measure(b) < Measure(a)
  {
    hide Stages, Uncounted, Weight;
    EventsChange(a, b, t, x);
    MeasureDrops(|a|, Events(a), Sum(a, Weight), Events(b), Sum(b, Weight));
  }

  /** Nobody is woken and no request moves. */
  lemma QuietDrops(a: seq<Thread>, b: seq<Thread>, t: nat)
    requires |b| == |a| && t < |a| && (forall u :: 0 <= u < |a| && u != t ==> b[u].pc == a[u].pc)
    requires forall u :: 0 <= u < |a| ==> Stages(b[u]) == Stages(a[u])
    requires Uncounted(b[t]) == Uncounted(a[t]) && Weight(b[t]) < Weight(a[t])
    ensures Measure(b) < Measure(a)
  {
    SumSame(a, b, Stages);
    SumChange(a, b, t, Uncounted);
    SumChange(a, b, t, Weight);
    MeasureDrops(|a|, Events(a), Sum(a, Weight), Events(b), Sum(b, Weight));
  }

  lemma GotoDrops(a: seq<Thread>, t: nat, pc': Pc)
    requires t < |a| && Uncounted(a[t].(pc := pc')) == Uncounted(a[t]) && Weight(a[t].(pc := pc')) < Weight(a[t])
    ensures Measure(Goto(a, t, pc')) < Measure(a)
  {
    hide Measure;
    QuietDrops(a, Goto(a, t, pc'), t);
  }

  lemma StoreDrops(k: nat, s: State, t: nat, q: Queue, m: Info)
    requires Inv(k, s) && t < |s.threads| && s.threads[t].pc == STest(q, m) && q in s.items
      && (t < k || m.id < |s.threads|)
    ensures Measure(Store(k, s, t, q, m).threads) < Measure(s.threads)
  {
    hide Inv, Measure;
    Mover(k, s, t);
    var x := if t < k then t else m.id;
    Mover(k, s, x);
    GotoBroadcast(s.threads, t, x, if t < k then Queued(q) else Answered, SCond(q, m), NotEmpty(q));
    EventDrops(s.threads, Store(k, s, t, q, m).threads, t, x);
  }

  lemma FetchedPlace(k: nat, s: State, t: nat, q: Queue)
    requires Inv(k, s) && t < |s.threads| && s.threads[t].pc == RTest(q) && q in s.items && s.items[q] != []
    ensures var x := s.items[q][0].id;
      x < k && x < |s.threads| && s.threads[x].card.leg <= 2
      && if t < k then x == t && s.threads[x].card.place == Answered else s.threads[x].card.place == Queued(q)
  {
    hide Inv, LockInv, LocalInv, QueueInv, PlaceInv, TicketInv, SleepInv, CountInv, QueueOk;
    Pieces(k, s);
    Mover(k, s, t);
    InQueue(k, s, q);
    QueueHead(k, s.threads, q, s.items[q]);
    Mover(k, s, s.items[q][0].id);
  }

  lemma FetchDrops(k: nat, s: State, t: nat, q: Queue)
    requires Inv(k, s) && t < |s.threads| && s.threads[t].pc == RTest(q) && q in s.items && s.items[q] != []
    requires t < k || s.items[q][0].id < |s.threads|
    ensures Measure(Fetch(k, s, t, q).threads) < Measure(s.threads)
  {
    hide Inv, Measure;
    FetchedPlace(k, s, t, q);
    var m := s.items[q][0];
    var x := m.id;
    GotoBroadcast(s.threads, t, x, if t < k then Back else Served(t), RUnlock(q, m), NotFull(q));
    EventDrops(s.threads, Fetch(k, s, t, q).threads, t, x);
  }

  lemma CountDrops(s: State, t: nat, q: Queue, m: Info)
    requires t < |s.threads| && s.threads[t].pc == SCount(q, m) && (Counter(q, m).Some? ==> q in s.tickets)
    ensures Measure(CountTicket(s, t, q, m).threads) < Measure(s.threads)
  {
    hide Measure;
    PutSame(s.threads, t);
    GotoBroadcast(s.threads, t, t, s.threads[t].card.place, SFree(q, m), Ticket);
    EventDrops(s.threads, CountTicket(s, t, q, m).threads, t, t);
  }

  lemma HandleDrops(k: nat, s: State, t: nat, q: Queue, m: Info, mark: bool)
    requires Inv(k, s) && t < |s.threads| && s.threads[t].pc == RUnlock(q, m) && (t < k || m.id < |s.threads|)
    ensures Measure(Handle(k, s, t, q, m, mark).threads) < Measure(s.threads)
  {
    hide Inv, Measure;
    Mover(k, s, t);
    QuietDrops(s.threads, Handle(k, s, t, q, m, mark).threads, t);
  }

  lemma QuietStepDrops(k: nat, s: State, t: nat, mark: bool)
    requires CanStep(k, s, t)
    requires var pc := s.threads[t].pc; !pc.STest? && !pc.RTest? && !pc.SCount? && !pc.RUnlock?
    ensures Measure(Next(k, s, t, mark).threads) < Measure(s.threads)
  {
    hide Measure, Goto, Weight, Uncounted;
    var pc' := QuietPc(k, s, t, mark);
    GotoDrops(s.threads, t, pc');
  }

  lemma QuietPc(k: nat, s: State, t: nat, mark: bool) returns (pc': Pc)
    requires CanStep(k, s, t)
    requires var pc := s.threads[t].pc; !pc.STest? && !pc.RTest? && !pc.SCount? && !pc.RUnlock?
    ensures Next(k, s, t, mark).threads == Goto(s.threads, t, pc') && !pc'.RUnlock?
    ensures s.threads[t].pc.SLock? ==> pc' == STest(s.threads[t].pc.q, s.threads[t].pc.m)
    ensures Uncounted(s.threads[t].(pc := pc')) == Uncounted(s.threads[t])
    ensures Weight(s.threads[t].(pc := pc')) < Weight(s.threads[t])
  {
    hide Goto;
    var pc := s.threads[t].pc;
    if Wants(pc).Some? {
      pc' := Granted(pc);
    } else {
      match pc
      case Begin => pc' := if t < k then SLock(NormalQ, Info(t, OFFICES, false)) else TLock;
      case SFree(q, m) => pc' := SUnlock(q, m);
      case SUnlock(q, m) => pc' := if t < k then RLock(AnswerQ(m.id)) else TLock;
      case TTest => pc' := if Choice(k, s, t).None? then TSleep else TUnlock(Choice(k, s, t).value);
      case TUnlock(q) => pc' := RLock(q);
      case NDec => pc' := NUnlock(s.num - 1 == 0);
      case NUnlock(last) => pc' := if last then Kill else Gone;
      case Kill => pc' := Gone;
    }
  }

  lemma StepDrops(k: nat, s: State, t: nat, mark: bool)
    requires Inv(k, s) && CanStep(k, s, t)
    ensures |Next(k, s, t, mark).threads| == |s.threads|
    ensures Measure(Next(k, s, t, mark).threads) < Measure(s.threads)
  {
    hide Inv, Measure;
    match s.threads[t].pc
    case STest(q, m) =>
      if |s.items[q]| == Dim(k, q) { GotoDrops(s.threads, t, SSleep(q, m)); } else { StoreDrops(k, s, t, q, m); }
    case RTest(q) =>
      if s.items[q] == [] { GotoDrops(s.threads, t, RSleep(q)); } else { FetchDrops(k, s, t, q); }
    case SCount(q, m) => CountDrops(s, t, q, m);
    case RUnlock(q, m) => HandleDrops(k, s, t, q, m, mark);
    case _ => QuietStepDrops(k, s, t, mark);
  }

  lemma {:induction false} RunDrops(k: nat, s: State, schedule: seq<(nat, bool)>)
    requires Inv(k, s) && Feasible(k, s, schedule)
    ensures |schedule| + Measure(Run(k, s, schedule).threads) <= Measure(s.threads)
    decreases |schedule|
  {
    hide Inv, Next, Measure, CanStep;
    if schedule != [] {
      var s' := Next(k, s, schedule[0].0, schedule[0].1);
      StepDrops(k, s, schedule[0].0, schedule[0].1);
      StepInv(k, s, schedule[0].0, schedule[0].1);
      RunDrops(k, s', schedule[1..]);
    }
  }

  lemma StartsLow(k: nat, t: nat)
    requires t < k + OFFICES + 1
    ensures var a := Initial(k).threads;
      |a| == k + OFFICES + 1 && Stages(a[t]) <= (if t < k then 12 else 0) && Uncounted(a[t]) == 0 && Weight(a[t]) <= 13
  {}

  lemma InitialSums(k: nat, a: seq<Thread>)
    requires a == Initial(k).threads && |a| == k + OFFICES + 1
    ensures Sum(a, Stages) <= 12 * k && Sum(a, Uncounted) == 0 && Sum(a, Weight) <= 13 * (k + 5)
  {
    hide Initial, Stages, Uncounted, Weight, Sum;
    forall t | 0 <= t < |a| ensures Stages(a[t]) <= (if t < k then 12 else 0) && Uncounted(a[t]) == 0
        && Weight(a[t]) <= 13 {
      StartsLow(k, t);
    }
    SumSplit(a, k, Stages);
    SumBound(a[..k], Stages, 12);
    SumBound(a[k..], Stages, 0);
    SumBound(a, Uncounted, 0);
    SumBound(a, Weight, 13);
  }

  lemma InitialMeasure(k: nat)
    ensures Measure(Initial(k).threads) <= (13 * (k + 5) + 1) * (24 * k) + 13 * (k + 5)
  {
    hide Initial, Sum;
    var a := Initial(k).threads;
    StartsLow(k, k);
    InitialSums(k, a);
    Scale(13 * (k + 5) + 1, Events(a), 24 * k);
  }

  /** No interleaving goes on for ever: a run of `k` students takes at most so many steps. */
  lemma RunLength(k: nat, schedule: seq<(nat, bool)>)
    requires k >= 1 && Feasible(k, Initial(k), schedule)
    ensures |schedule| <= (13 * (k + 5) + 1) * (24 * k) + 13 * (k + 5)
  {
    hide Initial, Feasible, Run, Measure, Inv;
    InitialInv(k);
    RunDrops(k, Initial(k), schedule);
    InitialMeasure(k);
  }
}

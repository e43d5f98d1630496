/**
 Which office a student belongs to: it is settled once, by the office that answers the first request, and the urgent
 request comes back to that office.
 */
module OfficeRouting {
  import opened Offices
  import opened OfficeInvariant
  import opened OfficeSteps
  import opened OfficeMessages
  import opened OfficeResults
  import opened OfficeBounds

  /**
   Student `x` has no office before the first answer, and afterwards is served by that office, by the special one in
   the second round trip, and by its office again in the third.
   */
  ghost predicate DeskAt(k: nat, threads: seq<Thread>, x: nat)
    requires x < |threads|
  {
    var c := threads[x].card;
    match c.place
    case Home => c.leg == 0 ==> c.desk == OFFICES
    case Queued(_) => c.leg == 0 ==> c.desk == OFFICES
    case Served(u) =>
      if c.leg == 0 then (if u < |threads| && threads[u].pc.RUnlock? then c.desk == OFFICES else u == k + c.desk)
      else if c.leg == 1 then u == k + OFFICES
      else u == k + c.desk
    case _ => true
  }

  ghost predicate RoutingInv(k: nat, s: State) {
    k <= |s.threads| && forall x :: 0 <= x < k ==> DeskAt(k, s.threads, x)
  }

  /** Server `t` has student `x`'s first request in its hands, and is about to answer it. */
  ghost predicate AnswersFirst(k: nat, s: State, t: nat, x: nat) {
    k <= t < |s.threads| && s.threads[t].pc.RUnlock? && s.threads[t].pc.q == NormalQ && s.threads[t].pc.m.id == x
  }

  /** What a step may do to the card of student `x`. */
  ghost predicate DeskStep(k: nat, s: State, b: seq<Thread>, t: nat, x: nat)
    requires x < |s.threads|
  {
    && |b| == |s.threads| && DeskAt(k, b, x)
    && (b[x].card.desk != s.threads[x].card.desk ==> AnswersFirst(k, s, t, x))
    && (AnswersFirst(k, s, t, x) ==> s.threads[x].card.desk == OFFICES && b[x].card.desk == t - k < OFFICES)
  }

  // ---------------------------------------------------------------- one step

  /** A server that is not busy with `x` is not where the card of `x` says. */
  lemma NotServing(k: nat, s: State, x: nat)
    requires Inv(k, s) && x < k && x < |s.threads| && s.threads[x].card.place.Served?
    ensures var u := s.threads[x].card.place.server; k <= u < |s.threads| && Busy(s.threads[u].pc, x)
  {
    hide Inv;
    Pieces(k, s);
    assert Placed(k, s, x);
  }

  /** The card of `x` stays, and no server starts or ends reading a message. */
  lemma DeskKept(k: nat, s: State, b: seq<Thread>, t: nat, x: nat)
    requires x < |s.threads| && DeskAt(k, s.threads, x) && |b| == |s.threads| && b[x].card == s.threads[x].card
    requires forall u :: 0 <= u < |b| ==> b[u].pc.RUnlock? == s.threads[u].pc.RUnlock?
    requires t < |s.threads| && !s.threads[t].pc.RUnlock?
    ensures DeskStep(k, s, b, t, x)
  {}

  lemma BroadcastDesk(k: nat, s: State, b: seq<Thread>, t: nat, y: nat, place: Place, pc': Pc, c: Signal)
    requires t < |s.threads| && y < |s.threads| && Awake(pc') == pc'
    requires b == Broadcast(Goto(Put(s.threads, y, place), t, pc'), c)
    ensures |b| == |s.threads| && b[t].pc == pc' && b[y].card == s.threads[y].card.(place := place)
    ensures forall u :: 0 <= u < |b| && u != y ==> b[u].card == s.threads[u].card
    ensures forall u :: 0 <= u < |b| && u != t ==> b[u].pc.RUnlock? == s.threads[u].pc.RUnlock?
  {}

  lemma StoredDesk(k: nat, s: State, t: nat, q: Queue, m: Info, x: nat)
    requires Inv(k, s) && t < |s.threads| && x < k && x < |s.threads| && DeskAt(k, s.threads, x)
    requires s.threads[t].pc == STest(q, m) && q in s.items && (t < k || m.id < |s.threads|)
    ensures DeskStep(k, s, Store(k, s, t, q, m).threads, t, x)
  {
    hide Inv, Broadcast;
    Mover(k, s, t);
    var y, b := if t < k then t else m.id, Store(k, s, t, q, m).threads;
    BroadcastDesk(k, s, b, t, y, if t < k then Queued(q) else Answered, SCond(q, m), NotEmpty(q));
    if x != y {
      DeskKept(k, s, b, t, x);
    }
  }

  lemma FetchedDesk(k: nat, s: State, t: nat, q: Queue, x: nat)
    requires Inv(k, s) && t < |s.threads| && x < k && x < |s.threads| && DeskAt(k, s.threads, x)
    requires s.threads[t].pc == RTest(q) && q in s.items && s.items[q] != []
      && (t < k || s.items[q][0].id < |s.threads|)
    ensures DeskStep(k, s, Fetch(k, s, t, q).threads, t, x)
  {
    hide Inv, Broadcast;
    Mover(k, s, t);
    HeadBelongs(k, s, q);
    var m := s.items[q][0];
    var y, b := if t < k then t else m.id, Fetch(k, s, t, q).threads;
    BroadcastDesk(k, s, b, t, y, if t < k then Back else Served(t), RUnlock(q, m), NotFull(q));
    if x != y && s.threads[x].card.place.Served? {
      NotServing(k, s, x);
    }
  }

  lemma CountedDesk(k: nat, s: State, t: nat, q: Queue, m: Info, x: nat)
    requires t < |s.threads| && x < |s.threads| && DeskAt(k, s.threads, x)
    requires s.threads[t].pc == SCount(q, m) && (Counter(q, m).Some? ==> q in s.tickets)
    ensures DeskStep(k, s, CountTicket(s, t, q, m).threads, t, x)
  {
    hide Broadcast;
    var b := CountTicket(s, t, q, m).threads;
    PutSame(s.threads, t);
    BroadcastDesk(k, s, b, t, t, s.threads[t].card.place, SFree(q, m), Ticket);
    DeskKept(k, s, b, t, x);
  }

  lemma HandledDesk(k: nat, s: State, t: nat, q: Queue, m: Info, mark: bool, x: nat)
    requires Inv(k, s) && t < |s.threads| && x < k && x < |s.threads| && DeskAt(k, s.threads, x)
    requires s.threads[t].pc == RUnlock(q, m) && (t < k || m.id < |s.threads|)
    ensures DeskStep(k, s, Handle(k, s, t, q, m, mark).threads, t, x)
  {
    hide Inv;
    Mover(k, s, t);
    if s.threads[x].card.place.Served? {
      NotServing(k, s, x);
    }
  }

  lemma GotoDesk(k: nat, s: State, t: nat, pc': Pc, x: nat)
    requires t < |s.threads| && x < |s.threads| && DeskAt(k, s.threads, x) && !s.threads[t].pc.RUnlock? && !pc'.RUnlock?
    ensures DeskStep(k, s, Goto(s.threads, t, pc'), t, x)
  {
    DeskKept(k, s, Goto(s.threads, t, pc'), t, x);
  }

  /** Only the answer to the first request changes a student's office: from none to the one that answers. */
  lemma StepDesk(k: nat, s: State, t: nat, mark: bool, x: nat)
    requires Inv(k, s) && CanStep(k, s, t) && x < k && x < |s.threads| && DeskAt(k, s.threads, x)
    ensures DeskStep(k, s, Next(k, s, t, mark).threads, t, x)
  {
    hide Inv, DeskAt, DeskStep, Counter;
    match s.threads[t].pc
    case STest(q, m) =>
      if |s.items[q]| == Dim(k, q) { GotoDesk(k, s, t, SSleep(q, m), x); } else { StoredDesk(k, s, t, q, m, x); }
    case RTest(q) =>
      if s.items[q] == [] { GotoDesk(k, s, t, RSleep(q), x); } else { FetchedDesk(k, s, t, q, x); }
    case SCount(q, m) => CountedDesk(k, s, t, q, m, x);
    case RUnlock(q, m) => HandledDesk(k, s, t, q, m, mark, x);
    case _ =>
      var pc' := QuietPc(k, s, t, mark);
      GotoDesk(k, s, t, pc', x);
  }

  // ---------------------------------------------------------------- every run

  lemma StepRouting(k: nat, s: State, t: nat, mark: bool)
    requires Inv(k, s) && RoutingInv(k, s) && CanStep(k, s, t)
    ensures RoutingInv(k, Next(k, s, t, mark))
    ensures |Next(k, s, t, mark).threads| == |s.threads|
  {
    hide Inv, Next, DeskAt;
    var b := Next(k, s, t, mark).threads;
    Mover(k, s, t);
    StepDrops(k, s, t, mark);
    forall x | 0 <= x < k ensures DeskAt(k, b, x) {
      StepDesk(k, s, t, mark, x);
    }
  }

  lemma {:induction false} RunRouting(k: nat, s: State, schedule: seq<(nat, bool)>)
    requires Inv(k, s) && RoutingInv(k, s) && Feasible(k, s, schedule)
    ensures RoutingInv(k, Run(k, s, schedule)) && Inv(k, Run(k, s, schedule))
    ensures |Run(k, s, schedule).threads| == |s.threads|
    decreases |schedule|
  {
    hide Inv, Next, CanStep, RoutingInv;
    if schedule != [] {
      StepInv(k, s, schedule[0].0, schedule[0].1);
      StepRouting(k, s, schedule[0].0, schedule[0].1);
      RunRouting(k, Next(k, s, schedule[0].0, schedule[0].1), schedule[1..]);
    }
  }

  lemma InitialRouting(k: nat)
    ensures RoutingInv(k, Initial(k))
  {}

  /** From the first answer on, no step of any run changes which office a student belongs to. */
  lemma {:induction false} DeskStable(k: nat, s: State, schedule: seq<(nat, bool)>, x: nat)
    requires Inv(k, s) && RoutingInv(k, s) && Feasible(k, s, schedule)
    requires x < k && x < |s.threads| && s.threads[x].card.desk < OFFICES
    ensures |Run(k, s, schedule).threads| == |s.threads|
    ensures Run(k, s, schedule).threads[x].card.desk == s.threads[x].card.desk
    decreases |schedule|
  {
    hide Inv, Next, CanStep, DeskAt;
    if schedule != [] {
      var (t, mark) := schedule[0];
      StepInv(k, s, t, mark);
      StepRouting(k, s, t, mark);
      StepDesk(k, s, t, mark, x);
      DeskStable(k, Next(k, s, t, mark), schedule[1..], x);
    }
  }

  /** In its third round trip a student is served by its own office. */
  lemma ThirdTrip(k: nat, s: State, x: nat, u: nat)
    requires Inv(k, s) && RoutingInv(k, s) && x < k && x < |s.threads|
    requires s.threads[x].card.leg == 2 && s.threads[x].card.place == Served(u)
    ensures u == k + s.threads[x].card.desk && s.threads[x].card.desk < OFFICES
  {
    NotServing(k, s, x);
    hide Inv;
    Mover(k, s, u);
    assert DeskAt(k, s.threads, x);
  }

  /**
   If, in any run, server `t` answers the first request of student `x`, then whoever serves that student's urgent
   request at any later time, in whatever state of serving it, is `t`.
   */
  lemma SameOffice(k: nat, before: seq<(nat, bool)>, t: nat, mark: bool, after: seq<(nat, bool)>, x: nat, u: nat)
    requires k >= 1 && x < k && Feasible(k, Initial(k), before)
    requires var s := Run(k, Initial(k), before);
      AnswersFirst(k, s, t, x) && CanStep(k, s, t) && Feasible(k, Next(k, s, t, mark), after)
    requires var e := Run(k, Next(k, Run(k, Initial(k), before), t, mark), after);
      x < |e.threads| && e.threads[x].card.leg == 2 && e.threads[x].card.place == Served(u)
    ensures u == t
  {
    hide Inv, RoutingInv, Next, CanStep, Feasible, Run, Initial, AnswersFirst;
    InitialInv(k);
    InitialRouting(k);
    RunRouting(k, Initial(k), before);
    var s := Run(k, Initial(k), before);
    SettlesDesk(k, s, t, mark, x);
    var s' := Next(k, s, t, mark);
    RunRouting(k, s', after);
    DeskStable(k, s', after, x);
    ThirdTrip(k, Run(k, s', after), x, u);
  }

  lemma SettlesDesk(k: nat, s: State, t: nat, mark: bool, x: nat)
    requires Inv(k, s) && RoutingInv(k, s) && CanStep(k, s, t) && AnswersFirst(k, s, t, x) && x < k
    ensures |s.threads| == |Next(k, s, t, mark).threads| && x < |s.threads|
    ensures s.threads[x].card.desk == OFFICES && Next(k, s, t, mark).threads[x].card.desk == t - k < OFFICES
    ensures Inv(k, Next(k, s, t, mark)) && RoutingInv(k, Next(k, s, t, mark))
  {
    hide Inv, Next, DeskAt, CanStep;
    StepInv(k, s, t, mark);
    StepRouting(k, s, t, mark);
    StepDesk(k, s, t, mark, x);
  }

  // ---------------------------------------------------------------- the first service did happen

  lemma {:induction false} RunSplit(k: nat, s: State, schedule: seq<(nat, bool)>, i: nat)
    requires Feasible(k, s, schedule) && i <= |schedule|
    ensures Feasible(k, s, schedule[..i]) && Feasible(k, Run(k, s, schedule[..i]), schedule[i..])
    ensures Run(k, Run(k, s, schedule[..i]), schedule[i..]) == Run(k, s, schedule)
    decreases |schedule|
  {
    hide Next, CanStep;
    if i == 0 {
      assert schedule[..0] == [] && schedule[0..] == schedule;
    } else {
      var s' := Next(k, s, schedule[0].0, schedule[0].1);
      RunSplit(k, s', schedule[1..], i - 1);
      assert schedule[..i][1..] == schedule[1..][..i - 1] && schedule[1..][i - 1..] == schedule[i..];
    }
  }

  /** Step `i` of the run answers the first request of `x`. */
  ghost predicate AnswersAt(k: nat, s: State, schedule: seq<(nat, bool)>, i: nat, x: nat) {
    i < |schedule| && Feasible(k, s, schedule[..i]) && AnswersFirst(k, Run(k, s, schedule[..i]), schedule[i].0, x)
  }

  /** A student that has got an office got it in some step of the run. */
  lemma {:induction false} DeskWasSet(k: nat, s: State, schedule: seq<(nat, bool)>, x: nat) returns (i: nat)
    requires Inv(k, s) && RoutingInv(k, s) && Feasible(k, s, schedule) && x < k && x < |s.threads|
    requires x < |Run(k, s, schedule).threads|
    requires s.threads[x].card.desk >= OFFICES > Run(k, s, schedule).threads[x].card.desk
    ensures AnswersAt(k, s, schedule, i, x) && schedule[i].0 == k + Run(k, s, schedule).threads[x].card.desk
    decreases |schedule|
  {
    hide Inv, RoutingInv, Next, CanStep, AnswersFirst, DeskAt;
    var (t, mark) := schedule[0];
    var s' := Next(k, s, t, mark);
    StepInv(k, s, t, mark);
    StepRouting(k, s, t, mark);
    ChangedDesk(k, s, t, mark, x);
    if s'.threads[x].card.desk < OFFICES {
      i := 0;
      DeskStable(k, s', schedule[1..], x);
      assert schedule[..0] == [];
    } else {
      i := DeskWasSet(k, s', schedule[1..], x);
      assert schedule[..i + 1][1..] == schedule[1..][..i];
      i := i + 1;
    }
  }

  lemma ChangedDesk(k: nat, s: State, t: nat, mark: bool, x: nat)
    requires Inv(k, s) && RoutingInv(k, s) && CanStep(k, s, t) && x < k && x < |s.threads|
    ensures x < |Next(k, s, t, mark).threads|
    ensures Next(k, s, t, mark).threads[x].card.desk != s.threads[x].card.desk ==>
      AnswersFirst(k, s, t, x) && Next(k, s, t, mark).threads[x].card.desk == t - k
  {
    hide Inv, Next, DeskAt, CanStep;
    StepDesk(k, s, t, mark, x);
  }

  lemma InitialDesk(k: nat, x: nat)
    requires x < k
    ensures x < |Initial(k).threads| && Initial(k).threads[x].card.desk == OFFICES
  {}

  /** No run answers the first request of a student twice. */
  lemma AnsweredOnce(k: nat, schedule: seq<(nat, bool)>, i: nat, j: nat, x: nat)
    requires k >= 1 && x < k && Feasible(k, Initial(k), schedule)
    requires AnswersAt(k, Initial(k), schedule, i, x) && AnswersAt(k, Initial(k), schedule, j, x)
    ensures i == j
  {
    assert i < |schedule| && j < |schedule|;
    hide AnswersAt, Feasible, Initial;
    if i < j {
      DeskAfter(k, schedule, i, j, x);
      DeskBefore(k, schedule, j, x);
    } else if j < i {
      DeskAfter(k, schedule, j, i, x);
      DeskBefore(k, schedule, i, x);
    }
  }

  lemma DeskBefore(k: nat, schedule: seq<(nat, bool)>, j: nat, x: nat)
    requires k >= 1 && x < k && Feasible(k, Initial(k), schedule) && AnswersAt(k, Initial(k), schedule, j, x)
    ensures var s := Run(k, Initial(k), schedule[..j]); x < |s.threads| && s.threads[x].card.desk == OFFICES
  {
    hide Inv, RoutingInv, Next, CanStep, Initial, AnswersFirst;
    InitialInv(k);
    InitialRouting(k);
    RunSplit(k, Initial(k), schedule, j);
    RunRouting(k, Initial(k), schedule[..j]);
    SettlesDesk(k, Run(k, Initial(k), schedule[..j]), schedule[j].0, schedule[j].1, x);
  }

  lemma DeskAfter(k: nat, schedule: seq<(nat, bool)>, i: nat, j: nat, x: nat)
    requires k >= 1 && x < k && Feasible(k, Initial(k), schedule) && AnswersAt(k, Initial(k), schedule, i, x)
    requires i < j <= |schedule|
    ensures Feasible(k, Initial(k), schedule[..j])
    ensures var s := Run(k, Initial(k), schedule[..j]); x < |s.threads| && s.threads[x].card.desk < OFFICES
  {
    hide Inv, RoutingInv, Next, CanStep, Initial, AnswersFirst;
    InitialInv(k);
    InitialRouting(k);
    RunSplit(k, Initial(k), schedule, j);
    RunSplit(k, Initial(k), schedule[..j], i);
    assert schedule[..j][..i] == schedule[..i] && schedule[..j][i..][0] == schedule[i];
    var s, rest := Run(k, Initial(k), schedule[..i]), schedule[..j][i..];
    RunRouting(k, Initial(k), schedule[..i]);
    SettlesDesk(k, s, schedule[i].0, schedule[i].1, x);
    DeskStable(k, Next(k, s, schedule[i].0, schedule[i].1), rest[1..], x);
  }

  /**
   Whoever serves a student's urgent request, in any state of any run, is the one server that answered that student's
   first request, in exactly one step of the run.
   */
  lemma UrgentGoesBack(k: nat, schedule: seq<(nat, bool)>, x: nat, u: nat) returns (i: nat)
    requires k >= 1 && x < k && Feasible(k, Initial(k), schedule)
    requires var e := Run(k, Initial(k), schedule);
      x < |e.threads| && e.threads[x].card.leg == 2 && e.threads[x].card.place == Served(u)
    ensures AnswersAt(k, Initial(k), schedule, i, x) && schedule[i].0 == u
    ensures forall j: nat :: AnswersAt(k, Initial(k), schedule, j, x) ==> j == i
  {
    hide Inv, RoutingInv, Feasible, Run, Initial, AnswersAt;
    InitialInv(k);
    InitialRouting(k);
    InitialDesk(k, x);
    RunRouting(k, Initial(k), schedule);
    ThirdTrip(k, Run(k, Initial(k), schedule), x, u);
    i := DeskWasSet(k, Initial(k), schedule, x);
    forall j: nat | AnswersAt(k, Initial(k), schedule, j, x) ensures j == i {
      AnsweredOnce(k, schedule, i, j, x);
    }
  }
}

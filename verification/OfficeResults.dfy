/** What the office system promises, for every number of students and every interleaving. */
module OfficeResults {
  import opened Counting
  import opened Offices
  import opened OfficeInvariant
  import opened OfficeSteps
  import opened OfficeMessages

  // ---------------------------------------------------------------- queues and routing

  /** The invariant piece by piece, for the lemmas that need only some of it. */
  lemma Pieces(k: nat, s: State)
    requires Inv(k, s)
    ensures Shape(k, s) && LockInv(s) && LocalInv(k, s.threads) && QueueInv(k, s) && PlaceInv(k, s)
    ensures TicketInv(s) && SleepInv(k, s) && CountInv(k, s)
  {}

  /** A student whose request is not in `q` always finds space for it in a queue for `k` messages. */
  lemma RoomFor(k: nat, threads: seq<Thread>, q: Queue, ms: seq<Info>, x: nat)
    requires x < k <= |threads| && QueueOk(k, threads, q, ms) && threads[x].card.place != Queued(q) && !q.AnswerQ?
    ensures |ms| < k
  {
    var ids := seq(|ms| + 1, (i: nat) requires i <= |ms| => if i < |ms| then ms[i].id else x);
    forall i | 0 <= i < |ms| ensures ms[i].id < k && ms[i].id != x {
      assert Belongs(k, threads, q, ms[i]);
    }
    Pigeonhole(ids, k);
  }

  lemma EmptyFor(k: nat, threads: seq<Thread>, x: nat, ms: seq<Info>)
    requires x < k <= |threads| && QueueOk(k, threads, AnswerQ(x), ms) && threads[x].card.place != Answered
    ensures ms == []
  {
    assert ms != [] ==> Belongs(k, threads, AnswerQ(x), ms[0]);
  }

  /** Normal, special and answer queues never make a sender wait; only an urgent queue can. */
  lemma NeverFull(k: nat, s: State, t: nat, q: Queue, m: Info)
    requires Inv(k, s) && t < |s.threads| && (s.threads[t].pc == STest(q, m) || s.threads[t].pc == SSleep(q, m))
      && !q.UrgentQ?
    ensures q in s.items ==> |s.items[q]| < Dim(k, q)
    ensures q in s.items ==> s.threads[t].pc == STest(q, m)
  {
    hide Inv;
    Pieces(k, s);
    Mover(k, s, t);
    if q in s.items {
      InQueue(k, s, q);
      if t < k {
        RoomFor(k, s.threads, q, s.items[q], t);
      } else {
        EmptyFor(k, s.threads, m.id, s.items[q]);
      }
      assert Sleeper(k, s, t);
    }
  }

  /** No two queue slots hold requests of the same student, and a queued request is where its card says. */
  lemma ExactlyOnce(k: nat, s: State, q: Queue, p: Queue, i: nat, j: nat)
    requires Inv(k, s) && q in s.items && p in s.items && i < |s.items[q]| && j < |s.items[p]|
    requires s.items[q][i].id == s.items[p][j].id
    ensures q == p && i == j
    ensures s.items[q][i].id < k && s.threads[s.items[q][i].id].card.place == if q.AnswerQ? then Answered else Queued(q)
  {
    hide Inv;
    Pieces(k, s);
    InQueue(k, s, q);
    InQueue(k, s, p);
    assert Belongs(k, s.threads, q, s.items[q][i]);
    assert Belongs(k, s.threads, p, s.items[p][j]);
  }

  /** ... and it is not lost: under way, it is in that queue or in the hands of that server. */
  lemma NotLost(k: nat, s: State, x: nat)
    requires Inv(k, s) && x < k && x < |s.threads|
    ensures match s.threads[x].card.place
      case Queued(q) => q in s.items && Has(s.items[q], x)
      case Answered => AnswerQ(x) in s.items && Has(s.items[AnswerQ(x)], x)
      case Served(u) => k <= u < |s.threads| && Busy(s.threads[u].pc, x)
      case _ => forall q, i :: q in s.items && 0 <= i < |s.items[q]| ==> s.items[q][i].id != x
  {
    hide Inv;
    Pieces(k, s);
    assert Placed(k, s, x);
    if !Out(s.threads[x].card.place) {
      forall q, i | q in s.items && 0 <= i < |s.items[q]| ensures s.items[q][i].id != x {
        InQueue(k, s, q);
        assert Belongs(k, s.threads, q, s.items[q][i]);
      }
    }
  }

  /** A server that has a student's request in its hands is the one named on the card, and no queue has it. */
  lemma HeldByOne(k: nat, s: State, u: nat, x: nat)
    requires Inv(k, s) && k <= u < |s.threads| && Busy(s.threads[u].pc, x)
    ensures x < k && s.threads[x].card.place == Served(u)
    ensures forall q, i :: q in s.items && 0 <= i < |s.items[q]| ==> s.items[q][i].id != x
  {
    hide Inv;
    Mover(k, s, u);
    Pieces(k, s);
    forall q, i | q in s.items && 0 <= i < |s.items[q]| ensures s.items[q][i].id != x {
      InQueue(k, s, q);
      assert Belongs(k, s.threads, q, s.items[q][i]);
    }
  }

  /** Answers reach their student; the office that serves an urgent request is the one that asked for it. */
  lemma Routing(k: nat, s: State, t: nat, q: Queue, m: Info)
    requires Inv(k, s) && t < |s.threads| && s.threads[t].pc == RUnlock(q, m)
    ensures t < k ==> m.id == t && q == AnswerQ(t) && m.office == s.threads[t].card.desk < OFFICES
    ensures t >= k ==> m.id < k && Serves(k, t, q) && Request(q, s.threads[m.id].card, m)
    ensures t >= k && q.UrgentQ? ==>
      t == k + s.threads[m.id].card.desk && m.office == t - k && s.threads[m.id].card.leg == 2
  {
    hide Inv;
    Mover(k, s, t);
  }
}

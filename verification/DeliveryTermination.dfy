/**
 A quiet round always comes to its end: until the queue is idle again some
 worker or the manager can move, and the number of steps is bounded by the rows
 queued when the round began.
 */
module DeliveryTermination {
  import opened Base
  import opened DeliveryProtocol
  import opened DeliverySafety
  import opened DeliverySweep
  import opened DeliveryRuns
  import opened DeliveryRound
  import opened Sums

  // ------------------------------------------------------------- what is left

  /** How many steps worker w has left, when no snapshot has more than `cap` rows. */
  function Left(w: Worker, cap: nat): nat {
    match w.pc
    case Starting => 6 * cap + 3
    case Looping => 6 * |w.refs| + 2
    case NoRow(_) => 6 * |w.refs| + 3
    case Sending(_, _, _) => 6 * |w.refs| + 7
    case Written(_) => 6 * |w.refs| + 6
    case Unqueued(_) => 6 * |w.refs| + 5
    case Marking(_) => 6 * |w.refs| + 4
    case Finishing => 1
  }

  function LeftWithin(cap: nat): Worker -> nat {
    w => Left(w, cap)
  }

  /** How many steps the round has left. */
  ghost function RoundLeft(s: State, cap: nat): nat {
    |s.manager| * (6 * cap + 4) + Sum(s.workers, LeftWithin(cap))
  }

  // ------------------------------------------------------------- it goes down

  /** A snapshot has no more rows than the queue. */
  lemma {:induction false} SnapshotFits(queue: Queue, dest: string, refs: seq<Ref>)
    requires Descending(refs) && forall r :: r in refs ==> Key(dest, r.id) in queue
    ensures |refs| <= |queue|
    decreases |refs|
  {
    if refs != [] {
      var k, rest := Key(dest, refs[0].id), refs[1..];
      assert k in queue;
      forall r | r in rest
        ensures Key(dest, r.id) in queue - {k}
      {
        var n :| 0 <= n < |rest| && rest[n] == r;
        assert refs[n + 1] == r && r in refs;
      }
      SnapshotFits(queue - {k}, dest, rest);
      assert |queue - {k}| == |queue| - 1 by { OneLess(queue, k); }
    }
  }

  lemma OneLess(queue: Queue, k: Key)
    requires k in queue
    ensures |queue - {k}| == |queue| - 1
  {
    assert (queue - {k}).Keys == queue.Keys - {k};
    assert |queue.Keys| == |queue| && |(queue - {k}).Keys| == |queue - {k}|;
  }

  /** The manager lists no more destinations than there are rows. */
  lemma {:induction false} ListingFits(queue: Queue, order: seq<string>)
    requires forall a, b :: 0 <= a < b < |order| ==> order[a] != order[b]
    requires forall d :: d in order ==> exists k :: k in queue && k.dest == d
    ensures |order| <= |queue|
    decreases |order|
  {
    if order != [] {
      assert order[0] in order;
      var k :| k in queue && k.dest == order[0];
      var rest := order[1..];
      forall d | d in rest
        ensures exists x :: x in queue - {k} && x.dest == d
      {
        assert d in order;
        var x :| x in queue && x.dest == d;
        assert x in queue - {k};
      }
      ListingFits(queue - {k}, rest);
      OneLess(queue, k);
    }
  }

  lemma LeftFalls(s: State, step: Step, cap: nat)
    requires Enabled(s, step) && ByWorker(step) && !Faulty(step) && !step.Finish? && |s.queue| <= cap
    requires step.g in Apply(s, step).workers
    ensures Left(Apply(s, step).workers[step.g], cap) < Left(s.workers[step.g], cap)
  {
    if step.Snapshot? {
      SnapshotFits(s.queue, s.workers[step.g].dest, step.refs);
    } else if step.Select? || step.DropMissing? || step.SendOk? || step.SendFail? {
      LeftFallsSending(s, step, cap);
    } else {
      LeftFallsSettling(s, step, cap);
    }
  }

  lemma LeftFallsSending(s: State, step: Step, cap: nat)
    requires Enabled(s, step) && (step.Select? || step.DropMissing? || step.SendOk? || step.SendFail?)
    requires step.g in Apply(s, step).workers
    ensures Left(Apply(s, step).workers[step.g], cap) < Left(s.workers[step.g], cap)
  {
  }

  lemma LeftFallsSettling(s: State, step: Step, cap: nat)
    requires Enabled(s, step) && (step.DropRow? || step.Check? || step.Mark? || step.Expunge?)
    requires step.g in Apply(s, step).workers
    ensures Left(Apply(s, step).workers[step.g], cap) < Left(s.workers[step.g], cap)
  {
  }

  lemma RoundStepFalls(s: State, step: Step, cap: nat)
    requires Enabled(s, step) && RoundStep(step) && |s.queue| <= cap
    ensures RoundLeft(Apply(s, step), cap) < RoundLeft(s, cap)
  {
    if step.TickStart? {
      TickStartFalls(s, step.g, cap);
    } else if step.Finish? {
      SumSplit(s.workers, LeftWithin(cap), step.g);
    } else {
      MovesOne(s, step);
      LeftFalls(s, step, cap);
      var s' := Apply(s, step);
      SumMoved(s.workers, LeftWithin(cap), step.g, s'.workers[step.g]);
      ManagerWaits(s, step);
    }
  }

  lemma TickStartFalls(s: State, g: nat, cap: nat)
    requires s.manager != [] && g !in s.workers
    ensures RoundLeft(DoTickStart(s, g), cap) < RoundLeft(s, cap)
  {
    var m := |s.manager|;
    assert m * (6 * cap + 4) == (m - 1) * (6 * cap + 4) + (6 * cap + 4);
    SumAdded(s.workers, LeftWithin(cap), g, Worker(s.manager[0], Starting, []));
  }

  /** No row is added in a round. */
  lemma QueueShrinks(s: State, step: Step)
    requires Enabled(s, step) && RoundStep(step)
    ensures Apply(s, step).queue.Keys <= s.queue.Keys
  {
  }

  lemma FewerRows(queue: Queue, after: Queue)
    requires after.Keys <= queue.Keys
    ensures |after| <= |queue|
  {
    assert queue.Keys == after.Keys + (queue.Keys - after.Keys);
    assert |queue.Keys| == |queue| && |after.Keys| == |after|;
  }

  lemma {:induction false} RoundBounded(s: State, steps: seq<Step>, cap: nat)
    requires IsRun(s, steps, RELIABLE) && |s.queue| <= cap
    requires forall j :: 0 <= j < |steps| ==> RoundStep(steps[j])
    ensures |steps| <= RoundLeft(s, cap)
    ensures Final(s, steps, RELIABLE).clients == s.clients
    decreases |steps|
  {
    if steps != [] {
      RoundStepFalls(s, steps[0], cap);
      QueueShrinks(s, steps[0]);
      FewerRows(s.queue, Apply(s, steps[0]).queue);
      RoundClients(s, steps[0]);
      RoundBounded(Apply(s, steps[0]), steps[1..], cap);
    }
  }

  lemma RoundClients(s: State, step: Step)
    requires Enabled(s, step) && RoundStep(step)
    ensures Apply(s, step).clients == s.clients
  {
    if ByWorker(step) {
      ManagerWaits(s, step);
    }
  }

  // ------------------------------------------------------------ it never sticks

  /** The rows of the given ids, largest first. */
  ghost function Listing(s: State, dest: string, ids: set<int>): seq<Ref>
    requires forall i :: i in ids ==> Key(dest, i) in s.queue
    decreases |ids|
  {
    if ids == {} then []
    else
      var m := Max(ids);
      var row := s.queue[Key(dest, m)];
      [Ref(m, row.from, row.rcpt, row.ticket)] + Listing(s, dest, ids - {m})
  }

  /** The references are of these ids, and of all of them. */
  ghost predicate AreFor(refs: seq<Ref>, ids: set<int>) {
    (forall r :: r in refs ==> r.id in ids) && forall i :: i in ids ==> HasId(refs, i)
  }

  ghost predicate HasId(refs: seq<Ref>, i: int) {
    exists r :: r in refs && r.id == i
  }

  lemma AreForMore(first: Ref, rest: seq<Ref>, ids: set<int>)
    requires first.id in ids && AreFor(rest, ids - {first.id})
    ensures AreFor([first] + rest, ids)
  {
    assert first in [first] + rest;
    forall i | i in ids && i != first.id
      ensures HasId([first] + rest, i)
    {
      assert HasId(rest, i);
      var r :| r in rest && r.id == i;
      assert r in [first] + rest;
    }
  }

  lemma AreRowsMore(s: State, dest: string, first: Ref, rest: seq<Ref>)
    requires AreRows(s, dest, rest) && RowIs(s, dest, first)
    requires forall r :: r in rest ==> r.id < first.id
    ensures AreRows(s, dest, [first] + rest)
  {
    var refs := [first] + rest;
    forall a, b | 0 <= a < b < |refs|
      ensures refs[a].id > refs[b].id
    {
      assert refs[b] == rest[b - 1] && rest[b - 1] in rest;
    }
  }

  lemma {:induction false} ListingLists(s: State, dest: string, ids: set<int>)
    requires forall i :: i in ids ==> Key(dest, i) in s.queue
    ensures AreRows(s, dest, Listing(s, dest, ids)) && AreFor(Listing(s, dest, ids), ids)
    decreases |ids|
  {
    if ids != {} {
      var m := Max(ids);
      var row, rest := s.queue[Key(dest, m)], Listing(s, dest, ids - {m});
      var first := Ref(m, row.from, row.rcpt, row.ticket);
      ListingLists(s, dest, ids - {m});
      AreForMore(first, rest, ids);
      AreRowsMore(s, dest, first, rest);
    }
  }

  lemma SnapshotExists(s: State, dest: string)
    ensures exists refs :: IsSnapshot(s, dest, refs)
  {
    var ids := set k | k in s.queue && k.dest == dest :: k.id;
    var refs := Listing(s, dest, ids);
    ListingLists(s, dest, ids);
    assert forall k :: k in s.queue && k.dest == dest ==> HasId(refs, k.id);
    assert IsSnapshot(s, dest, refs);
  }

  /** While the round is not over, one of its steps can be taken. */
  lemma CanGoOn(s: State)
    requires s.clients == map[] && !Idle(s)
    ensures exists step :: RoundStep(step) && Allowed(s, step, RELIABLE)
  {
    if s.manager != [] {
      assert Allowed(s, TickStart(FreshId(s.workers.Keys)), RELIABLE);
    } else {
      assert s.workers != map[];
      if forall g :: g !in s.workers {
        assert false;
      }
      var g :| g in s.workers;
      WorkerCanGoOn(s, g);
    }
  }

  lemma WorkerCanGoOn(s: State, g: nat)
    requires s.clients == map[] && g in s.workers
    ensures exists step :: RoundStep(step) && Allowed(s, step, RELIABLE)
  {
    match s.workers[g].pc
    case Starting =>
      SnapshotExists(s, s.workers[g].dest);
      var refs :| IsSnapshot(s, s.workers[g].dest, refs);
      assert Allowed(s, Snapshot(g, refs), RELIABLE);
    case Looping =>
      assert Allowed(s, if s.workers[g].refs == [] then Expunge(g) else Select(g), RELIABLE);
    case NoRow(_) => assert Allowed(s, DropMissing(g), RELIABLE);
    case Sending(_, _, _) => assert Allowed(s, SendOk(g), RELIABLE);
    case Written(_) => assert Allowed(s, DropRow(g), RELIABLE);
    case Unqueued(_) => assert Allowed(s, Check(g), RELIABLE);
    case Marking(_) => assert Allowed(s, Mark(g), RELIABLE);
    case Finishing => assert Allowed(s, Finish(g), RELIABLE);
  }

  // -------------------------------------------------------------- the theorem

  /**
   A round over n rows has at most 1 + n * (6 n + 4) steps, and as long as it has
   not brought the queue back to idle it can go on.
   */
  lemma QuietRoundFinishes(s0: State, round: seq<Step>)
    requires Idle(s0) && IsRound(round) && IsRun(s0, round, RELIABLE)
    ensures |round| <= 1 + |s0.queue| * (6 * |s0.queue| + 4)
    ensures var s := Final(s0, round, RELIABLE);
      !Idle(s) ==> exists step :: RoundStep(step) && Allowed(s, step, RELIABLE)
  {
    RoundBound(s0, round);
    if !Idle(Final(s0, round, RELIABLE)) {
      CanGoOn(Final(s0, round, RELIABLE));
    }
  }

  lemma RoundBound(s0: State, round: seq<Step>)
    requires Idle(s0) && IsRound(round) && IsRun(s0, round, RELIABLE)
    ensures |round| <= 1 + |s0.queue| * (6 * |s0.queue| + 4)
    ensures Final(s0, round, RELIABLE).clients == map[]
  {
    var n, s1 := |s0.queue|, DoTick(s0, round[0].order);
    assert s1 == Apply(s0, round[0]);
    RoundBounded(s1, round[1..], n);
    TickBound(s0, round[0].order, n);
  }

  lemma TickBound(s0: State, order: seq<string>, n: nat)
    requires IsListing(s0, order) && s0.workers == map[] && n == |s0.queue|
    ensures RoundLeft(DoTick(s0, order), n) <= n * (6 * n + 4)
  {
    ListingFits(s0.queue, order);
    Times(|order|, n, 6 * n + 4);
  }

  lemma Times(a: nat, b: nat, c: nat)
    requires a <= b
    ensures a * c <= b * c
  {
  }
}

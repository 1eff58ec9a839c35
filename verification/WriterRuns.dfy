/** The executor's guarantees over whole runs, for any number of concurrent callers. */
module WriterRuns {
  import opened Base
  import opened Tables
  import opened WriterProtocol
  import opened WriterSafety
  import opened Sums

  lemma InitSafe(db: Db)
    ensures Control(Init(db)) && History(db, Init(db))
  {
  }

  lemma {:induction false} RunKeeps(db0: Db, s: State, steps: seq<Step>)
    requires Control(s) && History(db0, s) && IsRun(s, steps)
    ensures Control(Final(s, steps)) && History(db0, Final(s, steps))
    decreases |steps|
  {
    if steps != [] {
      StepControl(s, steps[0]);
      StepHistory(db0, s, steps[0]);
      RunKeeps(db0, Apply(s, steps[0]), steps[1..]);
    }
  }

  /** At most one runner ever serves, and the flag is set exactly while one does. */
  lemma OneRunnerServes(db: Db, steps: seq<Step>, r: nat, q: nat)
    requires IsRun(Init(db), steps)
    ensures var s := Final(Init(db), steps);
      && (r in s.runners && q in s.runners && !s.runners[r].Spawned? && !s.runners[q].Spawned? ==> r == q)
      && (s.running <==> exists x :: x in s.runners && !s.runners[x].Spawned?)
  {
    InitSafe(db);
    RunKeeps(db, Init(db), steps);
  }

  /**
   The first runner to win the flag serves for ever: no later runner, which all lose,
   ever takes its place or ends it, so its deferred clear is never reached.
   */
  lemma {:induction false} WinnerStays(s: State, steps: seq<Step>, r: nat)
    requires Control(s) && IsRun(s, steps) && r in s.runners && !s.runners[r].Spawned?
    ensures var s' := Final(s, steps);
      s'.running && forall q :: q in s'.runners && !s'.runners[q].Spawned? <==> q == r
    decreases |steps|
  {
    if steps != [] {
      StepControl(s, steps[0]);
      StaysWinner(s, steps[0], r);
      WinnerStays(Apply(s, steps[0]), steps[1..], r);
    }
  }

  lemma StaysWinner(s: State, step: Step, r: nat)
    requires OneServer(s.running, s.runners) && Enabled(s, step) && r in s.runners && !s.runners[r].Spawned?
    ensures r in Apply(s, step).runners && !Apply(s, step).runners[r].Spawned?
  {
  }

  // ----------------------------------------------------------------- progress

  /** In every state with a call in progress, someone other than a new caller can move. */
  lemma NeverStuck(db: Db, steps: seq<Step>, c: nat)
    requires IsRun(Init(db), steps)
    requires c in Final(Init(db), steps).calls && !Final(Init(db), steps).calls[c].pc.Done?
    ensures exists step :: Enabled(Final(Init(db), steps), step) && !step.Invoke?
  {
    InitSafe(db);
    RunKeeps(db, Init(db), steps);
    CanMove(Final(Init(db), steps), c);
  }

  /**
   A call offering its task never waits for nobody: while the flag is set there is a
   runner serving, and while it is clear there is one about to compete, which will win.
   */
  lemma OfferIsStaffed(db: Db, steps: seq<Step>, c: nat)
    requires IsRun(Init(db), steps)
    requires var s := Final(Init(db), steps); c in s.calls && s.calls[c].pc.Offering?
    ensures var s := Final(Init(db), steps);
      exists r :: r in s.runners && if s.running then !s.runners[r].Spawned? else Wins(s, r)
  {
    InitSafe(db);
    RunKeeps(db, Init(db), steps);
    var s := Final(Init(db), steps);
    assert Staffed(s.running, s.runners);
    if !s.running {
      var r :| r in s.runners && s.runners[r].Spawned?;
      assert Wins(s, r);
    }
  }

  ghost predicate Wins(s: State, r: nat) {
    Enabled(s, Compete(r)) && r in DoCompete(s, r).runners && DoCompete(s, r).runners[r].Ready?
  }

  /** How many steps a call has left, not counting its runner's. */
  function CallLeft(call: Call): nat {
    match call.pc
    case Checking => 8
    case Spawning => 7
    case Offering => 5
    case Waiting => 1
    case Done(_) => 0
  }

  function RunnerLeft(runner: Runner): nat {
    match runner
    case Spawned => 1
    case Ready => 0
    case Holding(_) => 3
    case Begun(_) => 2
    case Replied(_) => 1
    case Failing(_) => 1
  }

  ghost function Work(s: State): nat {
    Sum(s.calls, CallLeft) + Sum(s.runners, RunnerLeft)
  }

  lemma WorkFalls(s: State, step: Step)
    requires Enabled(s, step) && !step.Invoke?
    ensures Work(Apply(s, step)) < Work(s)
  {
    var s' := Apply(s, step);
    match step
    case Load(c) => SumMoved(s.calls, CallLeft, c, s'.calls[c]);
    case Spawn(c, r) =>
      SumMoved(s.calls, CallLeft, c, s'.calls[c]);
      SumAdded(s.runners, RunnerLeft, r, Spawned);
    case Compete(r) => CompeteFalls(s, r);
    case Handover(r, c) =>
      SumMoved(s.calls, CallLeft, c, s'.calls[c]);
      SumMoved(s.runners, RunnerLeft, r, s'.runners[r]);
    case Return(c) => SumMoved(s.calls, CallLeft, c, s'.calls[c]);
    case _ => ServerFalls(s, step);
  }

  lemma CompeteFalls(s: State, r: nat)
    requires Enabled(s, Compete(r))
    ensures Work(DoCompete(s, r)) < Work(s)
  {
    SumSplit(s.runners, RunnerLeft, r);
    SumMoved(s.runners, RunnerLeft, r, Ready);
  }

  lemma ServerFalls(s: State, step: Step)
    requires Enabled(s, step) && (step.Begin? || step.BeginFail? || step.Run? || step.Close?)
    ensures Work(Apply(s, step)) < Work(s)
  {
    var s', c := Apply(s, step), s.runners[step.r].c;
    SumMoved(s.runners, RunnerLeft, step.r, s'.runners[step.r]);
    SumMoved(s.calls, CallLeft, c, s'.calls[c]);
    assert step.Begin? || step.BeginFail? ==> s'.calls == s.calls;
  }

  lemma {:induction false} WorkBounds(s: State, steps: seq<Step>)
    requires IsRun(s, steps) && forall n :: 0 <= n < |steps| ==> !steps[n].Invoke?
    ensures |steps| + Work(Final(s, steps)) <= Work(s)
    decreases |steps|
  {
    if steps != [] {
      WorkFalls(s, steps[0]);
      WorkBounds(Apply(s, steps[0]), steps[1..]);
    }
  }

  /**
   Once no new call comes in, only so many steps are left, and they can stop only
   when every call has returned.
   */
  lemma AllCallsReturn(db: Db, before: seq<Step>, after: seq<Step>)
    requires IsRun(Init(db), before) && IsRun(Final(Init(db), before), after)
    requires forall n :: 0 <= n < |after| ==> !after[n].Invoke?
    ensures |after| <= Work(Final(Init(db), before))
    ensures var s := Final(Final(Init(db), before), after);
      (forall step :: Enabled(s, step) ==> step.Invoke?) ==> forall c :: c in s.calls ==> s.calls[c].pc.Done?
  {
    InitSafe(db);
    RunKeeps(db, Init(db), before);
    RunKeeps(db, Final(Init(db), before), after);
    WorkBounds(Final(Init(db), before), after);
    var s := Final(Final(Init(db), before), after);
    forall c | c in s.calls && !s.calls[c].pc.Done?
      ensures exists step :: Enabled(s, step) && !step.Invoke?
    {
      CanMove(s, c);
    }
  }

  lemma CanMove(s: State, c: nat)
    requires Control(s) && c in s.calls && !s.calls[c].pc.Done?
    ensures exists step :: Enabled(s, step) && !step.Invoke?
  {
    match s.calls[c].pc
    case Checking => assert Enabled(s, Load(c));
    case Spawning =>
      var r := FreshId(s.runners.Keys);
      assert Enabled(s, Spawn(c, r));
    case Offering => OfferCanMove(s, c);
    case Waiting =>
      if s.calls[c].reply.Some? || s.calls[c].closed {
        assert Enabled(s, Return(c));
      } else {
        var r :| r in s.runners && Serves(s.runners[r], c);
        ServerCanMove(s, r);
      }
    case Done(_) =>
  }

  /** A caller offering its task has a server to take it, or a runner about to compete. */
  lemma OfferCanMove(s: State, c: nat)
    requires Control(s) && c in s.calls && s.calls[c].pc.Offering?
    ensures exists step :: Enabled(s, step) && !step.Invoke?
  {
    if s.running {
      var r :| r in s.runners && !s.runners[r].Spawned?;
      if s.runners[r].Ready? {
        assert Enabled(s, Handover(r, c));
      } else {
        ServerCanMove(s, r);
      }
    } else {
      assert Staffed(s.running, s.runners);
      var r :| r in s.runners && s.runners[r].Spawned?;
      assert Enabled(s, Compete(r));
    }
  }

  lemma ServerCanMove(s: State, r: nat)
    requires Control(s) && r in s.runners && !s.runners[r].Spawned? && !s.runners[r].Ready?
    ensures exists step :: Enabled(s, step) && !step.Invoke?
  {
    assert TaskOk(s.runners[r], s.calls);
    match s.runners[r]
    case Holding(_) => assert Enabled(s, Begin(r));
    case Begun(_) => assert Enabled(s, Run(r));
    case Replied(_) => assert Enabled(s, Close(r));
    case Failing(_) => assert Enabled(s, Close(r));
  }

  // ------------------------------------------------------------ linearizability

  /** Call c is the i-th whose task ran; it returned what the task gave, alone, at that point. */
  ghost predicate RanAt(db0: Db, s: State, c: nat, i: nat) {
    && i < |s.order| && s.order[i] == c && (forall j :: 0 <= j < |s.order| && s.order[j] == c ==> j == i)
    && c in s.calls
    && (s.calls[c].pc.Done? ==>
          s.calls[c].pc.result == Exec(Replay(db0, s.order[..i], s.calls), s.calls[c].op).1)
  }

  /**
   Tasks run one at a time: the tables are what the tasks of `order` give one after
   another, and every executed call has one place in that order and the result it
   would have there.
   */
  lemma RunsOneByOne(db: Db, steps: seq<Step>)
    requires IsRun(Init(db), steps)
    ensures var s := Final(Init(db), steps);
      && s.db == Replay(db, s.order, s.calls)
      && forall c :: c in s.calls && s.calls[c].executed.Some? ==> exists i :: RanAt(db, s, c, i)
  {
    InitSafe(db);
    RunKeeps(db, Init(db), steps);
    var s := Final(Init(db), steps);
    forall c | c in s.calls && s.calls[c].executed.Some?
      ensures exists i :: RanAt(db, s, c, i)
    {
      var i :| 0 <= i < |s.order| && s.order[i] == c;
      assert CallOk(s.calls[c], s.clock);
      assert RanAt(db, s, c, i);
    }
  }

  /** The order respects real time: a call that returned before another began ran before it. */
  lemma RespectsRealTime(db: Db, steps: seq<Step>, i: nat, j: nat)
    requires IsRun(Init(db), steps)
    requires var s := Final(Init(db), steps);
      && i < |s.order| && j < |s.order| && s.order[i] in s.calls && s.order[j] in s.calls
      && s.calls[s.order[i]].returned.Some?
      && s.calls[s.order[i]].returned.value < s.calls[s.order[j]].invoked
    ensures i < j
  {
    InitSafe(db);
    RunKeeps(db, Init(db), steps);
    EarlierRanFirst(Final(Init(db), steps), i, j);
  }

  lemma EarlierRanFirst(s: State, i: nat, j: nat)
    requires OrderOk(s.order, s.calls) && CallsOk(s.calls, s.clock)
    requires i < |s.order| && j < |s.order| && s.order[i] in s.calls && s.order[j] in s.calls
    requires s.calls[s.order[i]].returned.Some?
    requires s.calls[s.order[i]].returned.value < s.calls[s.order[j]].invoked
    ensures i < j
  {
    assert CallOk(s.calls[s.order[i]], s.clock) && CallOk(s.calls[s.order[j]], s.clock);
    assert TimeOf(s.calls, s.order[i]) < TimeOf(s.calls, s.order[j]);
  }

  // --------------------------------------------------------------- failed Begin

  /** The runner that has call c's task fails to begin a transaction for it. */
  ghost predicate FailsToBegin(s: State, step: Step, c: nat)
    requires Enabled(s, step)
  {
    step.BeginFail? && s.runners[step.r].c == c
  }

  ghost predicate BeginFailedFor(s: State, steps: seq<Step>, c: nat)
    requires IsRun(s, steps)
    decreases |steps|
  {
    steps != [] && (FailsToBegin(s, steps[0], c) || BeginFailedFor(Apply(s, steps[0]), steps[1..], c))
  }

  /** Call c will not run: its transaction has failed to begin. */
  ghost predicate Doomed(s: State, c: nat) {
    && c in s.calls && s.calls[c].executed.None?
    && (s.calls[c].closed || exists r :: r in s.runners && s.runners[r] == Failing(c))
  }

  lemma DoomedStep(s: State, step: Step, c: nat)
    requires Control(s) && Enabled(s, step)
    ensures Doomed(Apply(s, step), c) <==> Doomed(s, c) || FailsToBegin(s, step, c)
  {
    if step.Run? || step.Close? || step.BeginFail? || step.Begin? {
      DoomedByServer(s, step, c);
    } else if step.Handover? || step.Compete? {
      DoomedByRunner(s, step, c);
    } else {
      DoomedByCall(s, step, c);
    }
  }

  lemma DoomedByServer(s: State, step: Step, c: nat)
    requires OneServer(s.running, s.runners) && TasksOk(s.runners, s.calls) && Enabled(s, step)
    requires step.Run? || step.Close? || step.BeginFail? || step.Begin?
    ensures Doomed(Apply(s, step), c) <==> Doomed(s, c) || FailsToBegin(s, step, c)
  {
    var s', r := Apply(s, step), step.r;
    assert TaskOk(s.runners[r], s.calls);
    assert forall q :: q in s.runners && q != r ==> s.runners[q].Spawned?;
    assert forall q :: q in s'.runners && q != r ==> s'.runners[q] == s.runners[q];
    assert r in s'.runners;
  }

  lemma DoomedByRunner(s: State, step: Step, c: nat)
    requires Enabled(s, step) && (step.Handover? || step.Compete?)
    ensures Doomed(Apply(s, step), c) <==> Doomed(s, c)
  {
    var s', r := Apply(s, step), step.r;
    if q :| q in s.runners && s.runners[q] == Failing(c) {
      assert q in s'.runners && s'.runners[q] == Failing(c);
    }
    if q :| q in s'.runners && s'.runners[q] == Failing(c) {
      assert q in s.runners && s.runners[q] == Failing(c);
    }
  }

  lemma DoomedByCall(s: State, step: Step, c: nat)
    requires TasksOk(s.runners, s.calls) && Enabled(s, step)
    requires step.Invoke? || step.Load? || step.Spawn? || step.Return?
    ensures Doomed(Apply(s, step), c) <==> Doomed(s, c)
  {
    var s' := Apply(s, step);
    if q :| q in s.runners && s.runners[q] == Failing(c) {
      assert TaskOk(s.runners[q], s.calls);
      assert q in s'.runners && s'.runners[q] == Failing(c);
    }
    if q :| q in s'.runners && s'.runners[q] == Failing(c) {
      assert q in s.runners && s.runners[q] == Failing(c);
      assert TaskOk(s.runners[q], s.calls);
    }
  }

  lemma {:induction false} RunDoomed(s: State, steps: seq<Step>, c: nat)
    requires Control(s) && IsRun(s, steps)
    ensures Doomed(Final(s, steps), c) <==> Doomed(s, c) || BeginFailedFor(s, steps, c)
    decreases |steps|
  {
    if steps != [] {
      DoomedStep(s, steps[0], c);
      StepControl(s, steps[0]);
      RunDoomed(Apply(s, steps[0]), steps[1..], c);
    }
  }

  /**
   A call that has returned did not run its task exactly if Begin failed for that
   task; it then reported success all the same.
   */
  lemma ReturnedMeansRun(db: Db, steps: seq<Step>, c: nat)
    requires IsRun(Init(db), steps)
    requires c in Final(Init(db), steps).calls && Final(Init(db), steps).calls[c].pc.Done?
    ensures var s := Final(Init(db), steps);
      && (s.calls[c].executed.None? <==> BeginFailedFor(Init(db), steps, c))
      && (s.calls[c].executed.Some? <==> c in s.order)
      && (s.calls[c].executed.None? ==> s.calls[c].pc.result == Ok(0))
  {
    InitSafe(db);
    RunKeeps(db, Init(db), steps);
    RunDoomed(Init(db), steps, c);
    assert CallOk(Final(Init(db), steps).calls[c], Final(Init(db), steps).clock);
  }

  /** For any task, a call whose Begin fails: it returns success, and nothing has run. */
  lemma FailedBeginReturns(db: Db, op: Op) returns (steps: seq<Step>)
    ensures IsRun(Init(db), steps)
    ensures var s := Final(Init(db), steps);
      0 in s.calls && s.calls[0].op == op && s.calls[0].pc == Done(Ok(0)) && s.order == [] && s.db == db
  {
    var tail := [Handover(0, 0), BeginFail(0), Close(0), Return(0)];
    steps := [Invoke(0, op), Load(0), Spawn(0, 0), Compete(0)] + tail;
    var s := OneOffer(db, op);
    FailsFrom(s, op);
    OffersFirst(db, op, tail);
  }

  /** One call offers its task, and its runner is ready for it. */
  function OneOffer(db: Db, op: Op): State {
    State(true, map[0 := Ready], map[0 := Call(op, Offering, None, false, 0, None, None)], db, [], 1)
  }

  lemma FailsFrom(s: State, op: Op)
    requires s == OneOffer(s.db, op)
    ensures var tail := [Handover(0, 0), BeginFail(0), Close(0), Return(0)];
      && IsRun(s, tail)
      && var s' := Final(s, tail);
      0 in s'.calls && s'.calls[0].op == op && s'.calls[0].pc == Done(Ok(0)) && s'.order == [] && s'.db == s.db
  {
    var s1 := DoHandover(s, 0, 0);
    var s2 := SetRunner(s1, 0, Failing(0));
    var s3 := DoClose(s2, 0);
    One(s3, Return(0), []);
    One(s2, Close(0), [Return(0)]);
    One(s1, BeginFail(0), [Close(0), Return(0)]);
    One(s, Handover(0, 0), [BeginFail(0), Close(0), Return(0)]);
  }

  lemma One(s: State, step: Step, rest: seq<Step>)
    requires Enabled(s, step) && IsRun(Apply(s, step), rest)
    ensures IsRun(s, [step] + rest) && Final(s, [step] + rest) == Final(Apply(s, step), rest)
  {
    assert ([step] + rest)[1..] == rest;
  }

  lemma OffersFirst(db: Db, op: Op, tail: seq<Step>)
    requires IsRun(OneOffer(db, op), tail)
    ensures var steps := [Invoke(0, op), Load(0), Spawn(0, 0), Compete(0)] + tail;
      IsRun(Init(db), steps) && Final(Init(db), steps) == Final(OneOffer(db, op), tail)
  {
    var s1 := DoInvoke(Init(db), 0, op);
    var s2 := DoLoad(s1, 0);
    var s3 := DoSpawn(s2, 0, 0);
    assert DoCompete(s3, 0) == OneOffer(db, op);
    One(s3, Compete(0), tail);
    One(s2, Spawn(0, 0), [Compete(0)] + tail);
    One(s1, Load(0), [Spawn(0, 0)] + ([Compete(0)] + tail));
    One(Init(db), Invoke(0, op), [Load(0)] + ([Spawn(0, 0)] + ([Compete(0)] + tail)));
    assert [Invoke(0, op)] + ([Load(0)] + ([Spawn(0, 0)] + ([Compete(0)] + tail))) ==
      [Invoke(0, op), Load(0), Spawn(0, 0), Compete(0)] + tail;
  }
}

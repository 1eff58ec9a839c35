/** What the executor guarantees in every run. */
module WriterSafety {
  import opened Base
  import opened Tables
  import opened WriterProtocol

  type Runners = map<nat, Runner>
  type Calls = map<nat, Call>

  // -------------------------------------------------------------- invariants

  /** The flag is set exactly when one runner serves tasks. */
  ghost predicate OneServer(running: bool, runners: Runners) {
    && (running <==> exists r :: r in runners && !runners[r].Spawned?)
    && (forall r, q :: r in runners && q in runners && !runners[r].Spawned? && !runners[q].Spawned? ==> r == q)
  }

  ghost predicate Serves(runner: Runner, c: nat) {
    (runner.Holding? || runner.Begun? || runner.Replied? || runner.Failing?) && runner.c == c
  }

  /** Someone serves or will serve: the flag is set or a runner is about to compete. */
  ghost predicate Staffed(running: bool, runners: Runners) {
    running || exists r :: r in runners && runners[r].Spawned?
  }

  ghost predicate Offered(running: bool, runners: Runners, calls: Calls) {
    (exists c :: c in calls && calls[c].pc.Offering?) ==> Staffed(running, runners)
  }

  /** The course of one call. */
  ghost predicate CallOk(call: Call, clock: nat) {
    && call.invoked < clock
    && (call.executed.Some? <==> call.reply.Some?)
    && (call.executed.Some? ==> call.invoked < call.executed.value < clock)
    && (call.returned.Some? <==> call.pc.Done?)
    && (call.returned.Some? ==> call.invoked < call.returned.value < clock)
    && (call.returned.Some? && call.executed.Some? ==> call.executed.value < call.returned.value)
    && (call.pc.Checking? || call.pc.Spawning? || call.pc.Offering? ==> call.executed.None? && !call.closed)
    && (call.pc.Done? ==> call.pc.result == if call.reply.Some? then call.reply.value else Ok(0))
    && (call.pc.Done? ==> call.executed.Some? || call.closed)
  }

  ghost predicate CallsOk(calls: Calls, clock: nat) {
    forall c :: c in calls ==> CallOk(calls[c], clock)
  }

  /** A task a runner has and has not run belongs to a waiting call that has no result. */
  ghost predicate TaskOk(runner: Runner, calls: Calls) {
    && (runner.Holding? || runner.Begun? || runner.Failing? ==>
          runner.c in calls && calls[runner.c].pc.Waiting? && calls[runner.c].executed.None? && !calls[runner.c].closed)
    && (runner.Replied? ==>
          runner.c in calls && calls[runner.c].executed.Some? && !calls[runner.c].closed
          && (calls[runner.c].pc.Waiting? || calls[runner.c].pc.Done?))
  }

  ghost predicate TasksOk(runners: Runners, calls: Calls) {
    forall r :: r in runners ==> TaskOk(runners[r], calls)
  }

  /** A waiting call has its result, or a runner has its task. */
  ghost predicate Attended(runners: Runners, calls: Calls) {
    forall c :: c in calls && calls[c].pc.Waiting? ==>
      calls[c].reply.Some? || calls[c].closed || exists r :: r in runners && Serves(runners[r], c)
  }

  function TimeOf(calls: Calls, c: nat): nat {
    if c in calls && calls[c].executed.Some? then calls[c].executed.value else 0
  }

  /** `order` lists the executed calls once each, by time of execution. */
  ghost predicate OrderOk(order: seq<nat>, calls: Calls) {
    && (forall i :: 0 <= i < |order| ==> order[i] in calls && calls[order[i]].executed.Some?)
    && (forall c :: c in calls && calls[c].executed.Some? ==> c in order)
    && (forall i, j :: 0 <= i < j < |order| ==> TimeOf(calls, order[i]) < TimeOf(calls, order[j]))
  }

  /** The tables after running the tasks of `order` one by one. */
  function Replay(db: Db, order: seq<nat>, calls: Calls): Db {
    if order == [] then db
    else
      var before, c := Replay(db, order[..|order| - 1], calls), order[|order| - 1];
      if c in calls then Exec(before, calls[c].op).0 else before
  }

  /** The tables are what running the tasks alone, in order, gives, and so is each reply. */
  ghost predicate Sequential(db0: Db, db: Db, order: seq<nat>, calls: Calls) {
    && db == Replay(db0, order, calls)
    && forall i :: 0 <= i < |order| && order[i] in calls ==>
         calls[order[i]].reply == Some(Exec(Replay(db0, order[..i], calls), calls[order[i]].op).1)
  }

  ghost predicate Control(s: State) {
    && OneServer(s.running, s.runners)
    && Offered(s.running, s.runners, s.calls)
    && CallsOk(s.calls, s.clock)
    && TasksOk(s.runners, s.calls)
    && Attended(s.runners, s.calls)
  }

  ghost predicate History(db0: Db, s: State) {
    OrderOk(s.order, s.calls) && Sequential(db0, s.db, s.order, s.calls)
  }

  // -------------------------------------------------------------- generic moves

  predicate SameTask(a: Call, b: Call) {
    a.op == b.op && a.reply == b.reply && a.executed == b.executed
  }

  /** Calls change only in ways that Replay and the order do not see. */
  ghost predicate SameTasks(calls: Calls, calls': Calls) {
    forall c :: c in calls ==> c in calls' && SameTask(calls[c], calls'[c])
  }

  lemma {:induction false} ReplaySame(db: Db, order: seq<nat>, calls: Calls, calls': Calls)
    requires SameTasks(calls, calls') && forall i :: 0 <= i < |order| ==> order[i] in calls
    ensures Replay(db, order, calls') == Replay(db, order, calls)
  {
    if order != [] {
      ReplaySame(db, order[..|order| - 1], calls, calls');
    }
  }

  lemma SequentialSame(db0: Db, db: Db, order: seq<nat>, calls: Calls, calls': Calls)
    requires Sequential(db0, db, order, calls) && SameTasks(calls, calls')
    requires forall i :: 0 <= i < |order| ==> order[i] in calls
    ensures Sequential(db0, db, order, calls')
  {
    ReplaySame(db0, order, calls, calls');
    forall i | 0 <= i < |order|
      ensures calls'[order[i]].reply == Some(Exec(Replay(db0, order[..i], calls'), calls'[order[i]].op).1)
    {
      ReplaySame(db0, order[..i], calls, calls');
    }
  }

  lemma OrderSame(order: seq<nat>, calls: Calls, calls': Calls)
    requires OrderOk(order, calls) && SameTasks(calls, calls')
    requires forall c :: c in calls' && c !in calls ==> calls'[c].executed.None?
    ensures OrderOk(order, calls')
  {
  }

  // ------------------------------------------------------------------- history

  lemma HistorySame(db0: Db, s: State, s': State)
    requires History(db0, s)
    requires s'.order == s.order && s'.db == s.db && SameTasks(s.calls, s'.calls)
    requires forall c :: c in s'.calls && c !in s.calls ==> s'.calls[c].executed.None?
    ensures History(db0, s')
  {
    OrderSame(s.order, s.calls, s'.calls);
    SequentialSame(db0, s.db, s.order, s.calls, s'.calls);
  }

  lemma KeepsTasks(s: State, step: Step)
    requires Enabled(s, step) && !step.Run?
    ensures var s' := Apply(s, step);
      && s'.order == s.order && s'.db == s.db && SameTasks(s.calls, s'.calls)
      && forall c :: c in s'.calls && c !in s.calls ==> s'.calls[c].executed.None?
  {
  }

  lemma RunHistory(db0: Db, s: State, r: nat)
    requires History(db0, s) && CallsOk(s.calls, s.clock) && Enabled(s, Run(r)) && TaskOk(s.runners[r], s.calls)
    ensures History(db0, DoRun(s, r))
  {
    var s', c := DoRun(s, r), s.runners[r].c;
    assert c !in s.order by {
      assert s.calls[c].executed.None?;
    }
    RunOrder(s.order, s.calls, c, s'.calls[c], s.clock);
    RunReplay(db0, s.order, s.calls, c, s'.calls[c]);
    RunReplies(db0, s.db, s.order, s.calls, c, s'.calls[c]);
  }

  lemma RunOrder(order: seq<nat>, calls: Calls, c: nat, call: Call, now: nat)
    requires OrderOk(order, calls) && CallsOk(calls, now) && c in calls && c !in order
    requires call.executed == Some(now)
    ensures OrderOk(order + [c], calls[c := call])
  {
    var after := calls[c := call];
    forall i | 0 <= i < |order|
      ensures TimeOf(after, order[i]) == TimeOf(calls, order[i]) < now
    {
      assert order[i] != c && CallOk(calls[order[i]], now);
    }
  }

  lemma {:induction false} RunReplay(db0: Db, order: seq<nat>, calls: Calls, c: nat, call: Call)
    requires c !in order && forall i :: 0 <= i < |order| ==> order[i] in calls
    ensures Replay(db0, order, calls[c := call]) == Replay(db0, order, calls)
  {
    if order != [] {
      RunReplay(db0, order[..|order| - 1], calls, c, call);
    }
  }

  lemma RunReplies(db0: Db, db: Db, order: seq<nat>, calls: Calls, c: nat, call: Call)
    requires Sequential(db0, db, order, calls) && c in calls && c !in order
    requires forall i :: 0 <= i < |order| ==> order[i] in calls
    requires call.op == calls[c].op && call.reply == Some(Exec(db, call.op).1)
    ensures Sequential(db0, Exec(db, call.op).0, order + [c], calls[c := call])
  {
    var after, longer := calls[c := call], order + [c];
    RunReplay(db0, order, calls, c, call);
    assert longer[..|order|] == order;
    forall i | 0 <= i < |longer|
      ensures after[longer[i]].reply == Some(Exec(Replay(db0, longer[..i], after), after[longer[i]].op).1)
    {
      if i < |order| {
        assert longer[..i] == order[..i] && longer[i] == order[i] != c;
        RunReplay(db0, order[..i], calls, c, call);
      }
    }
  }

  lemma StepHistory(db0: Db, s: State, step: Step)
    requires History(db0, s) && Control(s) && Enabled(s, step)
    ensures History(db0, Apply(s, step))
  {
    if step.Run? {
      RunHistory(db0, s, step.r);
    } else {
      KeepsTasks(s, step);
      HistorySame(db0, s, Apply(s, step));
    }
  }

  // ------------------------------------------------------------------- control

  lemma CallMoved(calls: Calls, clock: nat, c: nat, call: Call, clock': nat)
    requires CallsOk(calls, clock) && clock <= clock' && CallOk(call, clock')
    ensures CallsOk(calls[c := call], clock')
  {
  }

  /** A call whose task no runner has may change without disturbing any runner. */
  lemma TasksMoved(runners: Runners, calls: Calls, c: nat, call: Call)
    requires TasksOk(runners, calls)
    requires c in calls ==> calls[c].pc.Checking? || calls[c].pc.Spawning? || calls[c].pc.Offering?
    ensures TasksOk(runners, calls[c := call])
  {
    forall r | r in runners
      ensures TaskOk(runners[r], calls[c := call])
    {
      assert TaskOk(runners[r], calls);
    }
  }

  /** Waiting calls stay attended if their records and the serving runners are as they were. */
  lemma AttendedKept(runners: Runners, calls: Calls, runners': Runners, calls': Calls)
    requires Attended(runners, calls)
    requires forall c :: c in calls' && calls'[c].pc.Waiting? ==> c in calls && calls'[c] == calls[c]
    requires forall r :: r in runners && !runners[r].Spawned? ==> r in runners' && runners'[r] == runners[r]
    ensures Attended(runners', calls')
  {
    forall c | c in calls' && calls'[c].pc.Waiting? && calls'[c].reply.None? && !calls'[c].closed
      ensures exists r :: r in runners' && Serves(runners'[r], c)
    {
      var r :| r in runners && Serves(runners[r], c);
      assert r in runners' && Serves(runners'[r], c);
    }
  }

  /** A serving runner moves on to another serving point. */
  lemma ServerMoved(running: bool, runners: Runners, r: nat, runner: Runner)
    requires OneServer(running, runners) && r in runners && !runners[r].Spawned? && !runner.Spawned?
    ensures OneServer(running, runners[r := runner]) && running
    ensures forall q :: q in runners && q != r ==> runners[q].Spawned?
  {
    assert r in runners[r := runner] && !runners[r := runner][r].Spawned?;
  }

  lemma InvokeSafe(s: State, c: nat, op: Op)
    requires Control(s) && Enabled(s, Invoke(c, op))
    ensures Control(DoInvoke(s, c, op))
  {
    var s' := DoInvoke(s, c, op);
    CallMoved(s.calls, s.clock, c, s'.calls[c], s'.clock);
    TasksMoved(s.runners, s.calls, c, s'.calls[c]);
    AttendedKept(s.runners, s.calls, s'.runners, s'.calls);
  }

  lemma LoadSafe(s: State, c: nat)
    requires Control(s) && Enabled(s, Load(c))
    ensures Control(DoLoad(s, c))
  {
    var s' := DoLoad(s, c);
    assert CallOk(s.calls[c], s.clock);
    CallMoved(s.calls, s.clock, c, s'.calls[c], s'.clock);
    TasksMoved(s.runners, s.calls, c, s'.calls[c]);
    AttendedKept(s.runners, s.calls, s'.runners, s'.calls);
  }

  lemma SpawnSafe(s: State, c: nat, r: nat)
    requires Control(s) && Enabled(s, Spawn(c, r))
    ensures Control(DoSpawn(s, c, r))
  {
    var s' := DoSpawn(s, c, r);
    assert CallOk(s.calls[c], s.clock);
    CallMoved(s.calls, s.clock, c, s'.calls[c], s'.clock);
    TasksMoved(s.runners, s.calls, c, s'.calls[c]);
    AttendedKept(s.runners, s.calls, s'.runners, s'.calls);
    SpawnServer(s.running, s.runners, r);
    assert r in s'.runners && s'.runners[r].Spawned?;
  }

  lemma SpawnServer(running: bool, runners: Runners, r: nat)
    requires OneServer(running, runners) && r !in runners
    ensures OneServer(running, runners[r := Spawned])
  {
    if running {
      var q :| q in runners && !runners[q].Spawned?;
      assert q in runners[r := Spawned] && !runners[r := Spawned][q].Spawned?;
    }
  }

  lemma ReturnSafe(s: State, c: nat)
    requires Control(s) && Enabled(s, Return(c))
    ensures Control(DoReturn(s, c))
  {
    var s' := DoReturn(s, c);
    assert CallOk(s.calls[c], s.clock);
    CallMoved(s.calls, s.clock, c, s'.calls[c], s'.clock);
    ReturnTasks(s, c);
    AttendedKept(s.runners, s.calls, s'.runners, s'.calls);
  }

  lemma ReturnTasks(s: State, c: nat)
    requires TasksOk(s.runners, s.calls) && CallsOk(s.calls, s.clock) && Enabled(s, Return(c))
    ensures TasksOk(DoReturn(s, c).runners, DoReturn(s, c).calls)
  {
    var s' := DoReturn(s, c);
    assert CallOk(s.calls[c], s.clock);
    forall r | r in s.runners
      ensures TaskOk(s.runners[r], s'.calls)
    {
      assert TaskOk(s.runners[r], s.calls);
    }
  }

  lemma CompeteSafe(s: State, r: nat)
    requires Control(s) && Enabled(s, Compete(r))
    ensures Control(DoCompete(s, r))
  {
    var s' := DoCompete(s, r);
    AttendedKept(s.runners, s.calls, s'.runners, s'.calls);
    CompeteServer(s, r);
  }

  lemma CompeteServer(s: State, r: nat)
    requires OneServer(s.running, s.runners) && Enabled(s, Compete(r))
    ensures OneServer(DoCompete(s, r).running, DoCompete(s, r).runners) && DoCompete(s, r).running
  {
    var s' := DoCompete(s, r);
    if s.running {
      var q :| q in s.runners && !s.runners[q].Spawned?;
      assert q in s'.runners && !s'.runners[q].Spawned?;
    } else {
      assert r in s'.runners && !s'.runners[r].Spawned?;
    }
  }

  /** Runner r, the only server, moves on; so may the call whose task it has. */
  lemma RunnerMoved(s: State, s': State, r: nat, c: nat)
    requires Control(s) && r in s.runners && !s.runners[r].Spawned?
    requires s'.running == s.running && r in s'.runners && !s'.runners[r].Spawned?
    requires s'.runners == s.runners[r := s'.runners[r]]
    requires c in s'.calls && s'.calls == s.calls[c := s'.calls[c]]
    requires CallOk(s'.calls[c], s'.clock) && s.clock <= s'.clock
    requires TaskOk(s'.runners[r], s'.calls)
    requires s'.calls[c].pc.Waiting? ==> s'.calls[c].reply.Some? || s'.calls[c].closed || Serves(s'.runners[r], c)
    requires Serves(s.runners[r], c) || s.runners[r].Ready?
    ensures Control(s')
  {
    ServerMoved(s.running, s.runners, r, s'.runners[r]);
    CallMoved(s.calls, s.clock, c, s'.calls[c], s'.clock);
    forall d | d in s'.calls && s'.calls[d].pc.Waiting? && s'.calls[d].reply.None? && !s'.calls[d].closed
      ensures exists q :: q in s'.runners && Serves(s'.runners[q], d)
    {
      if d == c {
        assert Serves(s'.runners[r], c);
      }
    }
  }

  lemma HandoverSafe(s: State, r: nat, c: nat)
    requires Control(s) && Enabled(s, Handover(r, c))
    ensures Control(DoHandover(s, r, c))
  {
    assert CallOk(s.calls[c], s.clock);
    RunnerMoved(s, DoHandover(s, r, c), r, c);
  }

  lemma BeginSafe(s: State, r: nat, next: Runner)
    requires Control(s) && Enabled(s, Begin(r)) && (next == Begun(s.runners[r].c) || next == Failing(s.runners[r].c))
    ensures Control(SetRunner(s, r, next))
  {
    var c := s.runners[r].c;
    assert TaskOk(s.runners[r], s.calls) && CallOk(s.calls[c], s.clock);
    assert s.calls[c := s.calls[c]] == s.calls;
    RunnerMoved(s, SetRunner(s, r, next), r, c);
  }

  lemma RunSafe(s: State, r: nat)
    requires Control(s) && Enabled(s, Run(r))
    ensures Control(DoRun(s, r))
  {
    var c := s.runners[r].c;
    assert TaskOk(s.runners[r], s.calls) && CallOk(s.calls[c], s.clock);
    RunnerMoved(s, DoRun(s, r), r, c);
  }

  lemma CloseSafe(s: State, r: nat)
    requires Control(s) && Enabled(s, Close(r))
    ensures Control(DoClose(s, r))
  {
    var c := s.runners[r].c;
    assert TaskOk(s.runners[r], s.calls) && CallOk(s.calls[c], s.clock);
    RunnerMoved(s, DoClose(s, r), r, c);
  }

  lemma StepControl(s: State, step: Step)
    requires Control(s) && Enabled(s, step)
    ensures Control(Apply(s, step))
  {
    match step
    case Invoke(c, op) => InvokeSafe(s, c, op);
    case Load(c) => LoadSafe(s, c);
    case Spawn(c, r) => SpawnSafe(s, c, r);
    case Compete(r) => CompeteSafe(s, r);
    case Handover(r, c) => HandoverSafe(s, r, c);
    case Begin(r) => BeginSafe(s, r, Begun(s.runners[r].c));
    case BeginFail(r) => BeginSafe(s, r, Failing(s.runners[r].c));
    case Run(r) => RunSafe(s, r);
    case Close(r) => CloseSafe(s, r);
    case Return(c) => ReturnSafe(s, c);
  }
}

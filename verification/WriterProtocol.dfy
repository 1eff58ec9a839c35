/**
 The single-writer executor: `Do` may spawn a runner, hands its task over an
 unbuffered channel and waits; `run` competes for the flag and, if it wins, serves
 tasks for ever.  Any number of callers and runners interleave at the statements
 that touch the flag or a channel.
 */
module WriterProtocol {
  import opened Base
  import opened Tables

  /** Where a runner stands; `c` is the call whose task it has taken. */
  datatype Runner =
    | Spawned           // before the compare-and-swap
    | Ready             // won it; receiving from the channel
    | Holding(c: nat)   // has a task, transaction not begun
    | Begun(c: nat)     // transaction begun, task not run
    | Replied(c: nat)   // task run, its result sent
    | Failing(c: nat)   // Begin failed, result channel to be closed

  /** Where a caller stands in `Do`. */
  datatype CallPc =
    | Checking                       // before loading the flag
    | Spawning                       // saw it clear; about to start a runner
    | Offering                       // sending its task
    | Waiting                        // receiving its result
    | Done(result: Reply<int>)

  /** A call of Do, with the times of its invocation, of its task's run, and of its return. */
  datatype Call = Call(
    op: Op, pc: CallPc, reply: Option<Reply<int>>, closed: bool,
    invoked: nat, executed: Option<nat>, returned: Option<nat>)

  /** `order` remembers the calls whose tasks have run, in the order they ran. */
  datatype State = State(
    running: bool, runners: map<nat, Runner>, calls: map<nat, Call>, db: Db, order: seq<nat>, clock: nat)

  datatype Step =
    | Invoke(c: nat, op: Op)
    | Load(c: nat)
    | Spawn(c: nat, r: nat)
    | Compete(r: nat)
    | Handover(r: nat, c: nat)
    | Begin(r: nat)
    | BeginFail(r: nat)
    | Run(r: nat)
    | Close(r: nat)
    | Return(c: nat)

  function Init(db: Db): State {
    State(false, map[], map[], db, [], 0)
  }

  ghost predicate CallAt(s: State, c: nat, pc: CallPc) {
    c in s.calls && s.calls[c].pc == pc
  }

  ghost predicate Enabled(s: State, step: Step) {
    match step
    case Invoke(c, _) => c !in s.calls
    case Load(c) => CallAt(s, c, Checking)
    case Spawn(c, r) => CallAt(s, c, Spawning) && r !in s.runners
    case Compete(r) => r in s.runners && s.runners[r].Spawned?
    case Handover(r, c) => r in s.runners && s.runners[r].Ready? && CallAt(s, c, Offering)
    case Begin(r) => r in s.runners && s.runners[r].Holding? && s.runners[r].c in s.calls
    case BeginFail(r) => r in s.runners && s.runners[r].Holding? && s.runners[r].c in s.calls
    case Run(r) => r in s.runners && s.runners[r].Begun? && s.runners[r].c in s.calls
    case Close(r) => r in s.runners && (s.runners[r].Replied? || s.runners[r].Failing?) && s.runners[r].c in s.calls
    case Return(c) => CallAt(s, c, Waiting) && (s.calls[c].reply.Some? || s.calls[c].closed)
  }

  function SetCall(s: State, c: nat, call: Call): State {
    s.(calls := s.calls[c := call])
  }

  function SetRunner(s: State, r: nat, runner: Runner): State {
    s.(runners := s.runners[r := runner])
  }

  function DoInvoke(s: State, c: nat, op: Op): State {
    SetCall(s, c, Call(op, Checking, None, false, s.clock, None, None)).(clock := s.clock + 1)
  }

  function DoLoad(s: State, c: nat): State
    requires c in s.calls
  {
    SetCall(s, c, s.calls[c].(pc := if s.running then Offering else Spawning))
  }

  function DoSpawn(s: State, c: nat, r: nat): State
    requires c in s.calls
  {
    SetRunner(SetCall(s, c, s.calls[c].(pc := Offering)), r, Spawned)
  }

  /** A loser returns before it has deferred clearing the flag. */
  function DoCompete(s: State, r: nat): State {
    if s.running then s.(runners := s.runners - {r}) else SetRunner(s, r, Ready).(running := true)
  }

  function DoHandover(s: State, r: nat, c: nat): State
    requires c in s.calls
  {
    SetRunner(SetCall(s, c, s.calls[c].(pc := Waiting)), r, Holding(c))
  }

  function DoRun(s: State, r: nat): State
    requires r in s.runners && s.runners[r].Begun? && s.runners[r].c in s.calls
  {
    var c := s.runners[r].c;
    var call := s.calls[c];
    var (db, reply) := Exec(s.db, call.op);
    SetRunner(SetCall(s, c, call.(reply := Some(reply), executed := Some(s.clock))), r, Replied(c))
      .(db := db, order := s.order + [c], clock := s.clock + 1)
  }

  function DoClose(s: State, r: nat): State
    requires r in s.runners && (s.runners[r].Replied? || s.runners[r].Failing?) && s.runners[r].c in s.calls
  {
    var c := s.runners[r].c;
    SetRunner(SetCall(s, c, s.calls[c].(closed := true)), r, Ready)
  }

  /** Receiving from a closed, empty channel gives nil: success. */
  function DoReturn(s: State, c: nat): State
    requires c in s.calls
  {
    var call := s.calls[c];
    var result := if call.reply.Some? then call.reply.value else Ok(0);
    SetCall(s, c, call.(pc := Done(result), returned := Some(s.clock))).(clock := s.clock + 1)
  }

  ghost function Apply(s: State, step: Step): State
    requires Enabled(s, step)
  {
    match step
    case Invoke(c, op) => DoInvoke(s, c, op)
    case Load(c) => DoLoad(s, c)
    case Spawn(c, r) => DoSpawn(s, c, r)
    case Compete(r) => DoCompete(s, r)
    case Handover(r, c) => DoHandover(s, r, c)
    case Begin(r) => SetRunner(s, r, Begun(s.runners[r].c))
    case BeginFail(r) => SetRunner(s, r, Failing(s.runners[r].c))
    case Run(r) => DoRun(s, r)
    case Close(r) => DoClose(s, r)
    case Return(c) => DoReturn(s, c)
  }

  ghost predicate IsRun(s: State, steps: seq<Step>)
    decreases |steps|
  {
    steps != [] ==> Enabled(s, steps[0]) && IsRun(Apply(s, steps[0]), steps[1..])
  }

  ghost function Final(s: State, steps: seq<Step>): State
    requires IsRun(s, steps)
    decreases |steps|
  {
    if steps == [] then s else Final(Apply(s, steps[0]), steps[1..])
  }
}

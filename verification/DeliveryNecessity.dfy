/**
 What the guards are for.  Every list of recipients with two remote ones before
 the first unusable one has a run, free of storage errors and keeping A2, that
 loses a queued delivery; so a call can lose mail exactly when it comes to a
 second remote recipient.  Nor can A2 be dropped.
 */
module DeliveryNecessity {
  import opened Base
  import opened DeliveryProtocol
  import opened DeliverySafety
  import opened DeliveryRuns
  import opened DeliverySingle

  /** The recipient lists of the calls made in a run. */
  function CallsOf(steps: seq<Step>): seq<seq<Target>> {
    if steps == [] then [] else CallOf(steps[0]) + CallsOf(steps[1..])
  }

  function CallOf(step: Step): seq<seq<Target>> {
    if step.Create? || step.SilentCreate? then [step.targets] else []
  }

  /** Where a run starts and the recipient lists of the calls it makes. */
  datatype Trail = Trail(start: State, calls: seq<seq<Target>>)

  /** From the empty Outbox, making just these calls. */
  function From(calls: seq<seq<Target>>): Trail {
    Trail(INIT, calls)
  }

  /** s is reached by a run along the trail. */
  ghost predicate Reached(trail: Trail, s: State, m: Regime) {
    exists steps ::
      IsRun(trail.start, steps, m) && CallsOf(steps) == trail.calls && Final(trail.start, steps, m) == s
  }

  /** A delivery was queued, its row is gone and its body was never written. */
  ghost predicate Loses(s: State) {
    exists t :: t in s.issued && !Queued(s.queue, s.issued[t]) && s.issued[t] !in s.log
  }

  lemma Then(trail: Trail, s: State, step: Step, m: Regime)
    requires Reached(trail, s, m) && Allowed(s, step, m)
    ensures Reached(trail.(calls := trail.calls + CallOf(step)), Apply(s, step), m)
  {
    var steps :|
      IsRun(trail.start, steps, m) && CallsOf(steps) == trail.calls && Final(trail.start, steps, m) == s;
    RunThen(trail.start, steps, step, m);
    CallsThen(steps, step);
  }

  /** A step that makes no call. */
  lemma Next(trail: Trail, s: State, step: Step, m: Regime)
    requires Reached(trail, s, m) && Allowed(s, step, m) && !step.Create? && !step.SilentCreate?
    ensures Reached(trail, Apply(s, step), m)
  {
    Then(trail, s, step, m);
    assert trail.calls + [] == trail.calls;
  }

  lemma {:induction false} CallsThen(steps: seq<Step>, step: Step)
    ensures CallsOf(steps + [step]) == CallsOf(steps) + CallOf(step)
  {
    if steps == [] {
      assert steps + [step] == [step];
    } else {
      var more, first := steps + [step], CallOf(steps[0]);
      CallsThen(steps[1..], step);
      assert more[0] == steps[0] && more[1..] == steps[1..] + [step];
      assert CallsOf(more) == first + (CallsOf(steps[1..]) + CallOf(step));
      assert CallsOf(more) == (first + CallsOf(steps[1..])) + CallOf(step);
    }
  }

  lemma StartReached(s: State, m: Regime)
    ensures Reached(Trail(s, []), s, m)
  {
    assert IsRun(s, [], m) && CallsOf([]) == [];
  }

  const NO_A1 := Regime(false, true, NoErrors)
  const NO_A2 := Regime(true, false, NoErrors)

  // ------------------------------------------------------ pieces of the runs

  /** Worker g has taken its one-row snapshot, read the mail, written it and deleted the row. */
  ghost function Delivered(s: State, g: nat, r: Ref): State
    requires g in s.workers && r.id in s.mails
  {
    var d := s.workers[g].dest;
    s.(workers := s.workers[g := Worker(d, Unqueued(r), [])],
       queue := s.queue - {Key(d, r.id)},
       log := s.log + multiset{Delivery(r.ticket, s.mails[r.id].ident, Key(d, r.id), r.from, r.rcpt, s.mails[r.id].body)})
  }

  /** Row r is the only one of destination d. */
  ghost predicate OnlyRow(s: State, d: string, r: Ref) {
    HasRow(s.queue, d, r) && r.id in s.mails && forall k :: k in s.queue && k.dest == d ==> k.id == r.id
  }

  /** s once worker g has read the one mail of its snapshot. */
  function HasRead(s: State, g: nat, r: Ref): State
    requires g in s.workers && r.id in s.mails
  {
    s.(workers := s.workers[g := Worker(s.workers[g].dest, Sending(r, s.mails[r.id].ident, s.mails[r.id].body), [])])
  }

  lemma ReadsOne(trail: Trail, s: State, g: nat, r: Ref, m: Regime)
    requires Reached(trail, s, m) && g in s.workers && s.workers[g].pc.Starting? && OnlyRow(s, s.workers[g].dest, r)
    ensures Reached(trail, HasRead(s, g, r), m)
  {
    SnapshotOne(trail, s, g, r, m);
    var s1 := DoSnapshot(s, g, [r]);
    Next(trail, s1, Select(g), m);
    SelectsOne(s, g, r);
  }

  lemma SelectsOne(s: State, g: nat, r: Ref)
    requires g in s.workers && r.id in s.mails
    ensures DoSelect(DoSnapshot(s, g, [r]), g) == HasRead(s, g, r)
  {
    assert [r][0] == r && [r][1..] == [];
  }

  lemma SnapshotOne(trail: Trail, s: State, g: nat, r: Ref, m: Regime)
    requires Reached(trail, s, m) && g in s.workers && s.workers[g].pc.Starting? && OnlyRow(s, s.workers[g].dest, r)
    ensures Reached(trail, DoSnapshot(s, g, [r]), m)
  {
    assert r in [r];
    Next(trail, s, Snapshot(g, [r]), m);
  }

  lemma DeliversOne(trail: Trail, s: State, g: nat, r: Ref, m: Regime)
    requires Reached(trail, s, m) && g in s.workers && s.workers[g].pc.Starting? && OnlyRow(s, s.workers[g].dest, r)
    ensures Reached(trail, Delivered(s, g, r), m)
  {
    ReadsOne(trail, s, g, r, m);
    WritesOne(trail, HasRead(s, g, r), g, m);
    WrittenIsDelivered(s, g, r);
  }

  lemma WrittenIsDelivered(s: State, g: nat, r: Ref)
    requires g in s.workers && r.id in s.mails
    ensures DoDropRow(DoSendOk(HasRead(s, g, r), g), g) == Delivered(s, g, r)
  {
  }

  lemma WritesOne(trail: Trail, s: State, g: nat, m: Regime)
    requires Reached(trail, s, m) && g in s.workers && s.workers[g].pc.Sending?
    ensures Reached(trail, DoDropRow(DoSendOk(s, g), g), m)
  {
    Next(trail, s, SendOk(g), m);
    Next(trail, DoSendOk(s, g), DropRow(g), m);
  }

  /** Recipients of this node are passed over up to the next remote one. */
  lemma {:induction false} SkipsLocals(trail: Trail, s: State, c: nat, m: Regime) returns (ts: seq<Target>)
    requires Reached(trail, s, m) && c in s.clients && s.clients[c].kick.None? && Ahead(s.clients[c].targets)
    ensures ts != [] && ts[0].Remote? && RemotesAhead(ts) == RemotesAhead(s.clients[c].targets)
    ensures s.clients[c].targets[0].Remote? ==> ts == s.clients[c].targets
    ensures Reached(trail, s.(clients := s.clients[c := s.clients[c].(targets := ts)]), m)
    decreases |s.clients[c].targets|
  {
    var q := s.clients[c];
    if q.targets[0].Remote? {
      ts := q.targets;
      assert s.clients[c := q.(targets := ts)] == s.clients;
    } else {
      Next(trail, s, Insert(c), m);
      var s' := s.(clients := s.clients[c := q.(targets := q.targets[1..])]);
      PassesLocal(s, c);
      ts := SkipsLocals(trail, s', c, m);
      assert s'.clients[c := s'.clients[c].(targets := ts)] == s.clients[c := q.(targets := ts)];
    }
  }

  lemma PassesLocal(s: State, c: nat)
    requires c in s.clients && s.clients[c].targets != [] && s.clients[c].targets[0].Local?
    ensures InsertNext(s, c) == s.(clients := s.clients[c := s.clients[c].(targets := s.clients[c].targets[1..])])
  {
  }

  predicate NoOutbox(targets: seq<Target>) {
    forall t :: t in targets && t.Remote? ==> t.dest != "Outbox"
  }

  /** The empty Outbox after one call's MailCreate, its recipients down to ts. */
  function Called(from: string, body: Bytes, ts: seq<Target>): State {
    INIT.(mails := map[1 := OutMail(0, body, false)],
          clients := map[0 := Client(1, 0, from, body, ts, None)],
          clock := 1)
  }

  /** ... and after its first row, for destination d, was inserted and its worker started. */
  function Kicked(from: string, body: Bytes, d: string, rcpt: string, ts: seq<Target>): State {
    Called(from, body, ts).(
      queue := map[Key(d, 1) := Row(from, rcpt, 1)],
      workers := map[0 := Worker(d, Starting, [])],
      running := {d},
      issued := map[1 := Delivery(1, 0, Key(d, 1), from, rcpt, body)],
      clock := 2)
  }

  lemma MakesCall(from: string, body: Bytes, targets: seq<Target>, m: Regime)
    requires NoOutbox(targets)
    ensures Reached(From([targets]), Called(from, body, targets), m)
  {
    StartReached(INIT, m);
    Then(From([]), INIT, Create(0, from, targets, body), m);
    assert [] + [targets] == [targets];
    assert DoCreate(INIT, 0, from, targets, body) == Called(from, body, targets);
  }

  lemma FirstRow(from: string, body: Bytes, targets: seq<Target>, m: Regime)
      returns (d: string, rcpt: string, rest: seq<Target>)
    requires NoOutbox(targets) && Ahead(targets)
    ensures 1 + RemotesAhead(rest) == RemotesAhead(targets)
    ensures targets[0].Remote? ==> targets == [Remote(d, rcpt)] + rest
    ensures Reached(From([targets]), Kicked(from, body, d, rcpt, rest), m)
  {
    MakesCall(from, body, targets, m);
    var ts := SkipsLocals(From([targets]), Called(from, body, targets), 0, m);
    d, rcpt, rest := ts[0].dest, ts[0].rcpt, ts[1..];
    assert Called(from, body, targets).(clients := map[0 := Client(1, 0, from, body, ts, None)]) == Called(from, body, ts);
    InsertAndKick(From([targets]), from, body, ts, m);
  }

  lemma InsertAndKick(trail: Trail, from: string, body: Bytes, ts: seq<Target>, m: Regime)
    requires Reached(trail, Called(from, body, ts), m) && ts != [] && ts[0].Remote?
    ensures Reached(trail, Kicked(from, body, ts[0].dest, ts[0].rcpt, ts[1..]), m)
  {
    var s1 := Called(from, body, ts);
    var s2 := InsertNext(s1, 0);
    Next(trail, s1, Insert(0), m);
    InsertedFirst(from, body, ts);
    Next(trail, s2, Kick(0, 0), m);
    KickedFirst(s2, from, body, ts);
  }

  lemma InsertedFirst(from: string, body: Bytes, ts: seq<Target>)
    requires ts != [] && ts[0].Remote?
    ensures var s2 := InsertNext(Called(from, body, ts), 0);
      && s2.clients == map[0 := Client(1, 0, from, body, ts[1..], Some(ts[0].dest))]
      && s2 == Kicked(from, body, ts[0].dest, ts[0].rcpt, ts[1..]).(
           workers := map[], running := {}, clients := s2.clients)
  {
  }

  lemma KickedFirst(s2: State, from: string, body: Bytes, ts: seq<Target>)
    requires ts != [] && ts[0].Remote?
    requires s2.clients == map[0 := Client(1, 0, from, body, ts[1..], Some(ts[0].dest))]
    requires s2 == Kicked(from, body, ts[0].dest, ts[0].rcpt, ts[1..]).(
      workers := map[], running := {}, clients := s2.clients)
    ensures DoKick(s2, 0, 0) == Kicked(from, body, ts[0].dest, ts[0].rcpt, ts[1..])
  {
  }

  // ------------------------------------------------------- two remote recipients

  /**
   Every call that comes to two remote recipients can lose mail.  A worker delivers
   the first copy, sees no rows left and marks the mail before QueueFor inserts the
   second row, whether for another destination or the same; its expunge then removes
   that row unsent.
   */
  lemma MultiLoses(from: string, body: Bytes, targets: seq<Target>) returns (s: State)
    requires NoOutbox(targets) && !Single(targets)
    ensures Reached(From([targets]), s, NO_A1) && Loses(s)
  {
    var d, rcpt, rest := FirstRow(from, body, targets, NO_A1);
    var r := Ref(1, from, rcpt, 1);
    DeliversOne(From([targets]), Kicked(from, body, d, rcpt, rest), 0, r, NO_A1);
    MarksEarly(From([targets]), from, body, d, rcpt, rest);
    s := LosesSecond(From([targets]), from, body, d, rcpt, rest);
  }

  /** The worker has delivered the first copy and marked the mail. */
  function MarkedEarly(from: string, body: Bytes, d: string, rcpt: string, ts: seq<Target>): State {
    Kicked(from, body, d, rcpt, ts).(
      mails := map[1 := OutMail(0, body, true)],
      queue := map[],
      workers := map[0 := Worker(d, Looping, [])],
      log := multiset{Delivery(1, 0, Key(d, 1), from, rcpt, body)})
  }

  lemma MarksEarly(trail: Trail, from: string, body: Bytes, d: string, rcpt: string, ts: seq<Target>)
    requires Reached(trail, Delivered(Kicked(from, body, d, rcpt, ts), 0, Ref(1, from, rcpt, 1)), NO_A1)
    ensures Reached(trail, MarkedEarly(from, body, d, rcpt, ts), NO_A1)
  {
    var s := Delivered(Kicked(from, body, d, rcpt, ts), 0, Ref(1, from, rcpt, 1));
    ChecksEarly(s, from, body, d, rcpt, ts);
    Next(trail, s, Check(0), NO_A1);
    var s' := AboutToMark(from, body, d, rcpt, ts);
    Next(trail, s', Mark(0), NO_A1);
    MarkedIs(s', from, body, d, rcpt, ts);
  }

  /** The worker has delivered the first copy, and seen no rows. */
  function AboutToMark(from: string, body: Bytes, d: string, rcpt: string, ts: seq<Target>): State {
    MarkedEarly(from, body, d, rcpt, ts).(
      mails := map[1 := OutMail(0, body, false)],
      workers := map[0 := Worker(d, Marking(Ref(1, from, rcpt, 1)), [])])
  }

  lemma ChecksEarly(s: State, from: string, body: Bytes, d: string, rcpt: string, ts: seq<Target>)
    requires s == Delivered(Kicked(from, body, d, rcpt, ts), 0, Ref(1, from, rcpt, 1))
    ensures 0 in s.workers && s.workers[0].pc.Unqueued? && DoCheck(s, 0) == AboutToMark(from, body, d, rcpt, ts)
  {
    assert s.queue == map[];
  }

  lemma MarkedIs(s: State, from: string, body: Bytes, d: string, rcpt: string, ts: seq<Target>)
    requires s == AboutToMark(from, body, d, rcpt, ts)
    ensures DoMark(s, 0) == MarkedEarly(from, body, d, rcpt, ts)
  {
  }

  lemma LosesSecond(trail: Trail, from: string, body: Bytes, d: string, rcpt: string, rest: seq<Target>)
      returns (s: State)
    requires Reached(trail, MarkedEarly(from, body, d, rcpt, rest), NO_A1) && Ahead(rest)
    ensures Reached(trail, s, NO_A1) && Loses(s)
  {
    var s0 := MarkedEarly(from, body, d, rcpt, rest);
    var ts := SkipsLocals(trail, s0, 0, NO_A1);
    var s1 := MarkedEarly(from, body, d, rcpt, ts);
    assert s0.(clients := s0.clients[0 := s0.clients[0].(targets := ts)]) == s1;
    Next(trail, s1, Insert(0), NO_A1);
    s := ExpungesSecond(trail, s1, from, body, d, rcpt, ts);
  }

  lemma ExpungesSecond(trail: Trail, s1: State, from: string, body: Bytes, d: string, rcpt: string,
      ts: seq<Target>) returns (s: State)
    requires s1 == MarkedEarly(from, body, d, rcpt, ts) && ts != [] && ts[0].Remote?
    requires Reached(trail, InsertNext(s1, 0), NO_A1)
    ensures Reached(trail, s, NO_A1) && Loses(s)
  {
    var s2 := InsertNext(s1, 0);
    Next(trail, s2, Expunge(0), NO_A1);
    s := DoExpunge(s2, 0);
    assert 2 in s.issued && s.issued[2].ticket == 2 && s.issued[2] !in s.log;
    assert s.queue == map[];
  }

  /** The calls of a run all have the recipients `targets`. */
  ghost predicate AllCall(steps: seq<Step>, targets: seq<Target>) {
    forall n :: 0 <= n < |steps| && (steps[n].Create? || steps[n].SilentCreate?) ==> steps[n].targets == targets
  }

  lemma {:induction false} CallsAre(steps: seq<Step>, targets: seq<Target>)
    requires forall ts :: ts in CallsOf(steps) ==> ts == targets
    ensures AllCall(steps, targets)
  {
    if steps != [] {
      assert forall ts :: ts in CallsOf(steps[1..]) ==> ts in CallsOf(steps);
      CallsAre(steps[1..], targets);
      assert forall n :: 1 <= n < |steps| ==> steps[n] == steps[1..][n - 1];
      assert CallOf(steps[0]) != [] ==> CallOf(steps[0])[0] in CallsOf(steps);
    }
  }

  /** A run without errors, or any run if all errors are allowed, is a run without the guards. */
  lemma {:induction false} RunFreely(s: State, steps: seq<Step>, m: Regime, free: Regime)
    requires IsRun(s, steps, m) && !free.a1 && !free.a2 && (m.errors.NoErrors? || free.errors.AnyErrors?)
    ensures IsRun(s, steps, free) && Final(s, steps, free) == Final(s, steps, m)
    decreases |steps|
  {
    if steps != [] {
      StepFreely(s, steps[0], m, free);
      RunFreely(Apply(s, steps[0]), steps[1..], m, free);
    }
  }

  lemma StepFreely(s: State, step: Step, m: Regime, free: Regime)
    requires Allowed(s, step, m) && !free.a1 && !free.a2 && (m.errors.NoErrors? || free.errors.AnyErrors?)
    ensures Allowed(s, step, free)
  {
  }

  /**
   When calls with these recipients never lose mail, whatever the schedule, and
   whatever fails if anything may: exactly when they come to one remote recipient at most.
   */
  lemma LosesNothingIff(targets: seq<Target>, m: Regime)
    requires NoOutbox(targets) && !m.a1 && !m.a2
    ensures Single(targets) <==>
      forall steps :: IsRun(INIT, steps, m) && AllCall(steps, targets) ==> !Loses(Final(INIT, steps, m))
  {
    if Single(targets) {
      forall steps | IsRun(INIT, steps, m) && AllCall(steps, targets)
        ensures !Loses(Final(INIT, steps, m))
      {
        RunFreely(INIT, steps, m, ANY);
        SingleKeeps(steps);
      }
    } else {
      var s := MultiLoses("", [], targets);
      var steps := ReachedFreely(targets, s, NO_A1, m);
    }
  }

  /** What one call reaches in a run without errors, a run without the guards reaches. */
  lemma ReachedFreely(targets: seq<Target>, s: State, m: Regime, free: Regime) returns (steps: seq<Step>)
    requires Reached(From([targets]), s, m) && m.errors.NoErrors? && !free.a1 && !free.a2
    ensures IsRun(INIT, steps, free) && AllCall(steps, targets) && Final(INIT, steps, free) == s
  {
    steps :| IsRun(INIT, steps, m) && CallsOf(steps) == [targets] && Final(INIT, steps, m) == s;
    RunFreely(INIT, steps, m, free);
    CallsAre(steps, targets);
  }

  lemma SingleKeeps(steps: seq<Step>)
    requires IsRun(INIT, steps, ANY) && SingleCalls(steps)
    ensures !Loses(Final(INIT, steps, ANY))
  {
    SingleConserves(steps, []);
  }

  /** In particular A1 cannot be dropped. */
  lemma A1IsNeeded()
    ensures exists calls, s :: Reached(From(calls), s, NO_A1) && Loses(s)
  {
    var s := MultiLoses("from", [], [Remote("d", "rcpt"), Remote("e", "rcpt2")]);
  }

  // --------------------------------------------------------------------- A2

  /**
   Without A2: two workers deliver both copies of mail 1 and both see no rows left;
   one marks and expunges it, a new mail reuses id 1, and the other worker's mark,
   meant for the old mail, condemns the new one before it is sent.
   */
  lemma A2IsNeeded()
    ensures exists calls, s :: Reached(From(calls), s, NO_A2) && Loses(s)
  {
    var d, rcpt, rest := FirstRow("from", [], RECIPIENTS, NO_A2);
    assert rest == RECIPIENTS[1..] == [Remote("e", "rcpt2")];
    assert RECIPIENTS[0] == Remote(d, rcpt);
    var s4 := SecondRow(Kicked("from", [], "d", "rcpt", rest));
    BothDeliver(s4);
  }

  const RECIPIENTS := [Remote("d", "rcpt"), Remote("e", "rcpt2")]

  lemma SecondRow(s3: State) returns (s: State)
    requires Reached(From([RECIPIENTS]), s3, NO_A2) && s3.mails == map[1 := OutMail(0, [], false)]
    requires s3.queue == map[Key("d", 1) := Row("from", "rcpt", 1)]
    requires s3.workers == map[0 := Worker("d", Starting, [])] && s3.running == {"d"}
    requires s3.clients == map[0 := Client(1, 0, "from", [], [Remote("e", "rcpt2")], None)]
    requires s3.clock == 2 && s3.log == multiset{}
    ensures Reached(From([RECIPIENTS]), s, NO_A2) && s.mails == s3.mails
    ensures s.queue == map[Key("d", 1) := Row("from", "rcpt", 1), Key("e", 1) := Row("from", "rcpt2", 2)]
    ensures s.workers == map[0 := Worker("d", Starting, []), 1 := Worker("e", Starting, [])]
    ensures s.clients == map[0 := Client(1, 0, "from", [], [], None)]
    ensures s.clock == 3 && s.log == multiset{}
  {
    assert [Remote("e", "rcpt2")][1..] == [];
    var s4 := InsertNext(s3, 0);
    Next(From([RECIPIENTS]), s3, Insert(0), NO_A2);
    assert s4.clients == map[0 := Client(1, 0, "from", [], [], Some("e"))];
    assert s4.queue == map[Key("d", 1) := Row("from", "rcpt", 1), Key("e", 1) := Row("from", "rcpt2", 2)];
    s := SecondKick(s4);
  }

  lemma SecondKick(s4: State) returns (s: State)
    requires Reached(From([RECIPIENTS]), s4, NO_A2) && s4.running == {"d"}
    requires s4.workers == map[0 := Worker("d", Starting, [])]
    requires s4.clients == map[0 := Client(1, 0, "from", [], [], Some("e"))]
    ensures Reached(From([RECIPIENTS]), s, NO_A2)
    ensures s == s4.(workers := map[0 := Worker("d", Starting, []), 1 := Worker("e", Starting, [])],
      clients := map[0 := Client(1, 0, "from", [], [], None)], running := {"d", "e"})
  {
    s := DoKick(s4, 0, 1);
    Next(From([RECIPIENTS]), s4, Kick(0, 1), NO_A2);
  }

  lemma BothDeliver(s4: State)
    requires Reached(From([RECIPIENTS]), s4, NO_A2) && s4.mails == map[1 := OutMail(0, [], false)]
    requires s4.queue == map[Key("d", 1) := Row("from", "rcpt", 1), Key("e", 1) := Row("from", "rcpt2", 2)]
    requires s4.workers == map[0 := Worker("d", Starting, []), 1 := Worker("e", Starting, [])]
    requires s4.clients == map[0 := Client(1, 0, "from", [], [], None)]
    requires s4.clock == 3 && s4.log == multiset{}
    ensures exists calls, s :: Reached(From(calls), s, NO_A2) && Loses(s)
  {
    var r0 := Ref(1, "from", "rcpt", 1);
    DeliversOne(From([RECIPIENTS]), s4, 0, r0, NO_A2);
    FirstDelivered(s4, r0);
    SecondDelivers(Delivered(s4, 0, r0), r0);
  }

  lemma FirstDelivered(s4: State, r0: Ref)
    requires s4.mails == map[1 := OutMail(0, [], false)] && r0.id == 1
    requires s4.queue == map[Key("d", 1) := Row("from", "rcpt", 1), Key("e", 1) := Row("from", "rcpt2", 2)]
    requires s4.workers == map[0 := Worker("d", Starting, []), 1 := Worker("e", Starting, [])]
    ensures Delivered(s4, 0, r0).queue == map[Key("e", 1) := Row("from", "rcpt2", 2)]
    ensures Delivered(s4, 0, r0).workers == map[0 := Worker("d", Unqueued(r0), []), 1 := Worker("e", Starting, [])]
  {
  }

  lemma SecondDelivers(s5: State, r0: Ref)
    requires Reached(From([RECIPIENTS]), s5, NO_A2) && s5.mails == map[1 := OutMail(0, [], false)] && r0.id == 1
    requires s5.queue == map[Key("e", 1) := Row("from", "rcpt2", 2)]
    requires s5.workers == map[0 := Worker("d", Unqueued(r0), []), 1 := Worker("e", Starting, [])]
    requires s5.clients == map[0 := Client(1, 0, "from", [], [], None)]
    requires s5.clock == 3 && forall x :: x in s5.log ==> x.ticket < 3
    ensures exists calls, s :: Reached(From(calls), s, NO_A2) && Loses(s)
  {
    var r1 := Ref(1, "from", "rcpt2", 2);
    DeliversOne(From([RECIPIENTS]), s5, 1, r1, NO_A2);
    var s6 := Delivered(s5, 1, r1);
    assert s6.queue == map[];
    assert s6.workers == map[0 := Worker("d", Unqueued(r0), []), 1 := Worker("e", Unqueued(r1), [])];
    BothCheck(s6, r0, r1);
  }

  lemma BothCheck(s6: State, r0: Ref, r1: Ref)
    requires Reached(From([RECIPIENTS]), s6, NO_A2) && s6.queue == map[] && s6.mails == map[1 := OutMail(0, [], false)]
    requires s6.workers == map[0 := Worker("d", Unqueued(r0), []), 1 := Worker("e", Unqueued(r1), [])]
    requires r0.id == 1 && r1.id == 1 && s6.clients == map[0 := Client(1, 0, "from", [], [], None)]
    requires s6.clock == 3 && forall x :: x in s6.log ==> x.ticket < 3
    ensures exists calls, s :: Reached(From(calls), s, NO_A2) && Loses(s)
  {
    var s7 := DoCheck(s6, 0);
    Next(From([RECIPIENTS]), s6, Check(0), NO_A2);
    assert s7.workers == map[0 := Worker("d", Marking(r0), []), 1 := Worker("e", Unqueued(r1), [])];
    SecondChecks(s7, r0, r1);
  }

  lemma SecondChecks(s7: State, r0: Ref, r1: Ref)
    requires Reached(From([RECIPIENTS]), s7, NO_A2) && s7.queue == map[] && s7.mails == map[1 := OutMail(0, [], false)]
    requires s7.workers == map[0 := Worker("d", Marking(r0), []), 1 := Worker("e", Unqueued(r1), [])]
    requires r0.id == 1 && r1.id == 1 && s7.clients == map[0 := Client(1, 0, "from", [], [], None)]
    requires s7.clock == 3 && forall x :: x in s7.log ==> x.ticket < 3
    ensures exists calls, s :: Reached(From(calls), s, NO_A2) && Loses(s)
  {
    var s8 := DoCheck(s7, 1);
    Next(From([RECIPIENTS]), s7, Check(1), NO_A2);
    assert s8.workers == map[0 := Worker("d", Marking(r0), []), 1 := Worker("e", Marking(r1), [])];
    OneSweeps(s8, r0, r1);
  }

  lemma OneSweeps(s8: State, r0: Ref, r1: Ref)
    requires Reached(From([RECIPIENTS]), s8, NO_A2) && s8.queue == map[] && s8.mails == map[1 := OutMail(0, [], false)]
    requires s8.workers == map[0 := Worker("d", Marking(r0), []), 1 := Worker("e", Marking(r1), [])]
    requires r0.id == 1 && r1.id == 1 && s8.clients == map[0 := Client(1, 0, "from", [], [], None)]
    requires s8.clock == 3 && forall x :: x in s8.log ==> x.ticket < 3
    ensures exists calls, s :: Reached(From(calls), s, NO_A2) && Loses(s)
  {
    Next(From([RECIPIENTS]), s8, Mark(1), NO_A2);
    OneExpunges(DoMark(s8, 1), r0);
  }

  lemma OneExpunges(s9: State, r0: Ref)
    requires Reached(From([RECIPIENTS]), s9, NO_A2) && s9.queue == map[] && s9.mails == map[1 := OutMail(0, [], true)]
    requires s9.workers == map[0 := Worker("d", Marking(r0), []), 1 := Worker("e", Looping, [])]
    requires r0.id == 1 && s9.clients == map[0 := Client(1, 0, "from", [], [], None)]
    requires s9.clock == 3 && forall x :: x in s9.log ==> x.ticket < 3
    ensures exists calls, s :: Reached(From(calls), s, NO_A2) && Loses(s)
  {
    var s10 := DoExpunge(s9, 1);
    Next(From([RECIPIENTS]), s9, Expunge(1), NO_A2);
    assert s10.mails == map[] && s10.queue == map[];
    assert s10.workers[0] == Worker("d", Marking(r0), []);
    IdIsReused(s10, r0);
  }

  lemma IdIsReused(s10: State, r0: Ref)
    requires Reached(From([RECIPIENTS]), s10, NO_A2) && s10.queue == map[] && s10.mails == map[]
    requires 0 in s10.workers && s10.workers[0] == Worker("d", Marking(r0), [])
    requires r0.id == 1 && s10.clients == map[0 := Client(1, 0, "from", [], [], None)]
    requires s10.clock == 3 && forall x :: x in s10.log ==> x.ticket < 3
    ensures exists calls, s :: Reached(From(calls), s, NO_A2) && Loses(s)
  {
    var s11 := DoCreate(s10, 1, "from", [Remote("f", "rcpt3")], []);
    Then(From([RECIPIENTS]), s10, Create(1, "from", [Remote("f", "rcpt3")], []), NO_A2);
    var s12 := InsertNext(s11, 1);
    Next(From([RECIPIENTS, [Remote("f", "rcpt3")]]), s11, Insert(1), NO_A2);
    assert s12.mails == map[1 := OutMail(3, [], false)];
    NewMailCondemned(s12, r0);
  }

  lemma NewMailCondemned(s12: State, r0: Ref)
    requires Reached(From([RECIPIENTS, [Remote("f", "rcpt3")]]), s12, NO_A2) && s12.mails == map[1 := OutMail(3, [], false)]
    requires 0 in s12.workers && s12.workers[0] == Worker("d", Marking(r0), []) && r0.id == 1
    requires 4 in s12.issued && s12.issued[4].key == Key("f", 1) && s12.issued[4].ticket == 4
    requires forall x :: x in s12.log ==> x.ticket < 3
    ensures exists calls, s :: Reached(From(calls), s, NO_A2) && Loses(s)
  {
    var s13 := DoMark(s12, 0);
    Next(From([RECIPIENTS, [Remote("f", "rcpt3")]]), s12, Mark(0), NO_A2);
    var s14 := DoExpunge(s13, 0);
    Next(From([RECIPIENTS, [Remote("f", "rcpt3")]]), s13, Expunge(0), NO_A2);
    assert !Queued(s14.queue, s14.issued[4]) && s14.issued[4] !in s14.log;
    assert Loses(s14);
  }
}

/**
 When `QueueFor` is refused a recipient half way.  Under A1 and A2 a call is safe
 from it exactly when none of its recipients is unusable and no two live at one
 node; with nothing asked of the schedule it must come to one remote recipient at
 most besides, for otherwise its mail may go before the second row is inserted.
 */
module DeliveryRefusal {
  import opened Base
  import opened DeliveryProtocol
  import opened DeliverySafety
  import opened DeliveryTickets
  import opened DeliveryRuns
  import opened DeliverySingle
  import opened DeliveryOrigin
  import opened DeliveryNecessity

  /** No recipient is unusable, and no two are at the same node. */
  predicate Fit(targets: seq<Target>) {
    && (forall t :: t in targets ==> !t.Invalid?)
    && (forall a, b :: 0 <= a < b < |targets| && targets[a].Remote? && targets[b].Remote? ==>
          targets[a].dest != targets[b].dest)
  }

  /** The next recipient of call c fails it: it is unusable, or its row cannot be inserted. */
  ghost predicate Refuses(s: State, c: nat) {
    Enabled(s, Insert(c)) && !s.clients[c].targets[0].Local? && !Inserts(s, c)
  }

  // --------------------------------------------------------- never refused

  /** Call c, if it is still the one that created mail `ident`, has its way clear. */
  ghost predicate Clear(s: State, c: nat, ident: nat) {
    c in s.clients ==> ClearWay(s.clients[c], s.issued, ident)
  }

  ghost predicate ClearWay(q: Client, issued: Issued, ident: nat) {
    && q.ident == ident && q.id != 0 && Fit(q.targets)
    && forall t, a :: t in issued && issued[t].ident == ident && 0 <= a < |q.targets| && q.targets[a].Remote? ==>
         q.targets[a].dest != issued[t].key.dest
  }

  lemma ClearInserts(s: State, c: nat, ident: nat)
    requires ClientsOk(s.clients, s.mails) && RowsOk(s.mails, s.queue, s.issued)
    requires Clear(s, c, ident)
    ensures !Refuses(s, c)
  {
    if Enabled(s, Insert(c)) && !s.clients[c].targets[0].Local? {
      var q := s.clients[c];
      var t := q.targets[0];
      assert t in q.targets;
      assert Ahead(q.targets) && OwnMail(q, s.mails);
      var k := Key(t.dest, q.id);
      assert k in s.queue ==> RowOk(s.mails, k, s.queue[k], s.issued);
    }
  }

  lemma FitRest(q: Client, issued: Issued, ident: nat)
    requires ClearWay(q, issued, ident) && q.targets != []
    ensures ClearWay(q.(targets := q.targets[1..]), issued, ident)
  {
    var rest := q.targets[1..];
    assert forall a :: 0 <= a < |rest| ==> rest[a] == q.targets[a + 1];
    assert forall t :: t in rest ==> t in q.targets;
  }

  lemma StepClear(s: State, step: Step, c: nat, ident: nat)
    requires ClientsOk(s.clients, s.mails) && Callers(s.clients, s.clock) && Numbered(s.issued, s.mails, s.clock)
    requires Clear(s, c, ident) && Enabled(s, step) && ident < s.clock
    requires (step.Create? || step.SilentCreate?) ==> step.c != c
    ensures Clear(Apply(s, step), c, ident)
  {
    if ByWorker(step) {
      WorkerLeavesClients(s, step);
      WorkerShrinks(s, step);
    } else if step.Insert? {
      InsertClear(s, step.c, c, ident);
    } else {
      OtherClear(s, step, c, ident);
    }
  }

  lemma InsertClear(s: State, d: nat, c: nat, ident: nat)
    requires ClientsOk(s.clients, s.mails) && Callers(s.clients, s.clock) && Numbered(s.issued, s.mails, s.clock)
    requires Clear(s, c, ident) && Enabled(s, Insert(d))
    ensures Clear(InsertNext(s, d), c, ident)
  {
    if c in s.clients && s.clients[c].targets != [] {
      FitRest(s.clients[c], s.issued, ident);
    }
    if Inserts(s, d) {
      QueuesOwn(s, d);
      IssueClear(s, d, c, ident);
    } else {
      SkipTables(s, d);
      SkipClients(s, d);
    }
  }

  lemma IssueClear(s: State, d: nat, c: nat, ident: nat)
    requires Inserts(s, d) && Callers(s.clients, s.clock) && Clear(s, c, ident)
    requires InsertNext(s, d).issued[s.clock].ident == s.clients[d].ident
    ensures Clear(InsertNext(s, d), c, ident)
  {
    var s' := InsertNext(s, d);
    if c in s.clients {
      var q, q' := s.clients[c], s'.clients[c];
      if c == d {
        FitRest(q, s.issued, ident);
        assert forall a :: 0 <= a < |q'.targets| ==> q'.targets[a] == q.targets[a + 1];
      }
    }
  }

  lemma OtherClear(s: State, step: Step, c: nat, ident: nat)
    requires Clear(s, c, ident) && Enabled(s, step) && !ByWorker(step) && !step.Insert?
    requires (step.Create? || step.SilentCreate?) ==> step.c != c
    ensures Clear(Apply(s, step), c, ident)
  {
    if ByClient(step) {
      CallClear(s, step, c, ident);
    }
  }

  lemma CallClear(s: State, step: Step, c: nat, ident: nat)
    requires Clear(s, c, ident) && Enabled(s, step) && ByClient(step) && !step.Insert?
    requires (step.Create? || step.SilentCreate?) ==> step.c != c
    ensures Clear(Apply(s, step), c, ident)
  {
    if c in s.clients && s.clients[c].targets != [] {
      FitRest(s.clients[c], s.issued, ident);
    }
  }

  // ---------------------------------------------------------------- histories

  /** The life of one call: the run before it, its MailCreate, and the run after. */
  datatype Life = Life(before: seq<Step>, c: nat, from: string, targets: seq<Target>, body: Bytes, after: seq<Step>)

  ghost predicate IsLife(l: Life, m: Regime) {
    && IsRun(INIT, l.before, m)
    && var s := Final(INIT, l.before, m);
    && Allowed(s, Create(l.c, l.from, l.targets, l.body), m)
    && IsRun(DoCreate(s, l.c, l.from, l.targets, l.body), l.after, m)
    && NoNewCall(l.after, l.c)
  }

  /** Number c is not used for another call. */
  ghost predicate NoNewCall(steps: seq<Step>, c: nat) {
    forall n :: 0 <= n < |steps| && (steps[n].Create? || steps[n].SilentCreate?) ==> steps[n].c != c
  }

  ghost function End(l: Life, m: Regime): State
    requires IsLife(l, m)
  {
    Final(DoCreate(Final(INIT, l.before, m), l.c, l.from, l.targets, l.body), l.after, m)
  }

  lemma {:induction false} RunClear(s: State, steps: seq<Step>, m: Regime, c: nat, ident: nat)
    requires Safe(s) && Callers(s.clients, s.clock) && Clear(s, c, ident) && ident < s.clock
    requires IsRun(s, steps, m) && m.a1 && m.a2 && NoNewCall(steps, c)
    ensures Safe(Final(s, steps, m)) && Clear(Final(s, steps, m), c, ident)
    decreases |steps|
  {
    if steps != [] {
      StepSafe(s, steps[0]);
      StepCallers(s, steps[0]);
      StepClear(s, steps[0], c, ident);
      ClockRuns(s, steps[0]);
      RunClear(Apply(s, steps[0]), steps[1..], m, c, ident);
    }
  }

  lemma {:induction false} RunCallers(s: State, steps: seq<Step>, m: Regime)
    requires Callers(s.clients, s.clock) && IsRun(s, steps, m)
    ensures Callers(Final(s, steps, m).clients, Final(s, steps, m).clock)
    decreases |steps|
  {
    if steps != [] {
      StepCallers(s, steps[0]);
      RunCallers(Apply(s, steps[0]), steps[1..], m);
    }
  }

  /** A call with fit recipients is never refused one, whatever the others do. */
  lemma FitNeverRefused(l: Life, m: Regime)
    requires IsLife(l, m) && m.a1 && m.a2 && Fit(l.targets)
    ensures !Refuses(End(l, m), l.c)
  {
    var s := Final(INIT, l.before, m);
    InitSafe();
    RunSafe(INIT, l.before, m);
    RunCallers(INIT, l.before, m);
    var create := Create(l.c, l.from, l.targets, l.body);
    StepSafe(s, create);
    StepCallers(s, create);
    CreateClear(s, create);
    RunClear(Apply(s, create), l.after, m, l.c, s.clock);
    ClearInserts(End(l, m), l.c, s.clock);
  }

  lemma CreateClear(s: State, create: Step)
    requires create.Create? && Fit(create.targets) && Numbered(s.issued, s.mails, s.clock)
    ensures Clear(DoCreate(s, create.c, create.from, create.targets, create.body), create.c, s.clock)
  {
  }

  // ------------------------------------------------------------------- refused

  ghost predicate NoCalls(steps: seq<Step>) {
    forall n :: 0 <= n < |steps| ==> !steps[n].Create? && !steps[n].SilentCreate?
  }

  /** Starting with rows at `dests`, the recipients run into one that is refused. */
  predicate Blocked(dests: set<string>, ts: seq<Target>)
    decreases |ts|
  {
    && ts != []
    && match ts[0]
       case Invalid => true
       case Local => Blocked(dests, ts[1..])
       case Remote(d, _) => d in dests || Blocked(dests + {d}, ts[1..])
  }

  lemma {:induction false} UnblockedFit(dests: set<string>, ts: seq<Target>)
    requires !Blocked(dests, ts)
    ensures Fit(ts) && forall t :: t in ts && t.Remote? ==> t.dest !in dests
    decreases |ts|
  {
    if ts != [] {
      var rest := ts[1..];
      UnblockedFit(if ts[0].Remote? then dests + {ts[0].dest} else dests, rest);
      assert forall a :: 1 <= a < |ts| ==> ts[a] == rest[a - 1] && ts[a] in rest;
      assert ts == [ts[0]] + rest;
    }
  }

  /** Inserting and kicking alone, the call comes to the recipient that is refused. */
  lemma {:induction false} RunsIntoRefusal(s: State, c: nat, dests: set<string>, m: Regime) returns (after: seq<Step>)
    requires c in s.clients && s.clients[c].kick.None? && s.clients[c].id in s.mails
    requires Blocked(dests, s.clients[c].targets)
    requires forall d :: d in dests ==> Key(d, s.clients[c].id) in s.queue
    ensures IsRun(s, after, m) && NoCalls(after) && Refuses(Final(s, after, m), c)
    ensures Final(s, after, m).clients[c].id == s.clients[c].id
    decreases |s.clients[c].targets|
  {
    var q := s.clients[c];
    if Refuses(s, c) {
      return [];
    }
    var s1 := InsertNext(s, c);
    if q.targets[0].Local? {
      var rest := RunsIntoRefusal(s1, c, dests, m);
      after := Prepend(s, Insert(c), rest, m);
    } else {
      var g := FreshId(s1.workers.Keys);
      var s2 := DoKick(s1, c, g);
      KickedOn(s, c, g);
      var rest := RunsIntoRefusal(s2, c, dests + {q.targets[0].dest}, m);
      after := PrependRow(s, c, g, rest, m);
    }
  }

  lemma PrependRow(s: State, c: nat, g: nat, rest: seq<Step>, m: Regime) returns (steps: seq<Step>)
    requires Inserts(s, c) && g !in s.workers && NoCalls(rest)
    requires IsRun(DoKick(InsertNext(s, c), c, g), rest, m)
    ensures IsRun(s, steps, m) && NoCalls(steps)
    ensures Final(s, steps, m) == Final(DoKick(InsertNext(s, c), c, g), rest, m)
  {
    var later := Prepend(InsertNext(s, c), Kick(c, g), rest, m);
    steps := Prepend(s, Insert(c), later, m);
  }

  lemma KickedOn(s: State, c: nat, g: nat)
    requires Inserts(s, c) && g !in s.workers
    ensures var q, s2 := s.clients[c], DoKick(InsertNext(s, c), c, g);
      && s2.clients[c] == q.(targets := q.targets[1..], kick := None)
      && s2.mails == s.mails
      && s2.queue.Keys == s.queue.Keys + {Key(q.targets[0].dest, q.id)}
  {
  }

  lemma Prepend(s: State, step: Step, rest: seq<Step>, m: Regime) returns (steps: seq<Step>)
    requires Allowed(s, step, m) && IsRun(Apply(s, step), rest, m)
    requires NoCalls(rest) && !step.Create? && !step.SilentCreate?
    ensures steps == [step] + rest && IsRun(s, steps, m) && NoCalls(steps)
    ensures Final(s, steps, m) == Final(Apply(s, step), rest, m)
  {
    steps := [step] + rest;
    assert steps[1..] == rest;
    assert forall n :: 1 <= n < |steps| ==> steps[n] == rest[n - 1];
  }

  /** A call with other recipients has a life without storage errors in which it is refused one. */
  lemma UnfitRefused(from: string, targets: seq<Target>, body: Bytes, m: Regime) returns (l: Life)
    requires !Fit(targets) && forall t :: t in targets && t.Remote? ==> t.dest != "Outbox"
    ensures IsLife(l, m) && l.targets == targets && l.from == from && l.body == body && Refuses(End(l, m), l.c)
    ensures l.before == [] && NoCalls(l.after) && End(l, m).clients[l.c].id != 0
  {
    if !Blocked({}, targets) {
      UnblockedFit({}, targets);
    }
    var s := DoCreate(INIT, 0, from, targets, body);
    var after := RunsIntoRefusal(s, 0, {}, m);
    l := Life([], 0, from, targets, body, after);
    assert Final(INIT, [], m) == INIT;
    assert Allowed(INIT, Create(0, from, targets, body), m);
  }

  /**
   Under A1 and A2, with storage errors or without, a call is never refused a recipient
   exactly when its recipients are fit.
   */
  lemma NeverRefusedUnderGuardsIff(targets: seq<Target>, m: Regime)
    requires (m == GUARDED || m == RELIABLE) && NoOutbox(targets)
    ensures Fit(targets) <==> forall l :: IsLife(l, m) && l.targets == targets ==> !Refuses(End(l, m), l.c)
  {
    if Fit(targets) {
      forall l | IsLife(l, m) && l.targets == targets
        ensures !Refuses(End(l, m), l.c)
      {
        FitNeverRefused(l, m);
      }
    } else {
      var l := UnfitRefused("", targets, [], m);
    }
  }

  // ------------------------------------------------------- without the guards

  /**
   A call that comes to two remote recipients can be refused the second though it is
   fit: a worker delivers the first copy, marks the mail and expunges it, and the
   second row has no mail to refer to.
   */
  lemma MultiRefused(from: string, body: Bytes, targets: seq<Target>) returns (s: State)
    requires NoOutbox(targets) && !Single(targets)
    ensures Reached(From([targets]), s, NO_A1) && Refuses(s, 0) && HasMail(s, 0)
  {
    var trail := From([targets]);
    var d, rcpt, rest := FirstRow(from, body, targets, NO_A1);
    DeliversOne(trail, Kicked(from, body, d, rcpt, rest), 0, Ref(1, from, rcpt, 1), NO_A1);
    MarksEarly(trail, from, body, d, rcpt, rest);
    var s1 := MarkedEarly(from, body, d, rcpt, rest);
    Next(trail, s1, Expunge(0), NO_A1);
    s := NothingToInsert(trail, DoExpunge(s1, 0));
  }

  lemma NothingToInsert(trail: Trail, s0: State) returns (s: State)
    requires Reached(trail, s0, NO_A1) && s0.mails == map[] && HasMail(s0, 0)
    requires s0.clients[0].kick.None? && Ahead(s0.clients[0].targets)
    ensures Reached(trail, s, NO_A1) && Refuses(s, 0) && HasMail(s, 0)
  {
    var ts := SkipsLocals(trail, s0, 0, NO_A1);
    s := s0.(clients := s0.clients[0 := s0.clients[0].(targets := ts)]);
  }

  /** Call c is in progress, and its MailCreate stored a mail. */
  ghost predicate HasMail(s: State, c: nat) {
    c in s.clients && s.clients[c].id != 0
  }

  /** An unfit call is refused in a run of that call alone. */
  lemma UnfitRuns(targets: seq<Target>, m: Regime) returns (steps: seq<Step>, c: nat)
    requires NoOutbox(targets) && !Fit(targets)
    ensures IsRun(INIT, steps, m) && AllCall(steps, targets)
    ensures HasMail(Final(INIT, steps, m), c) && Refuses(Final(INIT, steps, m), c)
  {
    var l := UnfitRefused("", targets, [], m);
    var create := Create(l.c, l.from, l.targets, l.body);
    steps, c := [create] + l.after, l.c;
    assert Final(INIT, [], m) == INIT && Allowed(INIT, create, m);
    assert steps[1..] == l.after;
    assert forall n :: 1 <= n < |steps| ==> steps[n] == l.after[n - 1];
    assert Final(INIT, steps, m) == End(l, m);
  }

  /** Fit calls that come to one remote recipient at most are never refused it. */
  lemma SingleFitRuns(steps: seq<Step>, targets: seq<Target>, m: Regime, c: nat)
    requires IsRun(INIT, steps, m) && AllCall(steps, targets) && Fit(targets) && Single(targets)
    requires HasMail(Final(INIT, steps, m), c)
    ensures !Refuses(Final(INIT, steps, m), c)
  {
    InitSolo();
    InitSafe();
    SingleIsGuarded(INIT, steps, m);
    RunOrigins([], INIT, steps, m, false);
    assert [] + steps == steps;
    var s := Final(INIT, steps, m);
    assert HasMaker(steps, s.clients[c]);
    var n :| 0 <= n < |steps| && Made(steps[n], s.clients[c]);
    SoloInserts(s, c, targets);
  }

  lemma SoloInserts(s: State, c: nat, targets: seq<Target>)
    requires Safe(s) && Solo(s) && HasMail(s, c) && Fit(targets)
    requires forall t :: t in s.clients[c].targets ==> t in targets
    ensures !Refuses(s, c)
  {
    if Enabled(s, Insert(c)) && !s.clients[c].targets[0].Local? {
      var q := s.clients[c];
      assert q.targets[0] in q.targets && !q.targets[0].Invalid?;
      assert Ahead(q.targets) && OwnMail(q, s.mails);
      var k := Key(q.targets[0].dest, q.id);
      assert k in s.queue ==> RowOk(s.mails, k, s.queue[k], s.issued);
    }
  }

  /**
   At the end of this run, whose calls all have the recipients `targets`, call c, whose
   MailCreate stored a mail, is refused its next recipient.
   */
  ghost predicate RefusedIn(steps: seq<Step>, targets: seq<Target>, m: Regime, c: nat) {
    && IsRun(INIT, steps, m) && AllCall(steps, targets)
    && var s := Final(INIT, steps, m); HasMail(s, c) && Refuses(s, c)
  }

  /**
   With nothing asked of the schedule, and whatever fails if anything may, calls with
   these recipients are never refused one exactly when no recipient is unusable, no two
   are at one node, and they come to one remote recipient at most.
   */
  lemma NeverRefusedIff(targets: seq<Target>, m: Regime)
    requires NoOutbox(targets) && !m.a1 && !m.a2
    ensures Fit(targets) && Single(targets) <==> forall steps, c :: !RefusedIn(steps, targets, m, c)
  {
    if !Single(targets) {
      var s := MultiRefused("", [], targets);
      var steps := ReachedFreely(targets, s, NO_A1, m);
      assert RefusedIn(steps, targets, m, 0);
    } else if !Fit(targets) {
      var steps, c := UnfitRuns(targets, m);
      assert RefusedIn(steps, targets, m, c);
    } else {
      forall steps, c
        ensures !RefusedIn(steps, targets, m, c)
      {
        if IsRun(INIT, steps, m) && AllCall(steps, targets) && HasMail(Final(INIT, steps, m), c) {
          SingleFitRuns(steps, targets, m, c);
        }
      }
    }
  }

  /**
   The same of one call among others: if every call of the run comes to one remote
   recipient at most, one whose recipients are fit is never refused.
   */
  lemma SingleFitNeverRefused(l: Life, m: Regime)
    requires IsLife(l, m) && SingleCalls(l.before) && SingleCalls(l.after) && Single(l.targets) && Fit(l.targets)
    ensures !Refuses(End(l, m), l.c)
  {
    var s, create := Final(INIT, l.before, m), Create(l.c, l.from, l.targets, l.body);
    InitSolo();
    SingleIsGuarded(INIT, l.before, m);
    SoloGuards(s, create);
    StepSafe(s, create);
    StepSolo(s, create);
    SingleIsGuarded(Apply(s, create), l.after, m);
    assert IsLife(l, Guarding(m)) && End(l, Guarding(m)) == End(l, m);
    FitNeverRefused(l, Guarding(m));
  }
}

/**
 No delivery is written twice, under any schedule and whatever storage calls
 fail, as long as every row whose body has been written does get deleted.
 */
module DeliveryOnce {
  import opened Base
  import opened DeliveryProtocol
  import opened DeliverySafety
  import opened DeliveryTickets

  type Log = multiset<Delivery>

  /** A body has been written for ticket t. */
  ghost predicate Logged(log: Log, t: nat) {
    exists x :: x in log && x.ticket == t
  }

  /** The log has one entry for a ticket at most, and none for tickets not issued. */
  ghost predicate OneEach(log: Log, issued: Issued) {
    && (forall x :: log[x] <= 1)
    && (forall x, y :: x in log && y in log && x.ticket == y.ticket ==> x == y)
    && (forall x :: x in log ==> x.ticket in issued)
  }

  /** Worker w may yet write for reference r. */
  ghost predicate ToSend(w: Worker, r: Ref) {
    r in w.refs || (w.pc.Sending? && w.pc.ref == r)
  }

  ghost predicate Unsent(workers: Workers, log: Log) {
    forall g, r :: g in workers && ToSend(workers[g], r) ==> !Logged(log, r.ticket)
  }

  /** Some worker has written the delivery of this row and not yet deleted the row. */
  ghost predicate InTransit(workers: Workers, k: Key, ticket: nat) {
    exists g :: g in workers && AtWritten(workers[g], k, ticket)
  }

  ghost predicate AtWritten(w: Worker, k: Key, ticket: nat) {
    w.pc.Written? && k == Key(w.dest, w.pc.ref.id) && w.pc.ref.ticket == ticket
  }

  ghost predicate WrittenInTransit(workers: Workers, queue: Queue, log: Log) {
    forall k :: k in queue && Logged(log, queue[k].ticket) ==> InTransit(workers, k, queue[k].ticket)
  }

  ghost predicate AllOrdered(workers: Workers) {
    forall g :: g in workers ==> Ordered(workers[g])
  }

  ghost predicate Once(s: State) {
    && Locked(s.running, s.workers) && Ticketed(s) && AllOrdered(s.workers)
    && OneEach(s.log, s.issued) && Unsent(s.workers, s.log) && WrittenInTransit(s.workers, s.queue, s.log)
  }

  // ------------------------------------------------------------------- ordering

  lemma StepOrdered(s: State, step: Step)
    requires AllOrdered(s.workers) && Enabled(s, step)
    ensures AllOrdered(Apply(s, step).workers)
  {
    if ByWorker(step) {
      WorkerOrdered(s, step);
    } else {
      OthersOrdered(s, step);
    }
  }

  lemma OthersOrdered(s: State, step: Step)
    requires AllOrdered(s.workers) && Enabled(s, step) && !ByWorker(step)
    ensures AllOrdered(Apply(s, step).workers)
  {
    if Plain(step) {
      PlainStep(s, step);
    } else if step.Insert? {
      InsertLeaves(s, step.c);
    }
  }

  lemma WorkerOrdered(s: State, step: Step)
    requires AllOrdered(s.workers) && Enabled(s, step) && ByWorker(step)
    ensures AllOrdered(Apply(s, step).workers)
  {
    if !step.Finish? {
      MovesOne(s, step);
      assert Ordered(s.workers[step.g]);
      MovedOrdered(s, step);
    }
  }

  lemma MovedOrdered(s: State, step: Step)
    requires Enabled(s, step) && ByWorker(step) && !step.Finish? && Ordered(s.workers[step.g])
    ensures Ordered(Apply(s, step).workers[step.g])
  {
  }

  // ------------------------------------------------------------- quiet steps

  /** A step that writes nothing, adds no row, lists no new reference and keeps workers at Written. */
  ghost predicate Quiet(s: State, s': State) {
    && s'.log == s.log && s'.issued == s.issued
    && (forall k :: k in s'.queue ==> k in s.queue && s'.queue[k] == s.queue[k])
    && (forall g :: g in s.workers && s.workers[g].pc.Written? ==> g in s'.workers && s'.workers[g] == s.workers[g])
    && (forall g, r :: g in s'.workers && ToSend(s'.workers[g], r) ==> g in s.workers && ToSend(s.workers[g], r))
  }

  lemma QuietKeeps(s: State, s': State)
    requires Quiet(s, s') && OneEach(s.log, s.issued)
    requires Unsent(s.workers, s.log) && WrittenInTransit(s.workers, s.queue, s.log)
    ensures OneEach(s'.log, s'.issued)
    ensures Unsent(s'.workers, s'.log) && WrittenInTransit(s'.workers, s'.queue, s'.log)
  {
    forall k | k in s'.queue && Logged(s'.log, s'.queue[k].ticket)
      ensures InTransit(s'.workers, k, s'.queue[k].ticket)
    {
      var g :| g in s.workers && AtWritten(s.workers[g], k, s.queue[k].ticket);
      assert g in s'.workers && AtWritten(s'.workers[g], k, s.queue[k].ticket);
    }
  }

  lemma QuietOther(s: State, step: Step)
    requires Enabled(s, step) && !ByWorker(step) && !step.Restart? && (step.Insert? ==> !Inserts(s, step.c))
    ensures Quiet(s, Apply(s, step))
  {
    if Plain(step) {
      PlainStep(s, step);
    } else if step.Insert? {
      InsertLeaves(s, step.c);
    } else if step.Kick? {
      QuietStart(s, s.clients[step.c].kick.value, step.g);
    } else {
      QuietStart(s, s.manager[0], step.g);
    }
  }

  lemma QuietStart(s: State, d: string, g: nat)
    requires g !in s.workers
    ensures Quiet(s, StartQueue(s, d, g))
  {
  }

  lemma QuietWorker(s: State, step: Step)
    requires Enabled(s, step) && ByWorker(step) && !DropFails(s, step)
    requires !Reads(step) && !step.SendOk? && !step.DropRow?
    ensures Quiet(s, Apply(s, step))
  {
    QueueOnlyShrinks(s, step);
    if !step.Finish? {
      MovesOne(s, step);
    }
    QuietWorkers(s, step);
  }

  lemma QuietWorkers(s: State, step: Step)
    requires Enabled(s, step) && ByWorker(step) && !DropFails(s, step)
    requires !Reads(step) && !step.SendOk? && !step.DropRow?
    ensures var s' := Apply(s, step);
      && s'.log == s.log && !s.workers[step.g].pc.Written?
      && forall r :: step.g in s'.workers && ToSend(s'.workers[step.g], r) ==> ToSend(s.workers[step.g], r)
  {
  }

  // -------------------------------------------------------------- the others

  lemma SnapshotOnce(s: State, g: nat, refs: seq<Ref>)
    requires Once(s) && Enabled(s, CutSnapshot(g, refs))
    ensures var s' := DoSnapshot(s, g, refs);
      Unsent(s'.workers, s'.log) && WrittenInTransit(s'.workers, s'.queue, s'.log)
  {
    var s', dest := DoSnapshot(s, g, refs), s.workers[g].dest;
    forall r | r in refs
      ensures !Logged(s.log, r.ticket)
    {
      assert RowIs(s, dest, r);
      assert !InTransit(s.workers, Key(dest, r.id), r.ticket);
    }
    forall k | k in s.queue && Logged(s.log, s.queue[k].ticket)
      ensures InTransit(s'.workers, k, s.queue[k].ticket)
    {
      var h :| h in s.workers && AtWritten(s.workers[h], k, s.queue[k].ticket);
      assert h in s'.workers && AtWritten(s'.workers[h], k, s.queue[k].ticket);
    }
  }

  /** What is about to be written has not been written before. */
  lemma NotYetWritten(s: State, g: nat)
    requires Once(s) && Enabled(s, SendOk(g))
    ensures !Logged(s.log, Sent(s.workers[g]).ticket)
  {
    assert ToSend(s.workers[g], s.workers[g].pc.ref);
  }

  lemma SendOkOnce(s: State, g: nat)
    requires Once(s) && Enabled(s, SendOk(g))
    ensures var s' := DoSendOk(s, g);
      OneEach(s'.log, s'.issued) && Unsent(s'.workers, s'.log) && WrittenInTransit(s'.workers, s'.queue, s'.log)
  {
    NotYetWritten(s, g);
    assert Holds(s.workers[g], s.workers[g].pc.ref);
    SendOkLog(s, g);
    SendOkUnsent(s, g);
    SendOkTransit(s, g);
  }

  lemma SendOkLog(s: State, g: nat)
    requires Enabled(s, SendOk(g)) && OneEach(s.log, s.issued)
    requires !Logged(s.log, Sent(s.workers[g]).ticket) && Sent(s.workers[g]).ticket in s.issued
    ensures OneEach(DoSendOk(s, g).log, s.issued)
    ensures forall t :: Logged(DoSendOk(s, g).log, t) ==> t == Sent(s.workers[g]).ticket || Logged(s.log, t)
  {
  }

  lemma SendOkUnsent(s: State, g: nat)
    requires Once(s) && Enabled(s, SendOk(g))
    requires forall t :: Logged(DoSendOk(s, g).log, t) ==> t == Sent(s.workers[g]).ticket || Logged(s.log, t)
    ensures Unsent(DoSendOk(s, g).workers, DoSendOk(s, g).log)
  {
    var w, s' := s.workers[g], DoSendOk(s, g);
    assert Ordered(w) && Holds(w, w.pc.ref);
    forall h, r | h in s'.workers && ToSend(s'.workers[h], r)
      ensures !Logged(s'.log, r.ticket)
    {
      assert ToSend(s.workers[h], r) && Holds(s.workers[h], r);
      assert Key(s.workers[h].dest, r.id) != Key(w.dest, w.pc.ref.id);
    }
  }

  lemma SendOkTransit(s: State, g: nat)
    requires Enabled(s, SendOk(g)) && WrittenInTransit(s.workers, s.queue, s.log)
    requires RowsTicketed(s.queue, s.issued)
    requires var r := s.workers[g].pc.ref; Stands(s.issued, r.ticket, Key(s.workers[g].dest, r.id), r.from, r.rcpt)
    requires forall t :: Logged(DoSendOk(s, g).log, t) ==> t == Sent(s.workers[g]).ticket || Logged(s.log, t)
    ensures var s' := DoSendOk(s, g); WrittenInTransit(s'.workers, s'.queue, s'.log)
  {
    var s' := DoSendOk(s, g);
    forall k | k in s.queue && Logged(s'.log, s.queue[k].ticket)
      ensures InTransit(s'.workers, k, s.queue[k].ticket)
    {
      if s.queue[k].ticket == Sent(s.workers[g]).ticket {
        assert AtWritten(s'.workers[g], k, s.queue[k].ticket);
      } else {
        var h :| h in s.workers && AtWritten(s.workers[h], k, s.queue[k].ticket);
        assert h in s'.workers && AtWritten(s'.workers[h], k, s.queue[k].ticket);
      }
    }
  }

  lemma DropRowOnce(s: State, g: nat)
    requires Once(s) && Enabled(s, DropRow(g))
    ensures var s' := DoDropRow(s, g);
      Unsent(s'.workers, s'.log) && WrittenInTransit(s'.workers, s'.queue, s'.log)
  {
    DropRowUnsent(s, g);
    DropRowTransit(s, g);
  }

  lemma DropRowUnsent(s: State, g: nat)
    requires Unsent(s.workers, s.log) && Enabled(s, DropRow(g))
    ensures Unsent(DoDropRow(s, g).workers, s.log)
  {
    var s' := DoDropRow(s, g);
    forall h, r | h in s'.workers && ToSend(s'.workers[h], r)
      ensures !Logged(s.log, r.ticket)
    {
      assert ToSend(s.workers[h], r);
    }
  }

  lemma DropRowTransit(s: State, g: nat)
    requires WrittenInTransit(s.workers, s.queue, s.log) && Enabled(s, DropRow(g))
    ensures var s' := DoDropRow(s, g); WrittenInTransit(s'.workers, s'.queue, s'.log)
  {
    var s' := DoDropRow(s, g);
    forall k | k in s'.queue && Logged(s.log, s'.queue[k].ticket)
      ensures InTransit(s'.workers, k, s'.queue[k].ticket)
    {
      var h :| h in s.workers && AtWritten(s.workers[h], k, s.queue[k].ticket);
      assert h != g && h in s'.workers && AtWritten(s'.workers[h], k, s'.queue[k].ticket);
    }
  }

  lemma InsertOnce(s: State, c: nat)
    requires Once(s) && Inserts(s, c)
    ensures var s' := InsertNext(s, c);
      OneEach(s'.log, s'.issued) && Unsent(s'.workers, s'.log) && WrittenInTransit(s'.workers, s'.queue, s'.log)
  {
    var s' := InsertNext(s, c);
    assert !Logged(s.log, s.clock);
    forall k | k in s'.queue && Logged(s.log, s'.queue[k].ticket)
      ensures InTransit(s'.workers, k, s'.queue[k].ticket)
    {
      assert k in s.queue && s'.queue[k] == s.queue[k];
    }
  }

  /** When no row delete is under way, nothing written has a row left. */
  lemma RestartOnce(s: State)
    requires Once(s) && !DropFails(s, Restart)
    ensures Once(DoRestart(s))
  {
    forall k | k in s.queue
      ensures !Logged(s.log, s.queue[k].ticket)
    {
      assert !InTransit(s.workers, k, s.queue[k].ticket);
    }
  }

  // ---------------------------------------------------------------- all steps

  /** Every step but a failed row delete keeps each delivery written once at most. */
  lemma StepOnce(s: State, step: Step)
    requires Once(s) && Enabled(s, step) && !DropFails(s, step)
    ensures Once(Apply(s, step))
  {
    if step.Restart? {
      RestartOnce(s);
    } else {
      LockedStep(s, step);
      StepTicketed(s, step);
      StepOrdered(s, step);
      StepLog(s, step);
    }
  }

  lemma StepLog(s: State, step: Step)
    requires Once(s) && Enabled(s, step) && !DropFails(s, step) && !step.Restart?
    ensures var s' := Apply(s, step);
      OneEach(s'.log, s'.issued) && Unsent(s'.workers, s'.log) && WrittenInTransit(s'.workers, s'.queue, s'.log)
  {
    if Reads(step) {
      SnapshotOnce(s, step.g, step.refs);
    } else if step.SendOk? {
      SendOkOnce(s, step.g);
    } else if step.DropRow? {
      DropRowOnce(s, step.g);
    } else if step.Insert? && Inserts(s, step.c) {
      InsertOnce(s, step.c);
    } else {
      StepQuiet(s, step);
      QuietKeeps(s, Apply(s, step));
    }
  }

  lemma StepQuiet(s: State, step: Step)
    requires Enabled(s, step) && !DropFails(s, step) && !step.Restart?
    requires !Reads(step) && !step.SendOk? && !step.DropRow? && (step.Insert? ==> !Inserts(s, step.c))
    ensures Quiet(s, Apply(s, step))
  {
    if ByWorker(step) {
      QuietWorker(s, step);
    } else {
      QuietOther(s, step);
    }
  }

  lemma {:induction false} RunOnce(s: State, steps: seq<Step>, m: Regime)
    requires Once(s) && IsRun(s, steps, m) && !m.errors.AnyErrors?
    ensures Once(Final(s, steps, m))
    decreases |steps|
  {
    if steps != [] {
      NoErrorsDrop(s, steps[0], m.errors);
      StepOnce(s, steps[0]);
      RunOnce(Apply(s, steps[0]), steps[1..], m);
    }
  }

  lemma NoErrorsDrop(s: State, step: Step, errors: Errors)
    requires Enabled(s, step) && Errs(s, step, errors) && !errors.AnyErrors?
    ensures !DropFails(s, step)
  {
  }
}

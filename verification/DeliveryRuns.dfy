/**
 The delivery queue's guarantees over whole runs from the empty Outbox, with
 any number of workers, QueueFor calls and manager ticks interleaved statement
 by statement.
 */
module DeliveryRuns {
  import opened Base
  import opened DeliveryProtocol
  import opened DeliverySafety
  import opened DeliveryTickets
  import opened DeliveryOnce
  import opened DeliverySweep

  /** A1 and A2 hold; storage calls may fail, silently too, and the process restart. */
  const GUARDED := Regime(true, true, AnyErrors)
  /** A1 and A2 hold and no storage call fails. */
  const RELIABLE := Regime(true, true, NoErrors)
  /** No storage call fails; nothing else is assumed of the schedule. */
  const FAULTLESS := Regime(false, false, NoErrors)
  /** Whatever fails, a row whose body has been written does get deleted. */
  const DELETING := Regime(false, false, DropsSucceed)
  /** Any schedule at all. */
  const ANY := Regime(false, false, AnyErrors)

  // ---------------------------------------------------------------- exclusion

  lemma {:induction false} RunLocked(s: State, steps: seq<Step>, m: Regime)
    requires Locked(s.running, s.workers) && IsRun(s, steps, m)
    ensures var s' := Final(s, steps, m); Locked(s'.running, s'.workers)
    decreases |steps|
  {
    if steps != [] {
      LockedStep(s, steps[0]);
      RunLocked(Apply(s, steps[0]), steps[1..], m);
    }
  }

  /** In any run, a destination's flag is set exactly when one worker serves it. */
  lemma WorkerExclusion(steps: seq<Step>)
    requires IsRun(INIT, steps, ANY)
    ensures var s := Final(INIT, steps, ANY);
      forall d :: d in s.running <==> exists g :: IsOnlyWorker(s.workers, d, g)
  {
    RunLocked(INIT, steps, ANY);
    var s := Final(INIT, steps, ANY);
    forall d | d in s.running
      ensures exists g :: IsOnlyWorker(s.workers, d, g)
    {
      var g :| g in s.workers && s.workers[g].dest == d;
      assert IsOnlyWorker(s.workers, d, g);
    }
  }

  ghost predicate IsOnlyWorker(workers: Workers, d: string, g: nat) {
    g in workers && forall h :: h in workers ==> (workers[h].dest == d <==> h == g)
  }

  // ------------------------------------------------------------- conservation

  lemma InitSafe()
    ensures Safe(INIT) && Once(INIT) && Swept(INIT)
  {
  }

  /** The issued tickets and the log never lose an entry. */
  lemma HistoryStep(s: State, step: Step)
    requires Enabled(s, step) && Numbered(s.issued, s.mails, s.clock)
    ensures var s' := Apply(s, step); IsHistory(s, s')
  {
    if step.SendOk? {
    } else if step.Insert? {
      InsertHistory(s, step.c);
    } else if ByWorker(step) {
      WorkerShrinks(s, step);
      LogKept(s, step);
    }
  }

  ghost predicate IsHistory(s: State, s': State) {
    (forall t :: t in s.issued ==> t in s'.issued && s'.issued[t] == s.issued[t]) && s.log <= s'.log
  }

  lemma InsertHistory(s: State, c: nat)
    requires Enabled(s, Insert(c)) && Numbered(s.issued, s.mails, s.clock)
    ensures IsHistory(s, InsertNext(s, c))
  {
  }

  lemma LogKept(s: State, step: Step)
    requires Enabled(s, step) && ByWorker(step) && !step.SendOk?
    ensures Apply(s, step).log == s.log
  {
  }

  lemma {:induction false} RunHistory(s: State, steps: seq<Step>, m: Regime)
    requires IsRun(s, steps, m) && Numbered(s.issued, s.mails, s.clock)
    ensures var s' := Final(s, steps, m); IsHistory(s, s') && Numbered(s'.issued, s'.mails, s'.clock)
    decreases |steps|
  {
    if steps != [] {
      HistoryStep(s, steps[0]);
      StepNumbered(s, steps[0]);
      RunHistory(Apply(s, steps[0]), steps[1..], m);
    }
  }

  /**
   Conservation.  Whatever storage calls fail and however often the process
   restarts, every delivery ever queued, at any
   point of a run, later either still has its row, whose mail is the one it was
   queued for, or had its full body written to its destination; and nothing but
   queued deliveries is ever written.
   */
  lemma Conservation(before: seq<Step>, after: seq<Step>)
    requires IsRun(INIT, before, GUARDED) && IsRun(Final(INIT, before, GUARDED), after, GUARDED)
    ensures var s := Final(INIT, before, GUARDED);
      var s' := Final(s, after, GUARDED);
      && (forall t :: t in s.issued ==> Pending(s', s.issued[t]) || s.issued[t] in s'.log)
      && (forall x :: x in s'.log ==> x.ticket in s'.issued && s'.issued[x.ticket] == x)
  {
    InitSafe();
    RunSafe(INIT, before, GUARDED);
    var s := Final(INIT, before, GUARDED);
    RunSafe(s, after, GUARDED);
    RunHistory(s, after, GUARDED);
    AllAccounted(Final(s, after, GUARDED));
  }

  lemma AllAccounted(s: State)
    requires RowsOk(s.mails, s.queue, s.issued) && Conserved(s.issued, s.queue, s.log)
    requires Numbered(s.issued, s.mails, s.clock)
    ensures forall t :: t in s.issued ==> Pending(s, s.issued[t]) || s.issued[t] in s.log
  {
    forall t | t in s.issued && Queued(s.queue, s.issued[t])
      ensures Pending(s, s.issued[t])
    {
      assert RowOk(s.mails, s.issued[t].key, s.queue[s.issued[t].key], s.issued);
    }
  }

  /** The delivery's row is in the table, and its mail is there unmarked. */
  ghost predicate Pending(s: State, x: Delivery) {
    && x.key in s.queue && s.queue[x.key] == Row(x.from, x.rcpt, x.ticket)
    && x.key.id in s.mails && s.mails[x.key.id] == OutMail(x.ident, x.body, false)
  }

  /** No expunge in such a run ever cascades away a queue row. */
  lemma ExpungeLosesNothing(steps: seq<Step>, g: nat)
    requires IsRun(INIT, steps, GUARDED)
    requires Enabled(Final(INIT, steps, GUARDED), Expunge(g))
    ensures var s := Final(INIT, steps, GUARDED); Apply(s, Expunge(g)).queue == s.queue
  {
    InitSafe();
    RunSafe(INIT, steps, GUARDED);
    ExpungeKeepsQueue(Final(INIT, steps, GUARDED));
  }

  /**
   Although ids are reused, an unfinished reference still names the row it was
   read from and the mail that row was queued for; so MailSelect never comes
   back empty and reads that very mail.
   */
  lemma SnapshotsStayRight(steps: seq<Step>, g: nat, r: Ref)
    requires IsRun(INIT, steps, GUARDED)
    requires var s := Final(INIT, steps, GUARDED); g in s.workers && Unfinished(s.workers[g], r)
    ensures var s := Final(INIT, steps, GUARDED);
      && r.ticket in s.issued
      && s.issued[r.ticket].key == Key(s.workers[g].dest, r.id)
      && s.issued[r.ticket].from == r.from && s.issued[r.ticket].rcpt == r.rcpt
      && Pending(s, s.issued[r.ticket])
    ensures var s := Final(INIT, steps, GUARDED);
      Enabled(s, Select(g)) && r == s.workers[g].refs[0] ==>
        Apply(s, Select(g)).workers[g].pc == Sending(r, s.issued[r.ticket].ident, s.issued[r.ticket].body)
  {
    InitSafe();
    RunSafe(INIT, steps, GUARDED);
    var s := Final(INIT, steps, GUARDED);
    assert WorkerOk(s, s.workers[g]);
    var k := Key(s.workers[g].dest, r.id);
    assert HasRow(s.queue, s.workers[g].dest, r);
    assert RowOk(s.mails, k, s.queue[k], s.issued);
  }

  /**
   A call only ever queues the mail it created, which is there as long as it has
   rows to insert, unless MailCreate silently created none and returned 0.
   */
  lemma QueuesOwnMail(steps: seq<Step>, c: nat)
    requires IsRun(INIT, steps, GUARDED)
    requires Enabled(Final(INIT, steps, GUARDED), Insert(c))
    ensures var s := Final(INIT, steps, GUARDED);
      var q := s.clients[c];
      && (Ahead(q.targets) ==> (q.id in s.mails <==> q.id != 0))
      && (Inserts(s, c) ==>
            Apply(s, Insert(c)).issued[s.clock] ==
              Delivery(s.clock, q.ident, Key(q.targets[0].dest, q.id), q.from, q.targets[0].rcpt, q.body))
  {
    InitSafe();
    RunSafe(INIT, steps, GUARDED);
    QueuesOwn(Final(INIT, steps, GUARDED), c);
  }

  lemma QueuesOwn(s: State, c: nat)
    requires ClientsOk(s.clients, s.mails) && Numbered(s.issued, s.mails, s.clock) && Enabled(s, Insert(c))
    ensures var q := s.clients[c];
      && (Ahead(q.targets) ==> (q.id in s.mails <==> q.id != 0))
      && (Inserts(s, c) ==>
            InsertNext(s, c).issued[s.clock] ==
              Delivery(s.clock, q.ident, Key(q.targets[0].dest, q.id), q.from, q.targets[0].rcpt, q.body))
  {
    assert Ahead(s.clients[c].targets) && s.clients[c].id != 0 ==> OwnMail(s.clients[c], s.mails);
  }

  lemma MissingMailUnreachable(steps: seq<Step>, g: nat)
    requires IsRun(INIT, steps, GUARDED)
    ensures !Enabled(Final(INIT, steps, GUARDED), DropMissing(g))
  {
    InitSafe();
    RunSafe(INIT, steps, GUARDED);
    var s := Final(INIT, steps, GUARDED);
    assert g in s.workers ==> WorkerOk(s, s.workers[g]);
  }

  // ------------------------------------------------------------ written once

  /**
   No queued delivery is written twice, under any schedule and whatever fails other
   than the deletion of a row already written: each ticket has at most one entry in
   the log, and while its row is queued it has one only if a worker is about to
   delete that row.
   */
  lemma WrittenAtMostOnce(steps: seq<Step>)
    requires IsRun(INIT, steps, DELETING)
    ensures var s := Final(INIT, steps, DELETING);
      && (forall x :: s.log[x] <= 1)
      && (forall x, y :: x in s.log && y in s.log && x.ticket == y.ticket ==> x == y)
      && (forall k, x :: k in s.queue && x in s.log && x.ticket == s.queue[k].ticket ==>
            InTransit(s.workers, k, x.ticket))
  {
    InitSafe();
    RunOnce(INIT, steps, DELETING);
    var s := Final(INIT, steps, DELETING);
    assert forall x :: x in s.log ==> Logged(s.log, x.ticket);
  }

  // ------------------------------------------------------ without storage errors

  lemma {:induction false} RunSwept(s: State, steps: seq<Step>, m: Regime)
    requires Swept(s) && IsRun(s, steps, m) && m.errors.NoErrors?
    ensures Swept(Final(s, steps, m))
    decreases |steps|
  {
    if steps != [] {
      StepSwept(s, steps[0]);
      RunSwept(Apply(s, steps[0]), steps[1..], m);
    }
  }

  /**
   The last remover cleans up, under any schedule: a mail that was queued, has no
   rows left and is not marked has a worker between its own row delete and its mark.
   */
  lemma LastRemoverCleansUp(steps: seq<Step>, i: int)
    requires IsRun(INIT, steps, FAULTLESS)
    requires var s := Final(INIT, steps, FAULTLESS);
      && i in s.mails && !s.mails[i].deleted && EverQueued(s.issued, s.mails[i].ident)
      && !Remaining(s, i)
    ensures var s := Final(INIT, steps, FAULTLESS);
      exists g :: g in s.workers && (s.workers[g].pc.Unqueued? || s.workers[g].pc.Marking?) && s.workers[g].pc.ref.id == i
  {
    InitSafe();
    RunSwept(INIT, steps, FAULTLESS);
    var s := Final(INIT, steps, FAULTLESS);
    assert Abandoned(s, i, {});
    var g :| g in s.workers && Tends(s.workers[g].pc, i);
  }

  /** Once all workers are idle, each mail left was never queued or still has a row. */
  lemma IdleLeavesNoOrphans(steps: seq<Step>)
    requires IsRun(INIT, steps, FAULTLESS)
    requires Final(INIT, steps, FAULTLESS).workers == map[]
    ensures var s := Final(INIT, steps, FAULTLESS);
      forall i :: i in s.mails ==>
        !s.mails[i].deleted && (EverQueued(s.issued, s.mails[i].ident) ==> Remaining(s, i))
  {
    InitSafe();
    RunSwept(INIT, steps, FAULTLESS);
    IdleIsClean(Final(INIT, steps, FAULTLESS));
  }

  lemma IdleIsClean(s: State)
    requires Swept(s) && s.workers == map[]
    ensures forall i :: i in s.mails ==>
      !s.mails[i].deleted && (EverQueued(s.issued, s.mails[i].ident) ==> Remaining(s, i))
  {
    forall i | i in s.mails
      ensures !s.mails[i].deleted
      ensures EverQueued(s.issued, s.mails[i].ident) ==> Remaining(s, i)
    {
      assert !WillExpunge(s.workers) && !Tended(s.workers, i);
      assert Abandoned(s, i, {}) <==> EverQueued(s.issued, s.mails[i].ident) && !Remaining(s, i);
    }
  }
}

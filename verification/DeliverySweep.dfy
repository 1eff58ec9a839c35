/**
 What the delivery queue keeps while no storage call fails, under any schedule:
 the last worker to remove a row of a mail is on its way to mark it, and a marked
 mail has a worker that will still expunge.
 */
module DeliverySweep {
  import opened Base
  import opened DeliveryProtocol
  import opened DeliverySafety
  import opened DeliveryTickets

  // --------------------------------------------------------- last remover

  ghost predicate EverQueued(issued: Issued, ident: nat) {
    exists t :: t in issued && issued[t].ident == ident
  }

  /** Some worker is between deleting its own row of mail i and marking the mail. */
  ghost predicate Tended(workers: Workers, i: int) {
    exists g :: g in workers && Tends(workers[g].pc, i)
  }

  ghost predicate Tends(pc: Pc, i: int) {
    (pc.Unqueued? || pc.Marking?) && pc.ref.id == i
  }

  /** Mail i was queued, is not among the `spared`, and has no rows left. */
  ghost predicate Abandoned(s: State, i: int, spared: set<nat>)
    requires i in s.mails
  {
    s.mails[i].ident !in spared && EverQueued(s.issued, s.mails[i].ident) && NoRowsFor(i, s.queue)
  }

  /** An abandoned mail that is not marked is being tended. */
  ghost predicate LastRemover(s: State, spared: set<nat>) {
    forall i :: i in s.mails && !s.mails[i].deleted && Abandoned(s, i, spared) ==> Tended(s.workers, i)
  }

  /** While a mail is marked, some worker has its expunge still to do. */
  ghost predicate Sweeping(s: State) {
    forall i :: i in s.mails && s.mails[i].deleted ==> WillExpunge(s.workers)
  }

  ghost predicate WillExpunge(workers: Workers) {
    exists g :: g in workers && !workers[g].pc.Finishing?
  }

  /** No destination is called "Outbox", so the missing-mail branch deletes nothing. */
  ghost predicate NoOutboxHost(s: State) {
    && (forall k :: k in s.queue ==> k.dest != "Outbox")
    && (forall c, t :: c in s.clients && t in s.clients[c].targets && t.Remote? ==> t.dest != "Outbox")
  }

  ghost predicate Swept(s: State) {
    LastRemover(s, {}) && Sweeping(s) && NoOutboxHost(s) && Numbered(s.issued, s.mails, s.clock)
  }

  /** A step that leaves the tending workers alone and neither adds mails nor empties one. */
  ghost predicate Calm(s: State, s': State) {
    && s'.issued == s.issued
    && (forall i :: i in s'.mails && !s'.mails[i].deleted ==> SameMail(s, s', i))
    && (forall k :: k in s.queue && k.id in s'.mails && !s'.mails[k.id].deleted ==> k in s'.queue)
    && (forall g :: g in s.workers && Ending(s.workers[g].pc) ==> g in s'.workers && s'.workers[g] == s.workers[g])
  }

  ghost predicate SameMail(s: State, s': State, i: int)
    requires i in s'.mails
  {
    i in s.mails && !s.mails[i].deleted && s.mails[i].ident == s'.mails[i].ident
  }

  lemma LastRemoverKept(s: State, s': State, spared: set<nat>)
    requires LastRemover(s, spared) && Calm(s, s')
    ensures LastRemover(s', spared)
  {
    forall i | i in s'.mails && !s'.mails[i].deleted && Abandoned(s', i, spared)
      ensures Tended(s'.workers, i)
    {
      assert SameMail(s, s', i);
      assert Abandoned(s, i, spared);
      var g :| g in s.workers && Tends(s.workers[g].pc, i);
      assert g in s'.workers && Tends(s'.workers[g].pc, i);
    }
  }

  lemma CalmStep(s: State, step: Step)
    requires Enabled(s, step) && !ByWorker(step) && !Faulty(step) && !step.Create? && !step.Insert?
    ensures Calm(s, Apply(s, step))
  {
    if Plain(step) {
      PlainStep(s, step);
    } else {
      CalmStart(s, step);
    }
  }

  lemma CalmStart(s: State, step: Step)
    requires Enabled(s, step) && (step.Kick? || step.TickStart?)
    ensures Calm(s, Apply(s, step))
  {
  }

  lemma CalmSkip(s: State, c: nat)
    requires Enabled(s, Insert(c)) && !Inserts(s, c)
    ensures Calm(s, InsertNext(s, c))
  {
  }

  lemma CalmWorkerStep(s: State, step: Step)
    requires Enabled(s, step) && ByWorker(step) && !Faulty(step) && (step.DropMissing? ==> NoOutboxHost(s))
    requires !step.DropRow? && !step.Check? && !step.Mark?
    ensures Calm(s, Apply(s, step))
  {
  }

  lemma CreateLastRemover(s: State, c: nat, from: string, targets: seq<Target>, body: Bytes, spared: set<nat>)
    requires LastRemover(s, spared) && Numbered(s.issued, s.mails, s.clock)
    ensures LastRemover(DoCreate(s, c, from, targets, body), spared)
  {
    var s' := DoCreate(s, c, from, targets, body);
    forall i | i in s'.mails && !s'.mails[i].deleted && Abandoned(s', i, spared)
      ensures Tended(s'.workers, i)
    {
      assert i in s.mails && Abandoned(s, i, spared);
    }
  }

  lemma InsertLastRemover(s: State, c: nat, spared: set<nat>)
    requires LastRemover(s, spared) && Inserts(s, c) && Numbered(s.issued, s.mails, s.clock)
    ensures LastRemover(InsertNext(s, c), spared)
  {
    var q, s' := s.clients[c], InsertNext(s, c);
    forall i | i in s'.mails && !s'.mails[i].deleted && Abandoned(s', i, spared)
      ensures Tended(s'.workers, i)
    {
      assert Key(q.targets[0].dest, q.id) in s'.queue;
      var t :| t in s'.issued && s'.issued[t].ident == s'.mails[i].ident;
      assert t in s.issued && s.issued[t].ident == s.mails[i].ident;
      assert Abandoned(s, i, spared);
    }
  }

  lemma DropRowLastRemover(s: State, g: nat, spared: set<nat>)
    requires LastRemover(s, spared) && Enabled(s, DropRow(g))
    ensures LastRemover(DoDropRow(s, g), spared)
  {
    var s' := DoDropRow(s, g);
    forall i | i in s'.mails && !s'.mails[i].deleted && Abandoned(s', i, spared)
      ensures Tended(s'.workers, i)
    {
      if i == s.workers[g].pc.ref.id {
        assert Tends(s'.workers[g].pc, i);
      } else {
        assert Abandoned(s, i, spared);
        var h :| h in s.workers && Tends(s.workers[h].pc, i);
        assert h in s'.workers && Tends(s'.workers[h].pc, i);
      }
    }
  }

  lemma CheckLastRemover(s: State, g: nat, spared: set<nat>)
    requires LastRemover(s, spared) && Enabled(s, Check(g))
    ensures LastRemover(DoCheck(s, g), spared)
  {
    var s' := DoCheck(s, g);
    forall i | i in s'.mails && !s'.mails[i].deleted && Abandoned(s', i, spared)
      ensures Tended(s'.workers, i)
    {
      assert Abandoned(s, i, spared);
      var h :| h in s.workers && Tends(s.workers[h].pc, i);
      assert h in s'.workers && Tends(s'.workers[h].pc, i);
    }
  }

  lemma MarkLastRemover(s: State, g: nat, spared: set<nat>)
    requires LastRemover(s, spared) && Enabled(s, Mark(g))
    ensures LastRemover(DoMark(s, g), spared)
  {
    var s' := DoMark(s, g);
    forall i | i in s'.mails && !s'.mails[i].deleted && Abandoned(s', i, spared)
      ensures Tended(s'.workers, i)
    {
      assert i != s.workers[g].pc.ref.id && Abandoned(s, i, spared);
      var h :| h in s.workers && Tends(s.workers[h].pc, i);
      assert h in s'.workers && Tends(s'.workers[h].pc, i);
    }
  }

  lemma StepLastRemover(s: State, step: Step, spared: set<nat>)
    requires LastRemover(s, spared) && Numbered(s.issued, s.mails, s.clock)
    requires Enabled(s, step) && !Faulty(step) && (step.DropMissing? ==> NoOutboxHost(s))
    ensures LastRemover(Apply(s, step), spared)
  {
    if step.Create? {
      CreateLastRemover(s, step.c, step.from, step.targets, step.body, spared);
    } else if step.Insert? {
      InsertAnyLastRemover(s, step.c, spared);
    } else if step.DropRow? {
      DropRowLastRemover(s, step.g, spared);
    } else if step.Check? {
      CheckLastRemover(s, step.g, spared);
    } else if step.Mark? {
      MarkLastRemover(s, step.g, spared);
    } else {
      CalmOther(s, step);
      LastRemoverKept(s, Apply(s, step), spared);
    }
  }

  lemma InsertAnyLastRemover(s: State, c: nat, spared: set<nat>)
    requires LastRemover(s, spared) && Numbered(s.issued, s.mails, s.clock) && Enabled(s, Insert(c))
    ensures LastRemover(InsertNext(s, c), spared)
  {
    if Inserts(s, c) {
      InsertLastRemover(s, c, spared);
    } else {
      CalmSkip(s, c);
      LastRemoverKept(s, InsertNext(s, c), spared);
    }
  }

  lemma CalmOther(s: State, step: Step)
    requires Enabled(s, step) && !Faulty(step) && (step.DropMissing? ==> NoOutboxHost(s))
    requires !step.Create? && !step.Insert? && !step.DropRow? && !step.Check? && !step.Mark?
    ensures Calm(s, Apply(s, step))
  {
    if ByWorker(step) {
      CalmWorkerStep(s, step);
    } else {
      CalmStep(s, step);
    }
  }

  // ------------------------------------------------- sweeping, hosts, numbers

  lemma StepSweeping(s: State, step: Step)
    requires Sweeping(s) && Enabled(s, step) && !Faulty(step)
    ensures Sweeping(Apply(s, step))
  {
    var s' := Apply(s, step);
    forall i | i in s'.mails && s'.mails[i].deleted
      ensures WillExpunge(s'.workers)
    {
      if step.Mark? {
        assert !s'.workers[step.g].pc.Finishing?;
      } else {
        MarkedBefore(s, step, i);
        var g :| g in s.workers && !s.workers[g].pc.Finishing?;
        StaysUnfinished(s, step, g);
      }
    }
  }

  lemma MarkedBefore(s: State, step: Step, i: int)
    requires Enabled(s, step) && !step.Mark?
    requires i in Apply(s, step).mails && Apply(s, step).mails[i].deleted
    ensures i in s.mails && s.mails[i].deleted && !step.Expunge?
  {
    if ByWorker(step) {
      MarkedByOthers(s, step, i);
    } else if Plain(step) && !step.Create? {
      PlainStep(s, step);
    } else if step.Insert? {
      InsertLeaves(s, step.c);
    }
  }

  lemma MarkedByOthers(s: State, step: Step, i: int)
    requires Enabled(s, step) && ByWorker(step) && !step.Mark?
    requires i in Apply(s, step).mails && Apply(s, step).mails[i].deleted
    ensures i in s.mails && s.mails[i].deleted && !step.Expunge?
  {
  }

  lemma StaysUnfinished(s: State, step: Step, g: nat)
    requires Enabled(s, step) && !step.Expunge? && !Faulty(step) && g in s.workers && !s.workers[g].pc.Finishing?
    ensures g in Apply(s, step).workers && !Apply(s, step).workers[g].pc.Finishing?
  {
    if ByWorker(step) {
      WorkerStaysUnfinished(s, step, g);
    } else {
      OthersStay(s, step, g);
    }
  }

  lemma WorkerStaysUnfinished(s: State, step: Step, g: nat)
    requires Enabled(s, step) && ByWorker(step) && !step.Expunge? && !Faulty(step)
    requires g in s.workers && !s.workers[g].pc.Finishing?
    ensures g in Apply(s, step).workers && !Apply(s, step).workers[g].pc.Finishing?
  {
  }

  lemma OthersStay(s: State, step: Step, g: nat)
    requires Enabled(s, step) && !ByWorker(step) && !Faulty(step) && g in s.workers
    ensures g in Apply(s, step).workers && Apply(s, step).workers[g] == s.workers[g]
  {
    if Plain(step) {
      PlainStep(s, step);
    } else if step.Insert? {
      InsertLeaves(s, step.c);
    }
  }

  lemma StepNoOutboxHost(s: State, step: Step)
    requires NoOutboxHost(s) && Enabled(s, step)
    ensures NoOutboxHost(Apply(s, step))
  {
    if step.Insert? {
      InsertNoOutboxHost(s, step.c);
    }
  }

  lemma InsertNoOutboxHost(s: State, c: nat)
    requires NoOutboxHost(s) && Enabled(s, Insert(c))
    ensures NoOutboxHost(InsertNext(s, c))
  {
  }

  /** Without storage errors every step keeps the sweep, whatever A1 and A2 say. */
  lemma StepSwept(s: State, step: Step)
    requires Swept(s) && Enabled(s, step) && !Faulty(step)
    ensures Swept(Apply(s, step))
  {
    StepLastRemover(s, step, {});
    StepSweeping(s, step);
    StepNoOutboxHost(s, step);
    StepNumbered(s, step);
  }
}

/**
 What tickets stand for, under any schedule and any storage errors: the rows of
 the queue and the references workers hold say what their tickets say, and each
 ticket was issued by a call of `QueueFor` for one of its recipients.
 */
module DeliveryTickets {
  import opened Base
  import opened DeliveryProtocol
  import opened DeliverySafety

  // ------------------------------------------------------------ what they say

  /** Ticket t stands for a delivery to key k with this sender and recipient. */
  ghost predicate Stands(issued: Issued, t: nat, k: Key, from: string, rcpt: string) {
    t in issued && issued[t].key == k && issued[t].from == from && issued[t].rcpt == rcpt
  }

  ghost predicate RowsTicketed(queue: Queue, issued: Issued) {
    forall k :: k in queue ==> Stands(issued, queue[k].ticket, k, queue[k].from, queue[k].rcpt)
  }

  /** Worker w holds reference r: listed, or in hand. */
  ghost predicate Holds(w: Worker, r: Ref) {
    r in w.refs || (InHand(w.pc) && w.pc.ref == r)
  }

  ghost predicate RefsTicketed(workers: Workers, issued: Issued) {
    forall g, r :: g in workers && Holds(workers[g], r) ==>
      Stands(issued, r.ticket, Key(workers[g].dest, r.id), r.from, r.rcpt)
  }

  ghost predicate Ticketed(s: State) {
    Numbered(s.issued, s.mails, s.clock) && RowsTicketed(s.queue, s.issued) && RefsTicketed(s.workers, s.issued)
  }

  /** A step that issues nothing, adds no row and gives no worker a new reference. */
  ghost predicate NoNews(s: State, s': State) {
    && s'.issued == s.issued
    && (forall k :: k in s'.queue ==> k in s.queue && s'.queue[k] == s.queue[k])
    && (forall g, r :: g in s'.workers && Holds(s'.workers[g], r) ==>
          g in s.workers && s.workers[g].dest == s'.workers[g].dest && Holds(s.workers[g], r))
  }

  lemma TicketedKept(s: State, s': State)
    requires RowsTicketed(s.queue, s.issued) && RefsTicketed(s.workers, s.issued) && NoNews(s, s')
    ensures RowsTicketed(s'.queue, s'.issued) && RefsTicketed(s'.workers, s'.issued)
  {
  }

  lemma SnapshotTicketed(s: State, g: nat, refs: seq<Ref>)
    requires Ticketed(s) && Enabled(s, CutSnapshot(g, refs))
    ensures Ticketed(DoSnapshot(s, g, refs))
  {
    var s' := DoSnapshot(s, g, refs);
    forall h, r | h in s'.workers && Holds(s'.workers[h], r)
      ensures Stands(s'.issued, r.ticket, Key(s'.workers[h].dest, r.id), r.from, r.rcpt)
    {
      if h == g {
        assert RowIs(s, s.workers[g].dest, r);
      } else {
        assert Holds(s.workers[h], r);
      }
    }
  }

  lemma InsertTicketed(s: State, c: nat)
    requires Ticketed(s) && Inserts(s, c)
    ensures Ticketed(InsertNext(s, c))
  {
    InsertRowIssued(s, c);
    assert s.clock !in s.issued;
    InsertRefsTicketed(s, c);
  }

  lemma InsertRefsTicketed(s: State, c: nat)
    requires RowsTicketed(s.queue, s.issued) && RefsTicketed(s.workers, s.issued) && Inserts(s, c) && s.clock !in s.issued
    ensures var s' := InsertNext(s, c); RowsTicketed(s'.queue, s'.issued) && RefsTicketed(s'.workers, s'.issued)
  {
    var s' := InsertNext(s, c);
    forall t, k, from, rcpt | Stands(s.issued, t, k, from, rcpt)
      ensures Stands(s'.issued, t, k, from, rcpt)
    {
    }
  }

  lemma WorkerNoNews(s: State, step: Step)
    requires Enabled(s, step) && ByWorker(step) && !Reads(step)
    ensures NoNews(s, Apply(s, step))
  {
    var s' := Apply(s, step);
    forall g, r | g in s'.workers && Holds(s'.workers[g], r)
      ensures g in s.workers && s.workers[g].dest == s'.workers[g].dest && Holds(s.workers[g], r)
    {
      WorkerHolds(s, step, g, r);
    }
    QueueOnlyShrinks(s, step);
  }

  lemma WorkerHolds(s: State, step: Step, g: nat, r: Ref)
    requires Enabled(s, step) && ByWorker(step) && !Reads(step)
    requires g in Apply(s, step).workers && Holds(Apply(s, step).workers[g], r)
    ensures g in s.workers && s.workers[g].dest == Apply(s, step).workers[g].dest && Holds(s.workers[g], r)
  {
  }

  lemma QueueOnlyShrinks(s: State, step: Step)
    requires Enabled(s, step) && ByWorker(step)
    ensures var s' := Apply(s, step);
      s'.issued == s.issued && forall k :: k in s'.queue ==> k in s.queue && s'.queue[k] == s.queue[k]
  {
  }

  lemma OtherNoNews(s: State, step: Step)
    requires Enabled(s, step) && !ByWorker(step) && (step.Insert? ==> !Inserts(s, step.c))
    ensures NoNews(s, Apply(s, step))
  {
    if Plain(step) {
      PlainStep(s, step);
    } else if step.Insert? {
      InsertLeaves(s, step.c);
    } else if step.Kick? {
      StartNoNews(s, s.clients[step.c].kick.value, step.g);
    } else if step.TickStart? {
      StartNoNews(s, s.manager[0], step.g);
    }
  }

  lemma StartNoNews(s: State, d: string, g: nat)
    requires g !in s.workers
    ensures NoNews(s, StartQueue(s, d, g))
  {
  }

  lemma StepTicketed(s: State, step: Step)
    requires Ticketed(s) && Enabled(s, step)
    ensures Ticketed(Apply(s, step))
  {
    if Reads(step) {
      SnapshotTicketed(s, step.g, step.refs);
    } else if step.Insert? && Inserts(s, step.c) {
      InsertTicketed(s, step.c);
    } else {
      if ByWorker(step) {
        WorkerNoNews(s, step);
      } else {
        OtherNoNews(s, step);
      }
      TicketedKept(s, Apply(s, step));
      StepNumbered(s, step);
    }
  }

  // ------------------------------------------------------------------- callers

  /** No two calls created the same mail. */
  ghost predicate Callers(clients: Clients, clock: nat) {
    && (forall c :: c in clients ==> clients[c].ident < clock)
    && (forall c, d :: c in clients && d in clients && clients[c].ident == clients[d].ident ==> c == d)
  }

  lemma StepCallers(s: State, step: Step)
    requires Callers(s.clients, s.clock) && Enabled(s, step)
    ensures var s' := Apply(s, step); Callers(s'.clients, s'.clock)
  {
    if ByClient(step) {
      CallOnly(s, step);
      CallersMoved(s, Apply(s, step), step.c);
    } else if ByWorker(step) {
      WorkerShrinks(s, step);
      WorkerLeavesClients(s, step);
    } else {
      OtherCallers(s, step);
    }
  }

  lemma CallersMoved(s: State, s': State, c: nat)
    requires Callers(s.clients, s.clock) && CallMoved(s, s', c)
    ensures Callers(s'.clients, s'.clock)
  {
  }

  /** Call c alone has moved, if any; a new one has a fresh identity. */
  ghost predicate CallMoved(s: State, s': State, c: nat) {
    && s'.clock >= s.clock
    && (forall d :: d in s'.clients && d != c ==> d in s.clients && s'.clients[d] == s.clients[d])
    && (c in s'.clients ==> SameCaller(s, s', c))
  }

  lemma OtherCallers(s: State, step: Step)
    requires Callers(s.clients, s.clock) && Enabled(s, step) && !ByClient(step) && !ByWorker(step)
    ensures var s' := Apply(s, step); Callers(s'.clients, s'.clock)
  {
    assert step.Restart? || Apply(s, step).clients == s.clients;
  }

  /** A call's step moves that call alone; a new one gets a fresh identity. */
  lemma CallOnly(s: State, step: Step)
    requires Enabled(s, step) && ByClient(step)
    ensures CallMoved(s, Apply(s, step), step.c)
  {
    if step.Insert? && !Inserts(s, step.c) {
      SkipTables(s, step.c);
    }
  }

  predicate SameCaller(s: State, s': State, c: nat)
    requires c in s'.clients
  {
    if c in s.clients then s'.clients[c].ident == s.clients[c].ident else s'.clients[c].ident == s.clock < s'.clock
  }

  lemma ClockRuns(s: State, step: Step)
    requires Enabled(s, step)
    ensures Apply(s, step).clock >= s.clock
  {
    if ByClient(step) {
      CallOnly(s, step);
    } else if ByWorker(step) {
      WorkerShrinks(s, step);
    }
  }

  lemma WorkerLeavesClients(s: State, step: Step)
    requires Enabled(s, step) && ByWorker(step)
    ensures Apply(s, step).clients == s.clients
  {
  }

  // ---------------------------------------------------------- numbers only grow

  lemma StepNumbered(s: State, step: Step)
    requires Numbered(s.issued, s.mails, s.clock) && Enabled(s, step)
    ensures var s' := Apply(s, step); Numbered(s'.issued, s'.mails, s'.clock)
  {
    if step.Create? {
      CreateNumbered(s, step.c, step.from, step.targets, step.body);
    } else if step.Insert? && Inserts(s, step.c) {
      InsertRowIssued(s, step.c);
    } else {
      NumbersKept(s, step);
    }
  }

  lemma CreateNumbered(s: State, c: nat, from: string, targets: seq<Target>, body: Bytes)
    requires Numbered(s.issued, s.mails, s.clock)
    ensures var s' := DoCreate(s, c, from, targets, body); Numbered(s'.issued, s'.mails, s'.clock)
  {
  }

  /** Apart from MailCreate and row inserts, steps only drop or mark mails. */
  ghost predicate Shrinks(s: State, s': State) {
    && s'.issued == s.issued && s'.clock >= s.clock
    && (forall i :: i in s'.mails ==> i in s.mails && s'.mails[i].ident == s.mails[i].ident)
  }

  lemma WorkerShrinks(s: State, step: Step)
    requires Enabled(s, step) && ByWorker(step)
    ensures Shrinks(s, Apply(s, step))
  {
  }

  lemma NumbersKept(s: State, step: Step)
    requires Enabled(s, step) && !step.Create? && (step.Insert? ==> !Inserts(s, step.c))
    ensures Shrinks(s, Apply(s, step))
  {
    if ByWorker(step) {
      WorkerShrinks(s, step);
    } else if step.Insert? {
      InsertLeaves(s, step.c);
    } else if Plain(step) {
      PlainStep(s, step);
    }
  }
}

/**
 What every step of the delivery queue keeps.  `Safe` holds under A1 and A2
 whatever storage calls fail; `Locked` needs neither.
 */
module DeliverySafety {
  import opened Base
  import opened DeliveryProtocol

  type Mails = map<int, OutMail>
  type Queue = map<Key, Row>
  type Issued = map<nat, Delivery>
  type Workers = map<nat, Worker>
  type Clients = map<nat, Client>

  /** The row behind an issued delivery is still in the queue table. */
  ghost predicate Queued(queue: Queue, x: Delivery) {
    x.key in queue && queue[x.key].ticket == x.ticket
  }

  /** A flag is set exactly when one worker serves that destination. */
  ghost predicate Locked(running: set<string>, workers: Workers) {
    && (forall g :: g in workers ==> workers[g].dest in running)
    && (forall d :: d in running ==> Served(workers, d))
    && (forall g, h :: g in workers && h in workers && workers[g].dest == workers[h].dest ==> g == h)
  }

  ghost predicate Served(workers: Workers, d: string) {
    exists g :: g in workers && workers[g].dest == d
  }

  /** Each row's mail exists, is unmarked, and is the mail the row was issued for. */
  ghost predicate RowsOk(mails: Mails, queue: Queue, issued: Issued) {
    forall k :: k in queue ==> RowOk(mails, k, queue[k], issued)
  }

  ghost predicate RowOk(mails: Mails, k: Key, row: Row, issued: Issued) {
    && k.id in mails
    && !mails[k.id].deleted
    && row.ticket in issued
    && issued[row.ticket] == Delivery(row.ticket, mails[k.id].ident, k, row.from, row.rcpt, mails[k.id].body)
  }

  /** A call that will still insert rows finds the mail it created, unmarked, if it created one. */
  ghost predicate ClientsOk(clients: Clients, mails: Mails) {
    forall c :: c in clients && Ahead(clients[c].targets) ==> clients[c].id == 0 || OwnMail(clients[c], mails)
  }

  ghost predicate OwnMail(q: Client, mails: Mails) {
    q.id in mails && mails[q.id] == OutMail(q.ident, q.body, false)
  }

  /** The references a worker has yet to finish with. */
  ghost predicate Unfinished(w: Worker, r: Ref) {
    r in w.refs || ((w.pc.Sending? || w.pc.Written?) && w.pc.ref == r)
  }

  /** Snapshots never go stale: unfinished references still have their very rows. */
  ghost predicate Fresh(w: Worker, queue: Queue) {
    forall r :: Unfinished(w, r) ==> HasRow(queue, w.dest, r)
  }

  ghost predicate HasRow(queue: Queue, dest: string, r: Ref) {
    var k := Key(dest, r.id);
    k in queue && queue[k] == Row(r.from, r.rcpt, r.ticket)
  }

  ghost predicate Ending(pc: Pc) {
    pc.Unqueued? || pc.Marking?
  }

  ghost predicate InHand(pc: Pc) {
    pc.NoRow? || pc.Sending? || pc.Written? || pc.Unqueued? || pc.Marking?
  }

  /** References come in strictly descending order, the one in hand first. */
  ghost predicate Ordered(w: Worker) {
    Descending(w.refs) && (InHand(w.pc) ==> forall x :: x in w.refs ==> x.id < w.pc.ref.id)
  }

  /** What is about to be written is the mail now in the table. */
  ghost predicate Reading(pc: Pc, mails: Mails) {
    pc.Sending? ==> pc.ref.id in mails && mails[pc.ref.id].ident == pc.ident && mails[pc.ref.id].body == pc.body
  }

  /** A row about to be deleted has had its body written. */
  ghost predicate Backed(pc: Pc, issued: Issued, log: multiset<Delivery>) {
    pc.Written? ==> pc.ref.ticket in issued && issued[pc.ref.ticket] in log
  }

  /** A mail about to be marked has no rows, and will get none. */
  ghost predicate Exhausted(pc: Pc, queue: Queue, clients: Clients) {
    pc.Marking? ==> NoRowsFor(pc.ref.id, queue) && NoInserts(pc.ref.id, clients)
  }

  /** What a worker has in hand is a mail of the Outbox, whose ids start at 1. */
  ghost predicate Genuine(pc: Pc) {
    !pc.NoRow? && (InHand(pc) ==> pc.ref.id >= 1)
  }

  ghost predicate NoRowsFor(i: int, queue: Queue) {
    forall k :: k in queue ==> k.id != i
  }

  ghost predicate NoInserts(i: int, clients: Clients) {
    forall c :: c in clients && Ahead(clients[c].targets) ==> clients[c].id != i
  }

  /** What holds of each worker; the branch for a missing mail is never entered. */
  ghost predicate WorkerOk(s: State, w: Worker) {
    && Fresh(w, s.queue)
    && Ordered(w)
    && Reading(w.pc, s.mails)
    && Backed(w.pc, s.issued, s.log)
    && Exhausted(w.pc, s.queue, s.clients)
    && Genuine(w.pc)
  }

  ghost predicate WorkersOk(s: State) {
    forall g :: g in s.workers ==> WorkerOk(s, s.workers[g])
  }

  /** Conservation: each issued delivery is queued or its body was written as issued. */
  ghost predicate Conserved(issued: Issued, queue: Queue, log: multiset<Delivery>) {
    forall t :: t in issued ==> Queued(queue, issued[t]) || issued[t] in log
  }

  ghost predicate Numbered(issued: Issued, mails: Mails, clock: nat) {
    && (forall t :: t in issued ==> t < clock && issued[t].ticket == t && issued[t].ident < clock)
    && (forall i :: i in mails ==> i >= 1 && mails[i].ident < clock)
    && (forall i, j :: i in mails && j in mails && mails[i].ident == mails[j].ident ==> i == j)
  }

  /** Nothing is written but what some ticket stands for. */
  ghost predicate Authentic(log: multiset<Delivery>, issued: Issued) {
    forall x :: x in log ==> x.ticket in issued && issued[x.ticket] == x
  }

  ghost predicate Safe(s: State) {
    && Locked(s.running, s.workers)
    && RowsOk(s.mails, s.queue, s.issued)
    && ClientsOk(s.clients, s.mails)
    && WorkersOk(s)
    && Conserved(s.issued, s.queue, s.log)
    && Numbered(s.issued, s.mails, s.clock)
    && Authentic(s.log, s.issued)
  }

  // ------------------------------------------------------- flags and workers

  lemma LockedMoved(running: set<string>, workers: Workers, g: nat, w: Worker)
    requires Locked(running, workers) && g in workers && w.dest == workers[g].dest
    ensures Locked(running, workers[g := w])
  {
    var after := workers[g := w];
    forall d | d in running
      ensures Served(after, d)
    {
      var h :| h in workers && workers[h].dest == d;
      assert h in after && after[h].dest == d;
    }
  }

  lemma LockedStarted(running: set<string>, workers: Workers, d: string, g: nat)
    requires Locked(running, workers) && g !in workers && d !in running
    ensures Locked(running + {d}, workers[g := Worker(d, Starting, [])])
  {
    var after := workers[g := Worker(d, Starting, [])];
    forall e | e in running + {d}
      ensures Served(after, e)
    {
      if e in running {
        var h :| h in workers && workers[h].dest == e;
        assert h in after && after[h].dest == e;
      } else {
        assert g in after && after[g].dest == e;
      }
    }
  }

  lemma LockedFinished(running: set<string>, workers: Workers, g: nat)
    requires Locked(running, workers) && g in workers
    ensures Locked(running - {workers[g].dest}, workers - {g})
  {
    forall e | e in running - {workers[g].dest}
      ensures Served(workers - {g}, e)
    {
      var h :| h in workers && workers[h].dest == e;
      assert h in workers - {g} && (workers - {g})[h].dest == e;
    }
  }

  lemma LockedWorkerStep(s: State, step: Step)
    requires Locked(s.running, s.workers) && Enabled(s, step) && ByWorker(step)
    ensures var s' := Apply(s, step); Locked(s'.running, s'.workers)
  {
    var g := step.g;
    if step.Finish? {
      LockedFinished(s.running, s.workers, g);
    } else {
      MovesOne(s, step);
      LockedMoved(s.running, s.workers, g, Apply(s, step).workers[g]);
    }
  }

  /** A worker's step moves that worker and no other, and no flag but by Finish. */
  lemma MovesOne(s: State, step: Step)
    requires Enabled(s, step) && ByWorker(step) && !step.Finish?
    ensures var s' := Apply(s, step);
      && s'.running == s.running && step.g in s'.workers
      && s'.workers == s.workers[step.g := s'.workers[step.g]]
      && s'.workers[step.g].dest == s.workers[step.g].dest
  {
  }

  lemma LockedStep(s: State, step: Step)
    requires Locked(s.running, s.workers) && Enabled(s, step)
    ensures var s' := Apply(s, step); Locked(s'.running, s'.workers)
  {
    if ByWorker(step) {
      LockedWorkerStep(s, step);
    } else if step.Kick? {
      LockedStart(s, s.clients[step.c].kick.value, step.g);
    } else if step.TickStart? {
      LockedStart(s, s.manager[0], step.g);
    } else {
      LockedOther(s, step);
    }
  }

  lemma LockedOther(s: State, step: Step)
    requires Locked(s.running, s.workers) && Enabled(s, step)
    requires !ByWorker(step) && !step.Kick? && !step.TickStart?
    ensures var s' := Apply(s, step); Locked(s'.running, s'.workers)
  {
    if Plain(step) {
      PlainStep(s, step);
    } else if step.Insert? {
      InsertLeaves(s, step.c);
    }
  }

  // ----------------------------------------------------------- effects of steps

  /** A step of a call or the manager that inserts nothing and starts nobody. */
  ghost predicate Plain(step: Step) {
    !ByWorker(step) && !step.Insert? && !step.Kick? && !step.TickStart? && !step.Restart?
  }

  /** Nothing has changed but calls, the manager's list and, by a new one, the mails. */
  ghost predicate OnlyCalls(s: State, s': State) {
    && s'.running == s.running && s'.workers == s.workers
    && s'.queue == s.queue && s'.issued == s.issued && s'.log == s.log
    && s'.clock >= s.clock
    && forall i :: i in s.mails ==> i in s'.mails && s'.mails[i] == s.mails[i]
  }

  lemma PlainStep(s: State, step: Step)
    requires Enabled(s, step) && Plain(step)
    ensures OnlyCalls(s, Apply(s, step)) && (!step.Create? ==> Apply(s, step).mails == s.mails)
  {
    if ByClient(step) {
      PlainCall(s, step);
    }
  }

  lemma PlainCall(s: State, step: Step)
    requires Enabled(s, step) && Plain(step) && ByClient(step)
    ensures OnlyCalls(s, Apply(s, step)) && (!step.Create? ==> Apply(s, step).mails == s.mails)
  {
  }

  lemma InsertLeaves(s: State, c: nat)
    requires Enabled(s, Insert(c))
    ensures var s' := InsertNext(s, c);
      && s'.running == s.running && s'.workers == s.workers && s'.mails == s.mails && s'.log == s.log
      && s'.manager == s.manager
      && (!Inserts(s, c) ==> s'.queue == s.queue && s'.issued == s.issued && s'.clock == s.clock)
  {
  }


  lemma LockedStart(s: State, d: string, g: nat)
    requires Locked(s.running, s.workers) && g !in s.workers
    ensures var s' := StartQueue(s, d, g); Locked(s'.running, s'.workers)
  {
    if d !in s.running {
      LockedStarted(s.running, s.workers, d, g);
    }
  }

  /** A step of worker g keeps WorkersOk if it keeps the others and leaves g in order. */
  lemma WorkersMoved(s: State, s': State, g: nat)
    requires forall h :: h in s'.workers && h != g ==> h in s.workers && s'.workers[h] == s.workers[h]
    requires forall h :: h in s.workers && h != g ==> WorkerOk(s', s.workers[h])
    requires g in s'.workers ==> WorkerOk(s', s'.workers[g])
    ensures WorkersOk(s')
  {
  }

  /** A step that changes nothing but where worker g stands. */
  lemma OnlyWorker(s: State, g: nat, w: Worker)
    requires Safe(s) && g in s.workers && w.dest == s.workers[g].dest && WorkerOk(s, w)
    ensures Safe(s.(workers := s.workers[g := w]))
  {
    var s' := s.(workers := s.workers[g := w]);
    LockedMoved(s.running, s.workers, g, w);
    forall h | h in s'.workers
      ensures WorkerOk(s', s'.workers[h])
    {
      assert WorkerOk(s, s'.workers[h]);
    }
  }

  /** A step that changes nothing but the calls of QueueFor, and adds no insertion. */
  lemma OnlyClients(s: State, clients: Clients)
    requires Safe(s)
    requires forall c :: c in clients && Ahead(clients[c].targets) ==>
      c in s.clients && Ahead(s.clients[c].targets) && s.clients[c].id == clients[c].id
      && s.clients[c].ident == clients[c].ident && s.clients[c].body == clients[c].body
    ensures Safe(s.(clients := clients))
  {
    var s' := s.(clients := clients);
    forall h | h in s'.workers
      ensures WorkerOk(s', s'.workers[h])
    {
      assert WorkerOk(s, s'.workers[h]);
    }
  }

  lemma StartSafe(s: State, d: string, g: nat)
    requires Safe(s) && g !in s.workers
    ensures Safe(StartQueue(s, d, g))
  {
    if d !in s.running {
      var s' := StartQueue(s, d, g);
      LockedStarted(s.running, s.workers, d, g);
      forall h | h in s'.workers
        ensures WorkerOk(s', s'.workers[h])
      {
        if h in s.workers {
          assert WorkerOk(s, s.workers[h]);
        }
      }
    }
  }

  // ------------------------------------------------------------- worker steps

  lemma SnapshotSafe(s: State, g: nat, refs: seq<Ref>)
    requires Safe(s) && Enabled(s, CutSnapshot(g, refs))
    ensures Safe(DoSnapshot(s, g, refs))
  {
    OnlyWorker(s, g, Worker(s.workers[g].dest, Looping, refs));
  }

  lemma SelectSafe(s: State, g: nat)
    requires Safe(s) && Enabled(s, Select(g))
    ensures Safe(DoSelect(s, g))
  {
    SelectSelf(s, g);
    OnlyWorker(s, g, DoSelect(s, g).workers[g]);
  }

  lemma SelectSelf(s: State, g: nat)
    requires g in s.workers && s.workers[g].pc.Looping? && s.workers[g].refs != []
    requires WorkerOk(s, s.workers[g]) && RowsOk(s.mails, s.queue, s.issued)
    requires Numbered(s.issued, s.mails, s.clock)
    ensures WorkerOk(s, DoSelect(s, g).workers[g])
  {
    var w, w' := s.workers[g], DoSelect(s, g).workers[g];
    assert Unfinished(w, w.refs[0]);
    forall r | Unfinished(w', r)
      ensures HasRow(s.queue, w.dest, r)
    {
      assert Unfinished(w, r);
    }
  }

  lemma SendFailSafe(s: State, g: nat)
    requires Safe(s) && Enabled(s, SendFail(g))
    ensures Safe(DoSendFail(s, g))
  {
    var w := s.workers[g];
    assert WorkerOk(s, w.(pc := Looping)) by { LoopingOk(s, w); }
    OnlyWorker(s, g, w.(pc := Looping));
    SafeElsewhere(SetPc(s, g, Looping), DoSendFail(s, g));
  }

  lemma LoopingOk(s: State, w: Worker)
    requires WorkerOk(s, w)
    ensures WorkerOk(s, w.(pc := Looping))
    ensures w.refs != [] ==> WorkerOk(s, w.(pc := Looping, refs := w.refs[1..]))
    ensures WorkerOk(s, w.(pc := Looping, refs := []))
  {
    forall r | r in w.refs
      ensures HasRow(s.queue, w.dest, r)
    {
      assert Unfinished(w, r);
    }
  }

  lemma CheckSafe(s: State, g: nat)
    requires Safe(s) && Enabled(s, Check(g)) && A1(s, Check(g))
    ensures Safe(DoCheck(s, g))
  {
    var w := s.workers[g];
    LoopingOk(s, w);
    CheckSelf(s, g);
    OnlyWorker(s, g, DoCheck(s, g).workers[g]);
  }

  lemma CheckSelf(s: State, g: nat)
    requires Enabled(s, Check(g)) && A1(s, Check(g)) && WorkerOk(s, s.workers[g])
    ensures WorkerOk(s, DoCheck(s, g).workers[g])
  {
    var w := s.workers[g];
    LoopingOk(s, w);
    var i := w.pc.ref.id;
    if !Remaining(s, i) {
      assert !Inserting(s, i);
      forall r | Unfinished(w.(pc := Marking(w.pc.ref)), r)
        ensures HasRow(s.queue, w.dest, r)
      {
        assert Unfinished(w, r);
      }
    }
  }

  lemma FaultSafe(s: State, g: nat)
    requires Safe(s) && Enabled(s, Fault(g))
    ensures Safe(DoFault(s, g))
  {
    var w := s.workers[g];
    LoopingOk(s, w);
    OnlyWorker(s, g, AfterFault(w));
  }

  lemma SilentDropSafe(s: State, g: nat)
    requires Safe(s) && Enabled(s, SilentDrop(g))
    ensures Safe(DoSilentDrop(s, g))
  {
    var w := s.workers[g];
    LoopingOk(s, w);
    OnlyWorker(s, g, w.(pc := Unqueued(w.pc.ref)));
  }

  lemma RestartSafe(s: State)
    requires Safe(s)
    ensures Safe(DoRestart(s))
  {
  }

  lemma SendOkSafe(s: State, g: nat)
    requires Safe(s) && Enabled(s, SendOk(g))
    ensures Safe(DoSendOk(s, g))
  {
    SendsAsIssued(s, g);
    LockedMoved(s.running, s.workers, g, DoSendOk(s, g).workers[g]);
    SendOkWorkers(s, g);
  }

  /** What a worker sends is exactly the delivery its reference was issued for. */
  lemma SendsAsIssued(s: State, g: nat)
    requires Safe(s) && Enabled(s, SendOk(g))
    ensures s.workers[g].pc.ref.ticket in s.issued
    ensures Sent(s.workers[g]) == s.issued[s.workers[g].pc.ref.ticket]
    ensures Queued(s.queue, Sent(s.workers[g]))
  {
    var w := s.workers[g];
    assert WorkerOk(s, w);
    assert Unfinished(w, w.pc.ref);
    assert RowOk(s.mails, Key(w.dest, w.pc.ref.id), s.queue[Key(w.dest, w.pc.ref.id)], s.issued);
  }

  lemma SendOkWorkers(s: State, g: nat)
    requires Safe(s) && Enabled(s, SendOk(g))
    ensures WorkersOk(DoSendOk(s, g))
  {
    var w, s' := s.workers[g], DoSendOk(s, g);
    SendsAsIssued(s, g);
    forall h | h in s.workers && h != g
      ensures WorkerOk(s', s.workers[h])
    {
      SendOkOther(s, g, s.workers[h]);
    }
    assert WorkerOk(s', s'.workers[g]) by { SendOkSelf(s, g); }
    WorkersMoved(s, s', g);
  }

  lemma SendOkOther(s: State, g: nat, w: Worker)
    requires Enabled(s, SendOk(g)) && WorkerOk(s, w)
    ensures WorkerOk(DoSendOk(s, g), w)
  {
  }

  lemma SendOkSelf(s: State, g: nat)
    requires Enabled(s, SendOk(g)) && WorkerOk(s, s.workers[g])
    requires s.workers[g].pc.ref.ticket in s.issued && s.issued[s.workers[g].pc.ref.ticket] == Sent(s.workers[g])
    ensures WorkerOk(DoSendOk(s, g), DoSendOk(s, g).workers[g])
  {
    var w, s' := s.workers[g], DoSendOk(s, g);
    forall r | Unfinished(s'.workers[g], r)
      ensures HasRow(s'.queue, w.dest, r)
    {
      assert Unfinished(w, r);
    }
  }

  lemma DropRowSafe(s: State, g: nat)
    requires Safe(s) && Enabled(s, DropRow(g))
    ensures Safe(DoDropRow(s, g))
  {
    LockedMoved(s.running, s.workers, g, DoDropRow(s, g).workers[g]);
    DropRowWorkers(s, g);
    DropRowTables(s, g);
  }

  lemma DropRowWorkers(s: State, g: nat)
    requires Locked(s.running, s.workers) && WorkersOk(s) && Enabled(s, DropRow(g))
    ensures WorkersOk(DoDropRow(s, g))
  {
    forall h | h in s.workers && h != g
      ensures WorkerOk(DoDropRow(s, g), s.workers[h])
    {
      DropRowOther(s, g, s.workers[h]);
    }
    DropRowSelf(s, g);
    WorkersMoved(s, DoDropRow(s, g), g);
  }

  lemma DropRowOther(s: State, g: nat, w: Worker)
    requires g in s.workers && s.workers[g].pc.Written? && WorkerOk(s, w) && w.dest != s.workers[g].dest
    ensures WorkerOk(DoDropRow(s, g), w)
  {
  }

  lemma DropRowSelf(s: State, g: nat)
    requires g in s.workers && s.workers[g].pc.Written? && WorkerOk(s, s.workers[g])
    ensures WorkerOk(DoDropRow(s, g), DoDropRow(s, g).workers[g])
  {
    var w, s' := s.workers[g], DoDropRow(s, g);
    forall r | Unfinished(s'.workers[g], r)
      ensures HasRow(s'.queue, w.dest, r)
    {
      assert Unfinished(w, r);
    }
  }

  lemma DropRowTables(s: State, g: nat)
    requires g in s.workers && s.workers[g].pc.Written? && WorkerOk(s, s.workers[g])
    requires RowsOk(s.mails, s.queue, s.issued) && Conserved(s.issued, s.queue, s.log)
    requires Numbered(s.issued, s.mails, s.clock)
    ensures var s' := DoDropRow(s, g);
      RowsOk(s'.mails, s'.queue, s'.issued) && Conserved(s'.issued, s'.queue, s'.log)
  {
    var w, s' := s.workers[g], DoDropRow(s, g);
    assert Unfinished(w, w.pc.ref);
    forall t | t in s.issued && !Queued(s'.queue, s.issued[t])
      ensures s.issued[t] in s.log
    {
      if Queued(s.queue, s.issued[t]) {
        assert s.issued[t].key == Key(w.dest, w.pc.ref.id);
      }
    }
  }

  lemma MarkSafe(s: State, g: nat)
    requires Safe(s) && Enabled(s, Mark(g))
    ensures Safe(DoMark(s, g))
  {
    LockedMoved(s.running, s.workers, g, DoMark(s, g).workers[g]);
    MarkWorkers(s, g);
    assert WorkerOk(s, s.workers[g]);
    MarkTables(s, g);
  }

  lemma MarkWorkers(s: State, g: nat)
    requires WorkersOk(s) && Enabled(s, Mark(g))
    ensures WorkersOk(DoMark(s, g))
  {
    var s' := DoMark(s, g);
    forall h | h in s.workers
      ensures WorkerOk(s', s.workers[h])
    {
      MarkOther(s, g, s.workers[h]);
    }
    LoopingOk(s', s.workers[g]);
    WorkersMoved(s, s', g);
  }

  lemma MarkOther(s: State, g: nat, w: Worker)
    requires Enabled(s, Mark(g)) && WorkerOk(s, w)
    ensures WorkerOk(DoMark(s, g), w)
  {
  }

  lemma MarkTables(s: State, g: nat)
    requires Enabled(s, Mark(g)) && WorkerOk(s, s.workers[g])
    requires RowsOk(s.mails, s.queue, s.issued) && ClientsOk(s.clients, s.mails)
    requires Numbered(s.issued, s.mails, s.clock)
    ensures var s' := DoMark(s, g);
      && RowsOk(s'.mails, s'.queue, s'.issued)
      && ClientsOk(s'.clients, s'.mails)
      && Numbered(s'.issued, s'.mails, s'.clock)
  {
  }

  /** No Outbox expunge cascades away a queue row. */
  lemma ExpungeKeepsQueue(s: State)
    requires RowsOk(s.mails, s.queue, s.issued)
    ensures Expunged(s).queue == s.queue
  {
    forall k | k in s.queue
      ensures k in Expunged(s).queue
    {
      assert RowOk(s.mails, k, s.queue[k], s.issued);
    }
  }

  lemma ExpungeSafe(s: State, g: nat)
    requires Safe(s) && Enabled(s, Expunge(g))
    ensures Safe(DoExpunge(s, g))
  {
    LockedMoved(s.running, s.workers, g, DoExpunge(s, g).workers[g]);
    ExpungeWorkers(s, g);
    ExpungeTables(s, g);
  }

  lemma ExpungeWorkers(s: State, g: nat)
    requires WorkersOk(s) && RowsOk(s.mails, s.queue, s.issued) && Enabled(s, Expunge(g))
    ensures WorkersOk(DoExpunge(s, g))
  {
    var s' := DoExpunge(s, g);
    ExpungeKeepsQueue(s);
    forall h | h in s.workers
      ensures WorkerOk(s', s.workers[h])
    {
      ExpungeOther(s, g, s.workers[h]);
    }
    WorkersMoved(s, s', g);
  }

  lemma ExpungeOther(s: State, g: nat, w: Worker)
    requires Enabled(s, Expunge(g)) && WorkerOk(s, w) && RowsOk(s.mails, s.queue, s.issued)
    ensures WorkerOk(DoExpunge(s, g), w)
  {
    ExpungeKeepsQueue(s);
    if w.pc.Sending? {
      assert Unfinished(w, w.pc.ref);
      assert RowOk(s.mails, Key(w.dest, w.pc.ref.id), s.queue[Key(w.dest, w.pc.ref.id)], s.issued);
    }
  }

  lemma ExpungeTables(s: State, g: nat)
    requires Enabled(s, Expunge(g))
    requires RowsOk(s.mails, s.queue, s.issued) && ClientsOk(s.clients, s.mails)
    requires Numbered(s.issued, s.mails, s.clock) && Conserved(s.issued, s.queue, s.log)
    ensures var s' := DoExpunge(s, g);
      && RowsOk(s'.mails, s'.queue, s'.issued)
      && ClientsOk(s'.clients, s'.mails)
      && Numbered(s'.issued, s'.mails, s'.clock)
      && Conserved(s'.issued, s'.queue, s'.log)
  {
    ExpungeKeepsQueue(s);
  }

  lemma FinishSafe(s: State, g: nat)
    requires Safe(s) && Enabled(s, Finish(g))
    ensures Safe(DoFinish(s, g))
  {
    var s' := DoFinish(s, g);
    LockedFinished(s.running, s.workers, g);
    forall h | h in s'.workers
      ensures WorkerOk(s', s'.workers[h])
    {
      assert WorkerOk(s, s.workers[h]);
    }
  }

  // ------------------------------------------------------------ QueueFor steps

  lemma CreateSafe(s: State, c: nat, from: string, targets: seq<Target>, body: Bytes)
    requires Safe(s) && Enabled(s, Create(c, from, targets, body)) && A2(s, Create(c, from, targets, body))
    ensures Safe(DoCreate(s, c, from, targets, body))
  {
    var s' := DoCreate(s, c, from, targets, body);
    forall h | h in s.workers
      ensures WorkerOk(s', s.workers[h])
    {
      CreateOther(s, c, from, targets, body, s.workers[h]);
    }
    CreateTables(s, c, from, targets, body);
  }

  lemma CreateOther(s: State, c: nat, from: string, targets: seq<Target>, body: Bytes, w: Worker)
    requires c !in s.clients && WorkerOk(s, w) && (w.pc.Marking? ==> w.pc.ref.id != NextId(s))
    ensures WorkerOk(DoCreate(s, c, from, targets, body), w)
  {
  }

  lemma CreateTables(s: State, c: nat, from: string, targets: seq<Target>, body: Bytes)
    requires c !in s.clients
    requires RowsOk(s.mails, s.queue, s.issued) && ClientsOk(s.clients, s.mails)
    requires Numbered(s.issued, s.mails, s.clock)
    ensures var s' := DoCreate(s, c, from, targets, body);
      && RowsOk(s'.mails, s'.queue, s'.issued)
      && ClientsOk(s'.clients, s'.mails)
      && Numbered(s'.issued, s'.mails, s'.clock)
  {
  }

  lemma SilentCreateSafe(s: State, c: nat, from: string, targets: seq<Target>, body: Bytes)
    requires Safe(s) && c !in s.clients
    ensures Safe(DoSilentCreate(s, c, from, targets, body))
  {
    var s' := DoSilentCreate(s, c, from, targets, body);
    forall h | h in s'.workers
      ensures WorkerOk(s', s.workers[h])
    {
      SilentCreateOther(s, c, from, targets, body, s.workers[h]);
    }
  }

  lemma SilentCreateOther(s: State, c: nat, from: string, targets: seq<Target>, body: Bytes, w: Worker)
    requires c !in s.clients && WorkerOk(s, w)
    ensures WorkerOk(DoSilentCreate(s, c, from, targets, body), w)
  {
  }

  lemma InsertSafe(s: State, c: nat)
    requires Safe(s) && Enabled(s, Insert(c))
    ensures Safe(InsertNext(s, c))
  {
    if Inserts(s, c) {
      InsertRowSafe(s, c);
    } else {
      SkipSafe(s, c);
    }
  }

  /** Local and unusable recipients, and refused inserts, touch no table. */
  lemma SkipSafe(s: State, c: nat)
    requires Safe(s) && Enabled(s, Insert(c)) && !Inserts(s, c)
    ensures Safe(InsertNext(s, c))
  {
    SkipTables(s, c);
    SkipClients(s, c);
    OnlyClients(s, InsertNext(s, c).clients);
  }

  lemma SkipTables(s: State, c: nat)
    requires Enabled(s, Insert(c)) && !Inserts(s, c)
    ensures InsertNext(s, c) == s.(clients := InsertNext(s, c).clients)
  {
  }

  lemma SkipClients(s: State, c: nat)
    requires Enabled(s, Insert(c)) && !Inserts(s, c)
    ensures var q, clients := s.clients[c], InsertNext(s, c).clients;
      clients == s.clients - {c} || clients == s.clients[c := q.(targets := q.targets[1..])]
  {
  }

  ghost predicate Inserts(s: State, c: nat) {
    && c in s.clients && s.clients[c].kick.None? && s.clients[c].targets != []
    && s.clients[c].targets[0].Remote?
    && Key(s.clients[c].targets[0].dest, s.clients[c].id) !in s.queue
    && s.clients[c].id in s.mails
  }

  lemma InsertRowWorkers(s: State, c: nat)
    requires WorkersOk(s) && Inserts(s, c) && Numbered(s.issued, s.mails, s.clock)
    ensures WorkersOk(InsertNext(s, c))
  {
    forall h | h in s.workers
      ensures WorkerOk(InsertNext(s, c), s.workers[h])
    {
      InsertRowOther(s, c, s.workers[h]);
    }
  }

  lemma InsertRowOther(s: State, c: nat, w: Worker)
    requires Inserts(s, c) && WorkerOk(s, w) && s.clock !in s.issued
    ensures WorkerOk(InsertNext(s, c), w)
  {
  }

  lemma InsertRowSafe(s: State, c: nat)
    requires Safe(s) && Inserts(s, c)
    ensures Safe(InsertNext(s, c))
  {
    InsertRowWorkers(s, c);
    InsertRowMails(s, c);
    InsertRowIssued(s, c);
    InsertRowLog(s, c);
  }

  lemma InsertRowMails(s: State, c: nat)
    requires Inserts(s, c) && ClientsOk(s.clients, s.mails)
    requires RowsOk(s.mails, s.queue, s.issued) && Numbered(s.issued, s.mails, s.clock)
    ensures var s' := InsertNext(s, c);
      RowsOk(s'.mails, s'.queue, s'.issued) && ClientsOk(s'.clients, s'.mails)
  {
  }

  lemma InsertRowIssued(s: State, c: nat)
    requires Inserts(s, c) && Numbered(s.issued, s.mails, s.clock)
    ensures var s' := InsertNext(s, c); Numbered(s'.issued, s'.mails, s'.clock)
  {
  }

  lemma InsertRowLog(s: State, c: nat)
    requires Inserts(s, c) && Numbered(s.issued, s.mails, s.clock)
    requires Conserved(s.issued, s.queue, s.log) && Authentic(s.log, s.issued)
    ensures var s' := InsertNext(s, c);
      Conserved(s'.issued, s'.queue, s'.log) && Authentic(s'.log, s'.issued)
  {
    assert s.clock !in s.issued;
    InsertRowConserves(s, c);
    InsertRowAuthentic(s, c);
  }

  lemma InsertRowConserves(s: State, c: nat)
    requires Inserts(s, c) && s.clock !in s.issued && Conserved(s.issued, s.queue, s.log)
    ensures var s' := InsertNext(s, c); Conserved(s'.issued, s'.queue, s'.log)
  {
    var s' := InsertNext(s, c);
    forall t | t in s'.issued
      ensures Queued(s'.queue, s'.issued[t]) || s'.issued[t] in s'.log
    {
      if t != s.clock {
        assert t in s.issued;
      }
    }
  }

  lemma InsertRowAuthentic(s: State, c: nat)
    requires Inserts(s, c) && s.clock !in s.issued && Authentic(s.log, s.issued)
    ensures var s' := InsertNext(s, c); Authentic(s'.log, s'.issued)
  {
  }

  // --------------------------------------------------------------- all steps

  /** Every step allowed by A1 and A2 keeps the queue safe, storage errors included. */
  lemma StepSafe(s: State, step: Step)
    requires Safe(s) && Enabled(s, step) && A1(s, step) && A2(s, step)
    ensures Safe(Apply(s, step))
  {
    if ByWorker(step) {
      WorkerStepSafe(s, step);
    } else if ByClient(step) {
      ClientStepSafe(s, step);
    } else if Lists(step) {
      TickSafe(s, step.order);
    } else if step.TickStart? {
      TickStartSafe(s, step.g);
    } else {
      RestartSafe(s);
    }
  }

  lemma ClientStepSafe(s: State, step: Step)
    requires Safe(s) && Enabled(s, step) && A2(s, step) && ByClient(step)
    ensures Safe(Apply(s, step))
  {
    if step.Create? {
      CreateSafe(s, step.c, step.from, step.targets, step.body);
    } else if step.SilentCreate? {
      SilentCreateSafe(s, step.c, step.from, step.targets, step.body);
    } else {
      CallStepSafe(s, step);
    }
  }

  lemma CallStepSafe(s: State, step: Step)
    requires Safe(s) && Enabled(s, step) && ByClient(step) && !step.Create? && !step.SilentCreate?
    ensures Safe(Apply(s, step))
  {
    match step
    case Insert(c) => InsertSafe(s, c);
    case InsertFault(c) => OnlyClients(s, s.clients - {c});
    case Kick(c, g) => KickSafe(s, c, g);
    case Return(c) => OnlyClients(s, s.clients - {c});
    case SilentInsert(c) => OnlyClients(s, DoSilentInsert(s, c).clients);
  }

  lemma WorkerStepSafe(s: State, step: Step)
    requires Safe(s) && Enabled(s, step) && A1(s, step) && ByWorker(step)
    ensures Safe(Apply(s, step))
  {
    if Reads(step) || step.Select? || step.SendOk? || step.SendFail? || step.DropMissing? {
      SendingStepSafe(s, step);
    } else {
      SettlingStepSafe(s, step);
    }
  }

  lemma SendingStepSafe(s: State, step: Step)
    requires Safe(s) && Enabled(s, step)
    requires Reads(step) || step.Select? || step.SendOk? || step.SendFail? || step.DropMissing?
    ensures Safe(Apply(s, step))
  {
    if Reads(step) {
      SnapshotSafe(s, step.g, step.refs);
    } else if step.Select? {
      SelectSafe(s, step.g);
    } else if step.SendOk? {
      SendOkSafe(s, step.g);
    } else if step.SendFail? {
      SendFailSafe(s, step.g);
    }
  }

  lemma SettlingStepSafe(s: State, step: Step)
    requires Safe(s) && Enabled(s, step) && A1(s, step) && ByWorker(step)
    requires !Reads(step) && !step.Select? && !step.SendOk? && !step.SendFail? && !step.DropMissing?
    ensures Safe(Apply(s, step))
  {
    match step
    case DropRow(g) => DropRowSafe(s, g);
    case Check(g) => CheckSafe(s, g);
    case Mark(g) => MarkSafe(s, g);
    case Expunge(g) => ExpungeSafe(s, g);
    case Finish(g) => FinishSafe(s, g);
    case Fault(g) => FaultSafe(s, g);
    case SilentDrop(g) => SilentDropSafe(s, g);
  }


  lemma TickSafe(s: State, order: seq<string>)
    requires Safe(s)
    ensures Safe(DoTick(s, order))
  {
    SafeElsewhere(s, DoTick(s, order));
  }

  /** Safe says nothing of the manager's list or the failure record. */
  lemma SafeElsewhere(s: State, s': State)
    requires Safe(s) && s' == s.(manager := s'.manager, failed := s'.failed)
    ensures Safe(s')
  {
    forall g | g in s'.workers
      ensures WorkerOk(s', s'.workers[g])
    {
      assert WorkerOk(s, s.workers[g]);
    }
  }

  lemma TickStartSafe(s: State, g: nat)
    requires Safe(s) && Enabled(s, TickStart(g))
    ensures Safe(DoTickStart(s, g))
  {
    StartSafe(s, s.manager[0], g);
    SafeElsewhere(StartQueue(s, s.manager[0], g), DoTickStart(s, g));
  }

  lemma KickSafe(s: State, c: nat, g: nat)
    requires Safe(s) && Enabled(s, Kick(c, g))
    ensures Safe(DoKick(s, c, g))
  {
    var clients := s.clients[c := s.clients[c].(kick := None)];
    OnlyClients(s, clients);
    StartSafe(s.(clients := clients), s.clients[c].kick.value, g);
    assert DoKick(s, c, g) == StartQueue(s.(clients := clients), s.clients[c].kick.value, g);
  }

  lemma {:induction false} RunSafe(s: State, steps: seq<Step>, m: Regime)
    requires Safe(s) && IsRun(s, steps, m) && m.a1 && m.a2
    ensures Safe(Final(s, steps, m))
    decreases |steps|
  {
    if steps != [] {
      StepSafe(s, steps[0]);
      RunSafe(Apply(s, steps[0]), steps[1..], m);
    }
  }
}

/**
 One quiet round: from an idle queue, one manager tick and any interleaving of
 the workers it starts, with no new mail and no storage errors.
 */
module DeliveryRound {
  import opened Base
  import opened DeliveryProtocol
  import opened DeliverySafety
  import opened DeliveryTickets
  import opened DeliverySweep
  import opened DeliveryRuns

  ghost predicate Idle(s: State) {
    s.workers == map[] && s.clients == map[] && s.manager == []
  }

  /** A step that may follow the tick in a quiet round. */
  ghost predicate RoundStep(step: Step) {
    (step.TickStart? || ByWorker(step)) && !Faulty(step)
  }

  ghost predicate IsRound(steps: seq<Step>) {
    steps != [] && steps[0].Tick? && forall j :: 1 <= j < |steps| ==> RoundStep(steps[j])
  }

  // ------------------------------------------------------------ invariants

  /** Worker w has still to try row k. */
  ghost predicate Owes(w: Worker, k: Key) {
    w.dest == k.dest && (w.pc.Starting? || exists r :: Unfinished(w, r) && r.id == k.id)
  }

  /** Row k has still to be tried in this round. */
  ghost predicate Owed(manager: seq<string>, workers: Workers, k: Key) {
    k.dest in manager || exists g :: g in workers && Owes(workers[g], k)
  }

  /** Untried rows are there; tried ones are there exactly if the send failed. */
  ghost predicate RowSettled(k: Key, ticket: nat, owed: bool, queue: Queue, failed: set<nat>) {
    if owed then k in queue && ticket !in failed else k in queue <==> ticket in failed
  }

  ghost predicate RowsSettled(rows: Queue, manager: seq<string>, workers: Workers, queue: Queue, failed: set<nat>) {
    && (forall k :: k in queue ==> k in rows && queue[k] == rows[k])
    && (forall k :: k in rows ==> RowSettled(k, rows[k].ticket, Owed(manager, workers, k), queue, failed))
  }

  /** Mails change only by being marked or removed, and an unmarked one only once its rows are gone. */
  ghost predicate MailsSettled(mails0: Mails, rows: Queue, mails: Mails, queue: Queue) {
    && (forall i :: i in mails ==> i in mails0 && SameButMark(mails0[i], mails[i]))
    && (forall i :: i in mails0 && !mails0[i].deleted && (i !in mails || mails[i].deleted) ==>
          !NoRowsFor(i, rows) && NoRowsFor(i, queue))
  }

  predicate SameButMark(m: OutMail, m': OutMail) {
    m' == m || m' == m.(deleted := true)
  }

  /** While mails are marked, an expunge is still to come. */
  ghost predicate RoundSweeps(s: State) {
    forall i :: i in s.mails && s.mails[i].deleted ==> WillExpunge(s.workers) || s.manager != []
  }

  /** What has left the queue since s0, and what is about to, has been written since. */
  ghost predicate RoundWrites(s0: State, s: State) {
    && (forall g :: g in s.workers && s.workers[g].pc.Written? ==> WrittenSince(s0, s, s.workers[g].pc.ref.ticket))
    && (forall k :: k in s0.queue && k !in s.queue ==> WrittenSince(s0, s, s0.queue[k].ticket))
  }

  ghost predicate WrittenSince(s0: State, s: State, t: nat) {
    t in s.issued && s.log[s.issued[t]] > s0.log[s.issued[t]]
  }

  /** The mails that have no rows when the round begins: nothing in it is to mark them. */
  ghost function Spared(s0: State): set<nat> {
    set i | i in s0.mails && NoRowsFor(i, s0.queue) :: s0.mails[i].ident
  }

  /** The destinations left to start are distinct and have no worker yet. */
  ghost predicate ListOk(manager: seq<string>, running: set<string>) {
    && (forall a, b :: 0 <= a < b < |manager| ==> manager[a] != manager[b])
    && (forall d :: d in manager ==> d !in running)
  }

  ghost predicate DoneEmpty(workers: Workers) {
    forall g :: g in workers && workers[g].pc.Finishing? ==> workers[g].refs == []
  }

  /** The reference a worker has in hand was a row when the round began. */
  ghost predicate HandsOk(rows: Queue, workers: Workers) {
    forall g :: g in workers && InHand(workers[g].pc) ==> Key(workers[g].dest, workers[g].pc.ref.id) in rows
  }

  ghost predicate InRound(s0: State, s: State) {
    && s.issued == s0.issued && s.clients == map[]
    && RowsSettled(s0.queue, s.manager, s.workers, s.queue, s.failed)
    && MailsSettled(s0.mails, s0.queue, s.mails, s.queue)
    && ListOk(s.manager, s.running)
    && DoneEmpty(s.workers)
    && HandsOk(s0.queue, s.workers)
  }

  // ------------------------------------------------------------- what is owed

  /** If worker g owes the same before and after and no other worker moves, so does the round. */
  lemma OwedMoved(manager: seq<string>, workers: Workers, g: nat, w: Worker, k: Key)
    requires g in workers && (Owes(workers[g], k) <==> Owes(w, k))
    ensures Owed(manager, workers, k) <==> Owed(manager, workers[g := w], k)
  {
    var after := workers[g := w];
    if h :| h in workers && Owes(workers[h], k) {
      assert h in after && Owes(after[h], k);
    }
    if h :| h in after && Owes(after[h], k) {
      assert h in workers && Owes(workers[h], k);
    }
  }

  lemma SettledMoved(rows: Queue, manager: seq<string>, workers: Workers, queue: Queue, failed: set<nat>, g: nat, w: Worker)
    requires RowsSettled(rows, manager, workers, queue, failed) && g in workers
    requires forall k :: k in rows ==> (Owes(workers[g], k) <==> Owes(w, k))
    ensures RowsSettled(rows, manager, workers[g := w], queue, failed)
  {
    forall k | k in rows
      ensures RowSettled(k, rows[k].ticket, Owed(manager, workers[g := w], k), queue, failed)
    {
      OwedMoved(manager, workers, g, w, k);
    }
  }

  /** Worker g is the only one that can owe a row of its destination. */
  lemma OwedByOne(s: State, g: nat, k: Key)
    requires Locked(s.running, s.workers) && ListOk(s.manager, s.running)
    requires g in s.workers && k.dest == s.workers[g].dest
    ensures Owed(s.manager, s.workers, k) <==> Owes(s.workers[g], k)
  {
    assert s.workers[g].dest in s.running;
    if h :| h in s.workers && Owes(s.workers[h], k) {
      assert h == g;
    }
  }

  // ------------------------------------------------------------- round steps

  /** Worker g goes on with what it owes, and nothing else changes but the log. */
  lemma GoesOn(s0: State, s: State, g: nat, w: Worker)
    requires InRound(s0, s) && g in s.workers && w.dest == s.workers[g].dest
    requires forall k :: k in s0.queue ==> (Owes(s.workers[g], k) <==> Owes(w, k))
    requires w.pc.Finishing? ==> w.refs == []
    requires InHand(w.pc) ==> Key(w.dest, w.pc.ref.id) in s0.queue
    ensures InRound(s0, s.(workers := s.workers[g := w]))
  {
    SettledMoved(s0.queue, s.manager, s.workers, s.queue, s.failed, g, w);
  }

  lemma RoundTickStart(s0: State, s: State, g: nat)
    requires InRound(s0, s) && Locked(s.running, s.workers) && Enabled(s, TickStart(g))
    ensures InRound(s0, DoTickStart(s, g))
  {
    var s' := DoTickStart(s, g);
    assert s.manager[0] !in s.running;
    forall k | k in s0.queue
      ensures RowSettled(k, s0.queue[k].ticket, Owed(s'.manager, s'.workers, k), s'.queue, s'.failed)
    {
      StartOwes(s, g, k);
    }
  }

  lemma StartOwes(s: State, g: nat, k: Key)
    requires Enabled(s, TickStart(g)) && s.manager[0] !in s.running
    ensures var s' := DoTickStart(s, g);
      Owed(s.manager, s.workers, k) <==> Owed(s'.manager, s'.workers, k)
  {
    var s' := DoTickStart(s, g);
    if h :| h in s.workers && Owes(s.workers[h], k) {
      assert h in s'.workers && Owes(s'.workers[h], k);
    }
    if k.dest == s.manager[0] {
      assert g in s'.workers && Owes(s'.workers[g], k);
    }
    if h :| h in s'.workers && Owes(s'.workers[h], k) && h != g {
      assert h in s.workers && Owes(s.workers[h], k);
    }
  }

  lemma RoundSnapshot(s0: State, s: State, g: nat, refs: seq<Ref>)
    requires InRound(s0, s) && Enabled(s, Snapshot(g, refs))
    ensures InRound(s0, DoSnapshot(s, g, refs))
  {
    var w, w' := s.workers[g], DoSnapshot(s, g, refs).workers[g];
    forall k | k in s0.queue
      ensures Owes(w, k) <==> Owes(w', k)
    {
      if k.dest == w.dest {
        assert Owes(w, k);
        assert k in s.queue;
        var r :| r in refs && r.id == k.id;
        assert Unfinished(w', r);
      }
    }
    GoesOn(s0, s, g, w');
  }

  lemma RoundSelect(s0: State, s: State, g: nat)
    requires InRound(s0, s) && Enabled(s, Select(g)) && WorkerOk(s, s.workers[g])
    requires RowsOk(s.mails, s.queue, s.issued)
    ensures InRound(s0, DoSelect(s, g))
  {
    var w, w' := s.workers[g], DoSelect(s, g).workers[g];
    assert Unfinished(w, w.refs[0]);
    assert w'.pc.Sending?;
    SelectOwes(s, g);
    GoesOn(s0, s, g, w');
  }

  lemma SelectOwes(s: State, g: nat)
    requires Enabled(s, Select(g)) && DoSelect(s, g).workers[g].pc.Sending?
    ensures forall k :: Owes(s.workers[g], k) <==> Owes(DoSelect(s, g).workers[g], k)
  {
    var w, w' := s.workers[g], DoSelect(s, g).workers[g];
    assert w.refs == [w.refs[0]] + w'.refs;
    assert forall r :: Unfinished(w, r) <==> Unfinished(w', r);
  }

  /** Moving to a program point that holds no row leaves owed what is still listed. */
  lemma SameRefsOwe(w: Worker, w': Worker)
    requires w.dest == w'.dest && w.refs == w'.refs && !w.pc.Starting? && !w'.pc.Starting?
    requires (w.pc.Sending? || w.pc.Written?) <==> (w'.pc.Sending? || w'.pc.Written?)
    requires w.pc.Sending? ==> w'.pc.ref == w.pc.ref
    requires w.pc.Written? ==> w'.pc.ref == w.pc.ref
    ensures forall k :: Owes(w, k) <==> Owes(w', k)
  {
    assert forall r :: Unfinished(w, r) <==> Unfinished(w', r);
  }

  lemma RoundSendOk(s0: State, s: State, g: nat)
    requires InRound(s0, s) && Enabled(s, SendOk(g))
    ensures InRound(s0, DoSendOk(s, g))
  {
    var w' := DoSendOk(s, g).workers[g];
    SameRefsOwe(s.workers[g], w');
    GoesOn(s0, s, g, w');
  }

  lemma RoundCheck(s0: State, s: State, g: nat)
    requires InRound(s0, s) && Enabled(s, Check(g))
    ensures InRound(s0, DoCheck(s, g))
  {
    var w' := DoCheck(s, g).workers[g];
    SameRefsOwe(s.workers[g], w');
    GoesOn(s0, s, g, w');
  }

  lemma RoundMark(s0: State, s: State, g: nat)
    requires InRound(s0, s) && Enabled(s, Mark(g)) && WorkerOk(s, s.workers[g])
    ensures InRound(s0, DoMark(s, g))
  {
    var w' := DoMark(s, g).workers[g];
    SameRefsOwe(s.workers[g], w');
    GoesOn(s0, s, g, w');
    assert Key(s.workers[g].dest, s.workers[g].pc.ref.id) in s0.queue;
  }

  lemma RoundExpunge(s0: State, s: State, g: nat)
    requires InRound(s0, s) && Enabled(s, Expunge(g)) && RowsOk(s.mails, s.queue, s.issued)
    ensures InRound(s0, DoExpunge(s, g))
  {
    var w' := DoExpunge(s, g).workers[g];
    ExpungeKeepsQueue(s);
    SameRefsOwe(s.workers[g], w');
    GoesOn(s0, s, g, w');
  }

  lemma RoundFinish(s0: State, s: State, g: nat)
    requires InRound(s0, s) && Enabled(s, Finish(g))
    ensures InRound(s0, DoFinish(s, g))
  {
    var s' := DoFinish(s, g);
    forall k | k in s0.queue
      ensures RowSettled(k, s0.queue[k].ticket, Owed(s'.manager, s'.workers, k), s'.queue, s'.failed)
    {
      FinishOwes(s, g, k);
    }
  }

  lemma FinishOwes(s: State, g: nat, k: Key)
    requires Enabled(s, Finish(g)) && s.workers[g].refs == []
    ensures Owed(s.manager, s.workers, k) <==> Owed(s.manager, s.workers - {g}, k)
  {
    if h :| h in s.workers && Owes(s.workers[h], k) {
      assert h in s.workers - {g} && Owes((s.workers - {g})[h], k);
    }
    if h :| h in s.workers - {g} && Owes((s.workers - {g})[h], k) {
      assert h in s.workers && Owes(s.workers[h], k);
    }
  }

  /** Done with the reference in hand: its row alone stops being owed. */
  lemma LetsGo(s: State, g: nat, pc: Pc, k: Key)
    requires Locked(s.running, s.workers) && ListOk(s.manager, s.running)
    requires g in s.workers && WorkerOk(s, s.workers[g])
    requires s.workers[g].pc.Sending? || s.workers[g].pc.Written?
    requires pc.Looping? || pc.Unqueued?
    ensures var mine := Key(s.workers[g].dest, s.workers[g].pc.ref.id);
      var workers := s.workers[g := s.workers[g].(pc := pc)];
      && (k != mine ==> (Owed(s.manager, s.workers, k) <==> Owed(s.manager, workers, k)))
      && Owed(s.manager, s.workers, mine) && !Owed(s.manager, workers, mine)
  {
    var w := s.workers[g];
    var w' := w.(pc := pc);
    var mine := Key(w.dest, w.pc.ref.id);
    assert Unfinished(w, w.pc.ref);
    assert !Owes(w', mine);
    OwedByOne(s, g, mine);
    LockedMoved(s.running, s.workers, g, w');
    OwedByOne(s.(workers := s.workers[g := w']), g, mine);
    if k != mine {
      LetsGoOther(w, pc, k);
      OwedMoved(s.manager, s.workers, g, w', k);
    }
  }

  lemma LetsGoOther(w: Worker, pc: Pc, k: Key)
    requires (w.pc.Sending? || w.pc.Written?) && (pc.Looping? || pc.Unqueued?)
    requires k != Key(w.dest, w.pc.ref.id)
    ensures Owes(w, k) <==> Owes(w.(pc := pc), k)
  {
    if k.dest == w.dest {
      if r :| Unfinished(w, r) && r.id == k.id {
        assert Unfinished(w.(pc := pc), r);
      }
      if r :| Unfinished(w.(pc := pc), r) && r.id == k.id {
        assert Unfinished(w, r);
      }
    }
  }

  lemma RoundSendFail(s0: State, s: State, g: nat)
    requires InRound(s0, s) && Locked(s.running, s.workers) && Enabled(s, SendFail(g)) && WorkerOk(s, s.workers[g])
    requires RowsOk(s.mails, s.queue, s.issued) && RowsOk(s0.mails, s0.queue, s0.issued)
    ensures InRound(s0, DoSendFail(s, g))
  {
    var w, s' := s.workers[g], DoSendFail(s, g);
    assert Unfinished(w, w.pc.ref);
    forall k | k in s0.queue
      ensures RowSettled(k, s0.queue[k].ticket, Owed(s'.manager, s'.workers, k), s'.queue, s'.failed)
    {
      LetsGo(s, g, Looping, k);
      if s0.queue[k].ticket == w.pc.ref.ticket {
        TicketOfRow(s0, s, g, k);
      }
    }
  }

  /** Rows of different keys carry different tickets. */
  lemma TicketOfRow(s0: State, s: State, g: nat, k: Key)
    requires InRound(s0, s) && RowsOk(s.mails, s.queue, s.issued) && RowsOk(s0.mails, s0.queue, s0.issued)
    requires g in s.workers && s.workers[g].pc.Sending?
    requires HasRow(s.queue, s.workers[g].dest, s.workers[g].pc.ref)
    requires k in s0.queue && s0.queue[k].ticket == s.workers[g].pc.ref.ticket
    ensures k == Key(s.workers[g].dest, s.workers[g].pc.ref.id)
  {
    var mine := Key(s.workers[g].dest, s.workers[g].pc.ref.id);
    assert RowOk(s.mails, mine, s.queue[mine], s.issued);
    assert RowOk(s0.mails, k, s0.queue[k], s0.issued);
  }

  lemma RoundDropRow(s0: State, s: State, g: nat)
    requires InRound(s0, s) && Locked(s.running, s.workers) && Enabled(s, DropRow(g)) && WorkerOk(s, s.workers[g])
    ensures InRound(s0, DoDropRow(s, g))
  {
    var w, s' := s.workers[g], DoDropRow(s, g);
    forall k | k in s0.queue
      ensures RowSettled(k, s0.queue[k].ticket, Owed(s'.manager, s'.workers, k), s'.queue, s'.failed)
    {
      LetsGo(s, g, Unqueued(w.pc.ref), k);
    }
  }

  lemma RoundTick(s0: State, order: seq<string>)
    requires Idle(s0) && Locked(s0.running, s0.workers) && Enabled(s0, Tick(order))
    ensures InRound(s0, DoTick(s0, order)) && (s0.queue != map[] ==> RoundSweeps(DoTick(s0, order)))
    ensures LastRemover(DoTick(s0, order), Spared(s0))
  {
    assert forall d :: d in s0.running ==> Served(s0.workers, d);
    if k :| k in s0.queue {
      assert k.dest in order;
    }
  }

  lemma RoundStepSweeps(s: State, step: Step)
    requires RoundSweeps(s) && ListOk(s.manager, s.running) && Enabled(s, step) && RoundStep(step)
    ensures RoundSweeps(Apply(s, step))
  {
    var s' := Apply(s, step);
    forall i | i in s'.mails && s'.mails[i].deleted
      ensures WillExpunge(s'.workers) || s'.manager != []
    {
      if step.TickStart? {
        assert s.manager[0] !in s.running;
        assert step.g in s'.workers && !s'.workers[step.g].pc.Finishing?;
      } else if step.Mark? {
        assert !s'.workers[step.g].pc.Finishing?;
      } else {
        MarkedBefore(s, step, i);
        ManagerWaits(s, step);
        if g :| g in s.workers && !s.workers[g].pc.Finishing? {
          StaysUnfinished(s, step, g);
        }
      }
    }
  }

  lemma RoundStepWrites(s0: State, s: State, step: Step)
    requires InRound(s0, s) && Safe(s) && RoundWrites(s0, s) && s0.log <= s.log
    requires Enabled(s, step) && RoundStep(step)
    ensures RoundWrites(s0, Apply(s, step)) && s0.log <= Apply(s, step).log
  {
    if step.SendOk? {
      SendsAsIssued(s, step.g);
      SendOkWrites(s0, s, step.g);
    } else if step.DropRow? {
      assert WorkerOk(s, s.workers[step.g]);
      DropRowWrites(s0, s, step.g);
    } else {
      OtherWrites(s0, s, step);
    }
  }

  lemma SendOkWrites(s0: State, s: State, g: nat)
    requires RoundWrites(s0, s) && s0.log <= s.log && Enabled(s, SendOk(g))
    requires s.workers[g].pc.ref.ticket in s.issued && Sent(s.workers[g]) == s.issued[s.workers[g].pc.ref.ticket]
    ensures RoundWrites(s0, DoSendOk(s, g)) && s0.log <= DoSendOk(s, g).log
  {
  }

  lemma DropRowWrites(s0: State, s: State, g: nat)
    requires RoundWrites(s0, s) && Enabled(s, DropRow(g)) && Fresh(s.workers[g], s.queue)
    requires forall k :: k in s.queue ==> k in s0.queue && s.queue[k] == s0.queue[k]
    ensures RoundWrites(s0, DoDropRow(s, g))
  {
    assert Unfinished(s.workers[g], s.workers[g].pc.ref);
  }

  lemma OtherWrites(s0: State, s: State, step: Step)
    requires RowsOk(s.mails, s.queue, s.issued) && WorkersOk(s) && RoundWrites(s0, s)
    requires Enabled(s, step) && RoundStep(step) && !step.SendOk? && !step.DropRow?
    ensures RoundWrites(s0, Apply(s, step)) && Apply(s, step).log == s.log
  {
    if ByWorker(step) {
      WorkerWritesNothing(s, step);
      WorkerShrinks(s, step);
      LogKept(s, step);
    } else {
      StartWritesNothing(s, step.g);
    }
    WritesKept(s0, s, Apply(s, step));
  }

  ghost predicate NothingWritten(s: State, s': State) {
    && s'.issued == s.issued && s'.queue == s.queue && s'.log == s.log
    && forall g :: g in s'.workers && s'.workers[g].pc.Written? ==> g in s.workers && s'.workers[g] == s.workers[g]
  }

  lemma StartWritesNothing(s: State, g: nat)
    requires Enabled(s, TickStart(g))
    ensures NothingWritten(s, DoTickStart(s, g))
  {
  }

  lemma WritesKept(s0: State, s: State, s': State)
    requires RoundWrites(s0, s) && NothingWritten(s, s')
    ensures RoundWrites(s0, s')
  {
  }

  /** Only a send takes a worker to the point of having written, and only a row delete removes a row. */
  lemma WorkerWritesNothing(s: State, step: Step)
    requires RowsOk(s.mails, s.queue, s.issued) && WorkersOk(s)
    requires Enabled(s, step) && ByWorker(step) && !Faulty(step) && !step.SendOk? && !step.DropRow?
    ensures Apply(s, step).queue == s.queue
    ensures forall g :: g in Apply(s, step).workers && Apply(s, step).workers[g].pc.Written? ==>
      g in s.workers && Apply(s, step).workers[g] == s.workers[g]
  {
    ExpungeKeepsQueue(s);
    assert WorkerOk(s, s.workers[step.g]);
  }

  lemma ManagerWaits(s: State, step: Step)
    requires Enabled(s, step) && ByWorker(step)
    ensures Apply(s, step).manager == s.manager && Apply(s, step).clients == s.clients
  {
  }

  lemma RoundAnyStep(s0: State, s: State, step: Step)
    requires InRound(s0, s) && Safe(s) && Enabled(s, step) && RoundStep(step)
    requires RowsOk(s0.mails, s0.queue, s0.issued)
    ensures InRound(s0, Apply(s, step))
  {
    if step.TickStart? {
      RoundTickStart(s0, s, step.g);
    } else {
      assert WorkerOk(s, s.workers[step.g]);
      RoundWorkerStep(s0, s, step);
    }
  }

  lemma RoundWorkerStep(s0: State, s: State, step: Step)
    requires InRound(s0, s) && Enabled(s, step) && ByWorker(step) && !Faulty(step)
    requires Locked(s.running, s.workers) && WorkerOk(s, s.workers[step.g])
    requires RowsOk(s.mails, s.queue, s.issued) && RowsOk(s0.mails, s0.queue, s0.issued)
    ensures InRound(s0, Apply(s, step))
  {
    if step.Snapshot? {
      RoundSnapshot(s0, s, step.g, step.refs);
    } else if step.Select? {
      RoundSelect(s0, s, step.g);
    } else if step.SendOk? {
      RoundSendOk(s0, s, step.g);
    } else if step.SendFail? {
      RoundSendFail(s0, s, step.g);
    } else if step.DropRow? {
      RoundDropRow(s0, s, step.g);
    } else if step.Check? {
      RoundCheck(s0, s, step.g);
    } else if step.Mark? {
      RoundMark(s0, s, step.g);
    } else if step.Expunge? {
      RoundExpunge(s0, s, step.g);
    } else if step.Finish? {
      RoundFinish(s0, s, step.g);
    }
  }

  lemma {:induction false} RoundRun(s0: State, s: State, steps: seq<Step>)
    requires InRound(s0, s) && Safe(s) && RowsOk(s0.mails, s0.queue, s0.issued) && IsRun(s, steps, RELIABLE)
    requires forall j :: 0 <= j < |steps| ==> RoundStep(steps[j])
    ensures var s' := Final(s, steps, RELIABLE); InRound(s0, s') && Safe(s')
    decreases |steps|
  {
    if steps != [] {
      RoundAnyStep(s0, s, steps[0]);
      StepSafe(s, steps[0]);
      RoundRun(s0, Apply(s, steps[0]), steps[1..]);
    }
  }

  lemma {:induction false} RoundRunSweeps(s0: State, s: State, steps: seq<Step>)
    requires InRound(s0, s) && Safe(s) && RoundSweeps(s)
    requires RowsOk(s0.mails, s0.queue, s0.issued) && IsRun(s, steps, RELIABLE)
    requires forall j :: 0 <= j < |steps| ==> RoundStep(steps[j])
    ensures RoundSweeps(Final(s, steps, RELIABLE))
    decreases |steps|
  {
    if steps != [] {
      RoundAnyStep(s0, s, steps[0]);
      StepSafe(s, steps[0]);
      RoundStepSweeps(s, steps[0]);
      RoundRunSweeps(s0, Apply(s, steps[0]), steps[1..]);
    }
  }

  lemma {:induction false} RoundRunWrites(s0: State, s: State, steps: seq<Step>)
    requires InRound(s0, s) && Safe(s) && RoundWrites(s0, s) && s0.log <= s.log
    requires RowsOk(s0.mails, s0.queue, s0.issued) && IsRun(s, steps, RELIABLE)
    requires forall j :: 0 <= j < |steps| ==> RoundStep(steps[j])
    ensures RoundWrites(s0, Final(s, steps, RELIABLE))
    decreases |steps|
  {
    if steps != [] {
      RoundAnyStep(s0, s, steps[0]);
      StepSafe(s, steps[0]);
      RoundStepWrites(s0, s, steps[0]);
      RoundRunWrites(s0, Apply(s, steps[0]), steps[1..]);
    }
  }

  lemma {:induction false} RoundRunRemover(s: State, steps: seq<Step>, spared: set<nat>)
    requires Safe(s) && LastRemover(s, spared) && IsRun(s, steps, RELIABLE)
    requires forall j :: 0 <= j < |steps| ==> RoundStep(steps[j])
    ensures LastRemover(Final(s, steps, RELIABLE), spared)
    decreases |steps|
  {
    if steps != [] {
      StepSafe(s, steps[0]);
      RoundLastRemover(s, steps[0], spared);
      RoundRunRemover(Apply(s, steps[0]), steps[1..], spared);
    }
  }

  /** No worker of a safe queue misses its mail. */
  lemma RoundLastRemover(s: State, step: Step, spared: set<nat>)
    requires LastRemover(s, spared) && Numbered(s.issued, s.mails, s.clock) && WorkersOk(s)
    requires Enabled(s, step) && RoundStep(step)
    ensures LastRemover(Apply(s, step), spared)
  {
    assert ByWorker(step) ==> WorkerOk(s, s.workers[step.g]);
    StepLastRemover(s, step, spared);
  }

  // ------------------------------------------------------------ the theorem

  /** Every send of mail i's rows in s0 succeeded, and there was at least one. */
  ghost predicate AllSent(s0: State, i: int, failed: set<nat>) {
    && (exists k :: k in s0.queue && k.id == i)
    && (forall k :: k in s0.queue && k.id == i ==> s0.queue[k].ticket !in failed)
  }

  /**
   From any idle state, whatever failed and however often the process restarted on
   the way there, a round without storage errors run to completion leaves exactly the
   rows whose send failed and has written, in the round, the body of every other row.  It removes
   exactly the mails all of whose sends succeeded and, if there was a row at all, those
   that were marked before; all other mails are as they were.
   */
  lemma OneQuietRoundDrains(before: seq<Step>, round: seq<Step>)
    requires IsRun(INIT, before, GUARDED) && Idle(Final(INIT, before, GUARDED))
    requires IsRound(round) && IsRun(Final(INIT, before, GUARDED), round, RELIABLE)
    requires Idle(Final(Final(INIT, before, GUARDED), round, RELIABLE))
    ensures var s0 := Final(INIT, before, GUARDED); Drained(s0, Final(s0, round, RELIABLE))
  {
    InitSafe();
    RunSafe(INIT, before, GUARDED);
    RoundDrains(Final(INIT, before, GUARDED), round);
  }

  /** Without rows there is nobody to start, and the round is the tick alone. */
  lemma EmptyRound(s0: State, round: seq<Step>)
    requires Idle(s0) && s0.queue == map[] && IsRound(round) && IsRun(s0, round, RELIABLE)
    ensures Final(s0, round, RELIABLE).mails == s0.mails
  {
    var order, s1 := round[0].order, DoTick(s0, round[0].order);
    HostHasRow(s0, order);
    assert round[1..] != [] ==> RoundStep(round[1]) && Enabled(s1, round[1]);
  }

  lemma HostHasRow(s: State, order: seq<string>)
    requires AreHosts(s, order)
    ensures order != [] ==> s.queue != map[]
  {
    if order != [] {
      assert order[0] in order;
      var k :| k in s.queue && k.dest == order[0];
    }
  }

  /** Nothing is left marked, if there were rows; without rows nothing has changed. */
  ghost predicate SweptOut(s0: State, s: State) {
    if s0.queue == map[] then s.mails == s0.mails else RoundSweeps(s)
  }

  /** What a round does, from s0 to s. */
  ghost predicate Drained(s0: State, s: State) {
    && s.queue == (map k | k in s0.queue && s0.queue[k].ticket in s.failed :: s0.queue[k])
    && s.issued == s0.issued
    && (forall k :: k in s0.queue && s0.queue[k].ticket !in s.failed ==> WrittenSince(s0, s, s0.queue[k].ticket))
    && s.mails == (map i | i in s0.mails && !Leaves(s0, i, s.failed) :: s0.mails[i])
  }

  /** Mail i goes: it was sent to all its destinations, or was marked already and there was some row. */
  ghost predicate Leaves(s0: State, i: int, failed: set<nat>)
    requires i in s0.mails
  {
    if s0.mails[i].deleted then s0.queue != map[] else AllSent(s0, i, failed)
  }

  lemma RoundDrains(s0: State, round: seq<Step>)
    requires Safe(s0) && Idle(s0)
    requires IsRound(round) && IsRun(s0, round, RELIABLE) && Idle(Final(s0, round, RELIABLE))
    ensures Drained(s0, Final(s0, round, RELIABLE))
  {
    var s1 := Apply(s0, round[0]);
    RoundTick(s0, round[0].order);
    StepSafe(s0, round[0]);
    RoundRun(s0, s1, round[1..]);
    if s0.queue == map[] {
      EmptyRound(s0, round);
    } else {
      RoundRunSweeps(s0, s1, round[1..]);
    }
    RoundRunRemover(s1, round[1..], Spared(s0));
    RoundRunWrites(s0, s1, round[1..]);
    RoundEnds(s0, Final(s1, round[1..], RELIABLE));
  }

  lemma RoundEnds(s0: State, s: State)
    requires Safe(s0) && InRound(s0, s) && RoundWrites(s0, s)
    requires SweptOut(s0, s) && LastRemover(s, Spared(s0)) && Idle(s)
    ensures Drained(s0, s)
  {
    RoundRowsEnd(s0, s);
    RoundMailsEnd(s0, s);
  }

  lemma RoundRowsEnd(s0: State, s: State)
    requires RowsOk(s0.mails, s0.queue, s0.issued) && InRound(s0, s) && Idle(s)
    requires RoundWrites(s0, s)
    ensures s.queue == (map k | k in s0.queue && s0.queue[k].ticket in s.failed :: s0.queue[k])
    ensures forall k :: k in s0.queue && s0.queue[k].ticket !in s.failed ==> WrittenSince(s0, s, s0.queue[k].ticket)
  {
    forall k | k in s0.queue
      ensures k in s.queue <==> s0.queue[k].ticket in s.failed
    {
      assert !Owed(s.manager, s.workers, k);
      assert RowSettled(k, s0.queue[k].ticket, false, s.queue, s.failed);
    }
  }

  lemma RoundMailsEnd(s0: State, s: State)
    requires RowsOk(s0.mails, s0.queue, s0.issued) && Numbered(s0.issued, s0.mails, s0.clock)
    requires InRound(s0, s) && SweptOut(s0, s) && LastRemover(s, Spared(s0)) && Idle(s)
    requires forall k :: k in s0.queue ==> (k in s.queue <==> s0.queue[k].ticket in s.failed)
    ensures s.mails == (map i | i in s0.mails && !Leaves(s0, i, s.failed) :: s0.mails[i])
  {
    forall i | i in s0.mails
      ensures i in s.mails <==> !Leaves(s0, i, s.failed)
      ensures i in s.mails ==> s.mails[i] == s0.mails[i]
    {
      if s0.mails[i].deleted {
        MarkedMailGoes(s0, s, i);
      } else if AllSent(s0, i, s.failed) {
        SentMailIsGone(s0, s, i);
      } else {
        UnsentMailStays(s0, s, i);
      }
    }
    assert forall i :: i in s.mails ==> i in s0.mails;
  }

  lemma MarkedMailGoes(s0: State, s: State, i: int)
    requires InRound(s0, s) && SweptOut(s0, s) && Idle(s) && i in s0.mails && s0.mails[i].deleted
    ensures i in s.mails <==> s0.queue == map[]
    ensures i in s.mails ==> s.mails[i] == s0.mails[i]
  {
    assert !WillExpunge(s.workers);
  }

  lemma SentMailIsGone(s0: State, s: State, i: int)
    requires RowsOk(s0.mails, s0.queue, s0.issued) && Numbered(s0.issued, s0.mails, s0.clock)
    requires InRound(s0, s) && SweptOut(s0, s) && LastRemover(s, Spared(s0)) && Idle(s)
    requires AllSent(s0, i, s.failed) && i in s0.mails
    requires forall k :: k in s0.queue ==> (k in s.queue <==> s0.queue[k].ticket in s.failed)
    ensures i !in s.mails
  {
    var k :| k in s0.queue && k.id == i;
    assert RowOk(s0.mails, k, s0.queue[k], s0.issued);
    assert !WillExpunge(s.workers) && !Tended(s.workers, i);
    assert EverQueued(s.issued, s0.mails[i].ident);
    assert s0.mails[i].ident !in Spared(s0);
    assert NoRowsFor(i, s.queue);
  }

  lemma UnsentMailStays(s0: State, s: State, i: int)
    requires InRound(s0, s) && i in s0.mails && !s0.mails[i].deleted && !AllSent(s0, i, s.failed)
    requires forall k :: k in s0.queue ==> (k in s.queue <==> s0.queue[k].ticket in s.failed)
    ensures i in s.mails && s.mails[i] == s0.mails[i]
  {
    if !NoRowsFor(i, s0.queue) {
      var k :| k in s0.queue && k.id == i && s0.queue[k].ticket in s.failed;
      assert k in s.queue;
    }
  }
}

/**
 A condition a caller can check.  When no call of `QueueFor` comes to a second
 remote recipient, A1 and A2 hold of every schedule, whatever storage calls fail,
 and with them all that they imply: nothing queued is lost.
 */
module DeliverySingle {
  import opened Base
  import opened DeliveryProtocol
  import opened DeliverySafety
  import opened DeliveryTickets
  import opened DeliveryRuns

  /** The call comes to one remote recipient at most. */
  predicate Single(targets: seq<Target>) {
    RemotesAhead(targets) <= 1
  }

  ghost predicate SingleStep(step: Step) {
    step.Create? || step.SilentCreate? ==> Single(step.targets)
  }

  ghost predicate SingleCalls(steps: seq<Step>) {
    forall n :: 0 <= n < |steps| ==> SingleStep(steps[n])
  }

  // -------------------------------------------------------------- invariants

  /** A call with a row still to insert has inserted none. */
  ghost predicate NoneYet(clients: Clients, issued: Issued) {
    && (forall c :: c in clients ==> Single(clients[c].targets))
    && (forall c, t :: c in clients && Ahead(clients[c].targets) && t in issued ==> issued[t].ident != clients[c].ident)
  }

  ghost predicate OneTicket(issued: Issued) {
    forall t, u :: t in issued && u in issued && issued[t].ident == issued[u].ident ==> t == u
  }

  /** The mail whose row this worker deleted is there, unmarked. */
  ghost predicate Keeps(mails: Mails, issued: Issued, w: Worker)
    requires InHand(w.pc)
  {
    var r := w.pc.ref;
    && r.ticket in issued && issued[r.ticket].key == Key(w.dest, r.id)
    && r.id in mails && !mails[r.id].deleted && mails[r.id].ident == issued[r.ticket].ident
  }

  ghost predicate Keepers(mails: Mails, issued: Issued, workers: Workers) {
    forall g :: g in workers && Ending(workers[g].pc) ==> Keeps(mails, issued, workers[g])
  }

  ghost predicate Solo(s: State) {
    && Callers(s.clients, s.clock)
    && NoneYet(s.clients, s.issued)
    && OneTicket(s.issued)
    && Keepers(s.mails, s.issued, s.workers)
  }

  // ------------------------------------------------------- A1 and A2 follow

  lemma SoloGuards(s: State, step: Step)
    requires Safe(s) && Solo(s) && Enabled(s, step)
    ensures A1(s, step) && A2(s, step)
  {
    if step.Check? {
      SoloCheck(s, step.g);
    } else if step.Create? {
      SoloCreate(s);
    }
  }

  lemma SoloCheck(s: State, g: nat)
    requires ClientsOk(s.clients, s.mails) && NoneYet(s.clients, s.issued) && Keepers(s.mails, s.issued, s.workers)
    requires Enabled(s, Check(g)) && Genuine(s.workers[g].pc)
    ensures !Inserting(s, s.workers[g].pc.ref.id)
  {
    var i := s.workers[g].pc.ref.id;
    assert Keeps(s.mails, s.issued, s.workers[g]);
    forall c | c in s.clients && Ahead(s.clients[c].targets)
      ensures s.clients[c].id != i
    {
      assert s.clients[c].id == 0 || OwnMail(s.clients[c], s.mails);
    }
  }

  lemma SoloCreate(s: State)
    requires Keepers(s.mails, s.issued, s.workers)
    ensures !MarkPending(s, NextId(s))
  {
    forall g | g in s.workers && s.workers[g].pc.Marking?
      ensures s.workers[g].pc.ref.id != NextId(s)
    {
      assert Keeps(s.mails, s.issued, s.workers[g]);
    }
  }

  // -------------------------------------------------------------------- calls

  lemma ClientsSolo(s: State, step: Step)
    requires Callers(s.clients, s.clock) && NoneYet(s.clients, s.issued) && OneTicket(s.issued)
    requires Numbered(s.issued, s.mails, s.clock) && ClientsOk(s.clients, s.mails)
    requires Enabled(s, step) && SingleStep(step)
    ensures var s' := Apply(s, step);
      NoneYet(s'.clients, s'.issued) && OneTicket(s'.issued)
  {
    if step.Insert? {
      if Inserts(s, step.c) {
        InsertSolo(s, step.c);
      } else {
        SkipSolo(s, step.c);
      }
    } else if ByWorker(step) {
      WorkerShrinks(s, step);
      WorkerLeavesClients(s, step);
    } else {
      OtherSolo(s, step);
    }
  }

  lemma InsertSolo(s: State, c: nat)
    requires Callers(s.clients, s.clock) && NoneYet(s.clients, s.issued) && OneTicket(s.issued)
    requires Numbered(s.issued, s.mails, s.clock) && ClientsOk(s.clients, s.mails) && Inserts(s, c)
    ensures var s' := InsertNext(s, c);
      NoneYet(s'.clients, s'.issued) && OneTicket(s'.issued)
  {
    var q := s.clients[c];
    assert Ahead(q.targets) && OwnMail(q, s.mails);
    assert !Ahead(q.targets[1..]);
  }

  lemma SkipSolo(s: State, c: nat)
    requires NoneYet(s.clients, s.issued)
    requires Enabled(s, Insert(c)) && !Inserts(s, c)
    ensures var s' := InsertNext(s, c); NoneYet(s'.clients, s'.issued)
    ensures InsertNext(s, c).issued == s.issued
  {
    SkipTables(s, c);
    SkipClients(s, c);
    SkipAhead(s, c);
  }

  lemma SkipAhead(s: State, c: nat)
    requires Enabled(s, Insert(c)) && !Inserts(s, c)
    ensures var clients := InsertNext(s, c).clients;
      c in clients ==> RemotesAhead(clients[c].targets) == RemotesAhead(s.clients[c].targets)
  {
  }

  lemma OtherSolo(s: State, step: Step)
    requires NoneYet(s.clients, s.issued) && OneTicket(s.issued)
    requires Numbered(s.issued, s.mails, s.clock)
    requires Enabled(s, step) && SingleStep(step) && !step.Insert? && !ByWorker(step)
    ensures var s' := Apply(s, step);
      NoneYet(s'.clients, s'.issued) && OneTicket(s'.issued)
  {
    if ByClient(step) {
      CallSolo(s, step);
    }
  }

  lemma CallSolo(s: State, step: Step)
    requires NoneYet(s.clients, s.issued) && OneTicket(s.issued)
    requires Numbered(s.issued, s.mails, s.clock)
    requires Enabled(s, step) && SingleStep(step) && !step.Insert? && ByClient(step)
    ensures var s' := Apply(s, step);
      NoneYet(s'.clients, s'.issued) && OneTicket(s'.issued)
  {
    CallMoves(s, step);
    MovedSolo(s, Apply(s, step), step.c);
  }

  /** Only call c moves: it is new, or has no more remote recipients ahead than before. */
  ghost predicate Moves(s: State, s': State, c: nat) {
    && s'.clock >= s.clock && s'.issued == s.issued
    && (forall d :: d in s'.clients && d != c ==> d in s.clients && s'.clients[d] == s.clients[d])
    && (c in s'.clients ==> Begins(s, s'.clients[c], s'.clock) || (c in s.clients && Goes(s.clients[c], s'.clients[c])))
  }

  predicate Begins(s: State, q: Client, clock: nat) {
    q.ident == s.clock < clock && Single(q.targets)
  }

  predicate Goes(q: Client, q': Client) {
    q'.ident == q.ident && RemotesAhead(q'.targets) <= RemotesAhead(q.targets)
  }

  lemma CallMoves(s: State, step: Step)
    requires Enabled(s, step) && SingleStep(step) && !step.Insert? && ByClient(step)
    ensures Moves(s, Apply(s, step), step.c)
  {
  }

  lemma MovedSolo(s: State, s': State, c: nat)
    requires NoneYet(s.clients, s.issued) && OneTicket(s.issued)
    requires Numbered(s.issued, s.mails, s.clock) && Moves(s, s', c)
    ensures NoneYet(s'.clients, s'.issued) && OneTicket(s'.issued)
  {
  }

  // ------------------------------------------------------------------ workers

  lemma KeepersKept(s: State, s': State)
    requires Keepers(s.mails, s.issued, s.workers)
    requires forall t :: t in s.issued ==> t in s'.issued && s'.issued[t] == s.issued[t]
    requires forall i :: i in s.mails && !s.mails[i].deleted ==> i in s'.mails && s'.mails[i] == s.mails[i]
    requires forall g :: g in s'.workers && Ending(s'.workers[g].pc) ==>
      g in s.workers && Ending(s.workers[g].pc) && s.workers[g].dest == s'.workers[g].dest
      && s.workers[g].pc.ref == s'.workers[g].pc.ref
    ensures Keepers(s'.mails, s'.issued, s'.workers)
  {
    forall g | g in s'.workers && Ending(s'.workers[g].pc)
      ensures Keeps(s'.mails, s'.issued, s'.workers[g])
    {
      assert Keeps(s.mails, s.issued, s.workers[g]);
    }
  }

  /** A step that marks nothing and takes no worker past a row delete. */
  lemma PlainKeepers(s: State, step: Step)
    requires Keepers(s.mails, s.issued, s.workers) && Enabled(s, step) && Numbered(s.issued, s.mails, s.clock)
    requires !step.Mark? && !step.DropRow? && !step.SilentDrop?
    ensures var s' := Apply(s, step); Keepers(s'.mails, s'.issued, s'.workers)
  {
    if ByWorker(step) {
      WorkerShrinks(s, step);
      WorkerKeeps(s, step);
      WorkerEnds(s, step);
    } else {
      OtherKeeps(s, step);
      OtherEnds(s, step);
    }
    KeepersKept(s, Apply(s, step));
  }

  lemma WorkerKeeps(s: State, step: Step)
    requires Enabled(s, step) && ByWorker(step) && !step.Mark?
    ensures forall i :: i in s.mails && !s.mails[i].deleted ==>
      i in Apply(s, step).mails && Apply(s, step).mails[i] == s.mails[i]
  {
  }

  lemma WorkerEnds(s: State, step: Step)
    requires Enabled(s, step) && ByWorker(step) && !step.DropRow? && !step.SilentDrop?
    ensures var s' := Apply(s, step);
      forall g :: g in s'.workers && Ending(s'.workers[g].pc) ==>
        g in s.workers && Ending(s.workers[g].pc) && s.workers[g].dest == s'.workers[g].dest
        && s.workers[g].pc.ref == s'.workers[g].pc.ref
  {
    if !step.Finish? {
      MovesOne(s, step);
      OneEnds(s, step);
    }
  }

  lemma OneEnds(s: State, step: Step)
    requires Enabled(s, step) && ByWorker(step) && !step.Finish? && !step.DropRow? && !step.SilentDrop?
    ensures var w, w' := s.workers[step.g], Apply(s, step).workers[step.g];
      Ending(w'.pc) ==> Ending(w.pc) && w.pc.ref == w'.pc.ref
  {
  }

  lemma OtherKeeps(s: State, step: Step)
    requires Enabled(s, step) && !ByWorker(step) && Numbered(s.issued, s.mails, s.clock)
    ensures var s' := Apply(s, step);
      && (forall t :: t in s.issued ==> t in s'.issued && s'.issued[t] == s.issued[t])
      && forall i :: i in s.mails ==> i in s'.mails && s'.mails[i] == s.mails[i]
  {
    if Plain(step) {
      PlainStep(s, step);
    } else if step.Insert? {
      assert s.clock !in s.issued;
      InsertKeeps(s, step.c);
    }
  }

  lemma InsertKeeps(s: State, c: nat)
    requires Enabled(s, Insert(c)) && s.clock !in s.issued
    ensures var s' := InsertNext(s, c);
      && s'.mails == s.mails && forall t :: t in s.issued ==> t in s'.issued && s'.issued[t] == s.issued[t]
  {
  }

  lemma OtherEnds(s: State, step: Step)
    requires Enabled(s, step) && !ByWorker(step)
    ensures var s' := Apply(s, step);
      forall g :: g in s'.workers && Ending(s'.workers[g].pc) ==> g in s.workers && s.workers[g] == s'.workers[g]
  {
    if Plain(step) {
      PlainStep(s, step);
    } else if step.Insert? {
      InsertLeaves(s, step.c);
    }
  }

  /** After its row delete a worker still has its mail: the row said so. */
  lemma DropKeepers(s: State, g: nat, step: Step)
    requires Safe(s) && Keepers(s.mails, s.issued, s.workers)
    requires Enabled(s, step) && (step == DropRow(g) || step == SilentDrop(g))
    ensures var s' := Apply(s, step); Keepers(s'.mails, s'.issued, s'.workers)
  {
    assert WorkerOk(s, s.workers[g]);
    RowKeeps(s, g);
    DroppedKeepers(s, g);
  }

  lemma RowKeeps(s: State, g: nat)
    requires g in s.workers && s.workers[g].pc.Written? && Fresh(s.workers[g], s.queue)
    requires RowsOk(s.mails, s.queue, s.issued)
    ensures Keeps(s.mails, s.issued, s.workers[g])
  {
    var w := s.workers[g];
    var k := Key(w.dest, w.pc.ref.id);
    assert Unfinished(w, w.pc.ref);
    assert RowOk(s.mails, k, s.queue[k], s.issued);
  }

  lemma DroppedKeepers(s: State, g: nat)
    requires g in s.workers && s.workers[g].pc.Written? && Keeps(s.mails, s.issued, s.workers[g])
    requires Keepers(s.mails, s.issued, s.workers)
    ensures Keepers(s.mails, s.issued, DoSilentDrop(s, g).workers)
  {
  }

  /** The mail a worker marks is no other worker's. */
  lemma MarkKeepers(s: State, g: nat)
    requires Locked(s.running, s.workers) && OneTicket(s.issued) && Keepers(s.mails, s.issued, s.workers)
    requires Enabled(s, Mark(g))
    ensures var s' := DoMark(s, g); Keepers(s'.mails, s'.issued, s'.workers)
  {
    var s' := DoMark(s, g);
    assert Keeps(s.mails, s.issued, s.workers[g]);
    forall h | h in s'.workers && Ending(s'.workers[h].pc)
      ensures Keeps(s'.mails, s'.issued, s'.workers[h])
    {
      assert Keeps(s.mails, s.issued, s.workers[h]);
      assert s.workers[h].pc.ref.id != s.workers[g].pc.ref.id;
    }
  }

  lemma StepSolo(s: State, step: Step)
    requires Safe(s) && Solo(s) && Enabled(s, step) && SingleStep(step)
    ensures Solo(Apply(s, step))
  {
    StepCallers(s, step);
    ClientsSolo(s, step);
    if step.Mark? {
      MarkKeepers(s, step.g);
    } else if step.DropRow? || step.SilentDrop? {
      DropKeepers(s, step.g, step);
    } else {
      PlainKeepers(s, step);
    }
  }

  // --------------------------------------------------------------------- runs

  /** The same regime, with A1 and A2. */
  function Guarding(m: Regime): Regime {
    m.(a1 := true, a2 := true)
  }

  /** A run of single calls is a run under A1 and A2, whatever it was a run under. */
  lemma {:induction false} SingleIsGuarded(s: State, steps: seq<Step>, m: Regime)
    requires Safe(s) && Solo(s) && IsRun(s, steps, m) && SingleCalls(steps)
    ensures IsRun(s, steps, Guarding(m)) && Final(s, steps, Guarding(m)) == Final(s, steps, m)
    ensures Safe(Final(s, steps, m)) && Solo(Final(s, steps, m))
    decreases |steps|
  {
    if steps != [] {
      SoloGuards(s, steps[0]);
      StepSafe(s, steps[0]);
      StepSolo(s, steps[0]);
      SingleIsGuarded(Apply(s, steps[0]), steps[1..], m);
    }
  }

  lemma InitSolo()
    ensures Safe(INIT) && Solo(INIT)
  {
  }

  /**
   Conservation for single calls, with no assumption on the schedule and none on
   storage: what was queued at any point of a run later has its row and its mail,
   or had its full body written.
   */
  lemma SingleConserves(before: seq<Step>, after: seq<Step>)
    requires IsRun(INIT, before, ANY) && IsRun(Final(INIT, before, ANY), after, ANY)
    requires SingleCalls(before) && SingleCalls(after)
    ensures var s := Final(INIT, before, ANY);
      var s' := Final(s, after, ANY);
      && (forall t :: t in s.issued ==> Pending(s', s.issued[t]) || s.issued[t] in s'.log)
      && (forall x :: x in s'.log ==> x.ticket in s'.issued && s'.issued[x.ticket] == x)
  {
    InitSolo();
    SingleIsGuarded(INIT, before, ANY);
    SingleIsGuarded(Final(INIT, before, ANY), after, ANY);
    Conservation(before, after);
  }
}

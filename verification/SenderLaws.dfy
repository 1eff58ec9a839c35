/**
 The protocol's guarantees for a sender, read off its flags, its store's tables and
 what its transport has held, at any moment between statements.  What the sender must
 have started from is named in each; the empty Outbox is all of it.
 */
module SenderLaws {
  import opened Base
  import opened DeliveryProtocol
  import opened DeliverySafety
  import opened DeliveryTickets
  import opened DeliveryOnce
  import opened DeliverySweep
  import opened DeliveryRuns
  import opened DeliverySingle
  import opened DeliveryRound
  import opened DeliveryHistory
  import opened OutboxView
  import opened Sender
  import Tables

  lemma EmptyOutboxIsAStart()
    ensures Resting(INIT) && Safe(INIT) && Solo(INIT) && Once(INIT) && Swept(INIT)
  {
  }

  // ------------------------------------------------------------- no guards needed

  /** A flag is set exactly when one goroutine serves its destination. */
  lemma FlagMeansOneWorker(q: Queues, d: string)
    requires q.Valid() && Locked(q.path.states[0].running, q.path.states[0].workers)
    ensures d in q.running <==> exists g :: IsOnlyWorker(q.sys.workers, d, g)
  {
    RecordedRun(q.path);
    RunLocked(q.path.states[0], q.path.steps, FAULTLESS);
    if d in q.running {
      var g :| g in q.sys.workers && q.sys.workers[g].dest == d;
      assert IsOnlyWorker(q.sys.workers, d, g);
    }
  }

  /** Once the workers are idle, no mail of the Outbox is marked, nor left over without rows. */
  lemma IdleStoreHasNoOrphans(q: Queues, i: int)
    requires q.Valid() && Swept(q.path.states[0]) && q.sys.workers == map[]
    requires Tables.MailKey(Tables.OUTBOX, i) in q.store.Db().mails
    ensures !q.store.Db().mails[Tables.MailKey(Tables.OUTBOX, i)].flags.deleted
    ensures i in q.sys.mails
    ensures EverQueued(q.sys.issued, q.sys.mails[i].ident) ==>
      exists k :: k in q.store.Db().queue && k.mailbox == Tables.OUTBOX && k.id == i
  {
    RecordedRun(q.path);
    RunSwept(q.path.states[0], q.path.steps, FAULTLESS);
    IdleIsClean(q.sys);
    PendingMatches(q.store.Db(), q.running, q.sys, i);
  }

  /** Since the start, the transport has held just the conversations of these trials. */
  ghost predicate HeldAre(q: Queues, trials: seq<Trial>)
    reads q, q.transport
  {
    q.transport.held == q.heldBefore + AllSaid(q.own, trials)
  }

  /**
   No row's body is handed over twice: each conversation since the start is for a ticket
   whose row named its destination, sender and recipient, the HELLO is the node's own
   key, and of those that came to their end no two are for the same ticket.
   */
  lemma WritesOnce(q: Queues) returns (trials: seq<Trial>)
    requires q.Valid() && Once(q.path.states[0])
    ensures HeldAre(q, trials) && OnceEach(trials) && AllStand(trials, q.sys.issued)
  {
    trials := Trials(q.path);
    HeldIsTrials(q);
    TrialsOnce(q.path);
  }

  lemma HeldIsTrials(q: Queues)
    requires q.Valid()
    ensures HeldAre(q, Trials(q.path))
  {
    TriedIsTrials(q.path);
    assert [] + Trials(q.path) == Trials(q.path);
  }

  // ----------------------------------------------------------------- conservation

  /** The store holds the delivery's row, and its mail unmarked. */
  predicate InStore(db: Tables.Db, x: Delivery) {
    var q, k := Tables.QueueKey(x.key.dest, Tables.OUTBOX, x.key.id), Tables.MailKey(Tables.OUTBOX, x.key.id);
    && q in db.queue && db.queue[q] == Tables.QueueRow(x.from, x.rcpt)
    && k in db.mails && db.mails[k].body == x.body && !db.mails[k].flags.deleted
  }

  /** The delivery was handed over in full since the start of the sender. */
  ghost predicate HandedOver(q: Queues, x: Delivery)
    reads q, q.transport
  {
    && |q.heldBefore| <= |q.transport.held|
    && Said(q.own, Trial(x, true)) in q.transport.held[|q.heldBefore|..]
  }

  /** Whatever QueueFor had issued at some moment n is now in the tables or has been handed over, or had been before the start. */
  lemma StoreConserves(q: Queues, n: nat, t: nat)
    requires q.Valid() && Sound(q.path) && n < |q.path.states| && t in q.path.states[n].issued
    ensures var x := q.path.states[n].issued[t];
      InStore(q.store.Db(), x) || HandedOver(q, x) || x in q.path.states[0].log
  {
    IssuedSince(q.path, n, t);
    SoundSafe(q.path);
    SafeStoreConserves(q.store.Db(), q.running, q.sys, t);
    if q.sys.issued[t] in q.sys.log && q.sys.issued[t] !in q.path.states[0].log {
      LoggedIsHeld(q, q.sys.issued[t]);
    }
  }

  /** An entry the log has gained is a conversation the transport has held. */
  lemma LoggedIsHeld(q: Queues, x: Delivery)
    requires q.Valid() && x in q.sys.log && x !in q.path.states[0].log
    ensures HandedOver(q, x)
  {
    LogIsWrites(q.path);
    HeldIsTrials(q);
    WritesTried(Trials(q.path), x);
    SaidAmong(q.own, Trials(q.path), Trial(x, true));
    assert q.transport.held[|q.heldBefore|..] == AllSaid(q.own, Trials(q.path));
  }

  lemma SaidAmong(own: Bytes, trials: seq<Trial>, a: Trial)
    requires a in trials
    ensures Said(own, a) in AllSaid(own, trials)
  {
    var n :| 0 <= n < |trials| && trials[n] == a;
    assert AllSaid(own, trials)[n] == Said(own, a);
  }

  /** What was issued by moment n still is, unchanged. */
  lemma IssuedSince(h: History, n: nat, t: nat)
    requires Sound(h) && n < |h.states| && t in h.states[n].issued
    ensures t in Last(h).issued && Last(h).issued[t] == h.states[n].issued[t]
  {
    Lasts(h, 0, n);
    Lasts(h, n, |h.states| - 1);
  }

  /** So it is, with nothing asked of the schedule, where calls come to one remote recipient at most. */
  lemma SingleStoreConserves(q: Queues, n: nat, t: nat)
    requires q.Valid() && Safe(q.path.states[0]) && Solo(q.path.states[0]) && SingleCalls(q.path.steps)
    requires n < |q.path.states| && t in q.path.states[n].issued
    ensures var x := q.path.states[n].issued[t];
      InStore(q.store.Db(), x) || HandedOver(q, x) || x in q.path.states[0].log
  {
    SingleIsSound(q.path);
    StoreConserves(q, n, t);
  }

  lemma SafeStoreConserves(db: Tables.Db, running: set<string>, s: State, t: nat)
    requires Coupled(db, running, s) && t in s.issued
    requires RowsOk(s.mails, s.queue, s.issued) && Conserved(s.issued, s.queue, s.log)
    requires Numbered(s.issued, s.mails, s.clock)
    ensures InStore(db, s.issued[t]) || s.issued[t] in s.log
  {
    AllAccounted(s);
    if Pending(s, s.issued[t]) {
      PendingInStore(db, running, s, t);
    }
  }

  lemma PendingInStore(db: Tables.Db, running: set<string>, s: State, t: nat)
    requires Coupled(db, running, s) && t in s.issued && Pending(s, s.issued[t])
    ensures InStore(db, s.issued[t])
  {
  }

  // -------------------------------------------------------------- stale snapshots

  /**
   A reference a worker has not finished with still names a row of the table that
   says the same, and a mail of the Outbox, unmarked, with the body it was queued for.
   */
  lemma SnapshotInStore(q: Queues, g: nat, r: Ref)
    requires q.Valid() && Sound(q.path) && g in q.sys.workers && Unfinished(q.sys.workers[g], r)
    ensures r.ticket in q.sys.issued && InStore(q.store.Db(), q.sys.issued[r.ticket])
    ensures var x := q.sys.issued[r.ticket]; x.key == Key(q.sys.workers[g].dest, r.id) && x.from == r.from && x.rcpt == r.rcpt
  {
    SoundSafe(q.path);
    UnfinishedPending(q.sys, g, r);
    PendingInStore(q.store.Db(), q.running, q.sys, r.ticket);
  }

  lemma UnfinishedPending(s: State, g: nat, r: Ref)
    requires RowsOk(s.mails, s.queue, s.issued) && WorkersOk(s) && g in s.workers && Unfinished(s.workers[g], r)
    ensures r.ticket in s.issued && Pending(s, s.issued[r.ticket])
    ensures s.issued[r.ticket].key == Key(s.workers[g].dest, r.id)
    ensures s.issued[r.ticket].from == r.from && s.issued[r.ticket].rcpt == r.rcpt
  {
    assert WorkerOk(s, s.workers[g]);
    var k := Key(s.workers[g].dest, r.id);
    assert HasRow(s.queue, s.workers[g].dest, r);
    assert RowOk(s.mails, k, s.queue[k], s.issued);
  }

  // ------------------------------------------------------------------ quiet rounds

  /** The conversations held since moment n. */
  ghost function HeldSince(q: Queues, n: nat): seq<Conversation>
    reads q, q.transport
    requires n < |q.path.tried| && |q.heldBefore| + |q.path.tried[n]| <= |q.transport.held|
  {
    q.transport.held[|q.heldBefore| + |q.path.tried[n]|..]
  }

  /**
   If the sender was idle at moment n and has since run one quiet round to its end,
   the queue table holds of the rows it had exactly those whose send failed, in a
   conversation held in that round, and every other row's body was handed over in it.
   The Outbox holds of its unmarked mails exactly those that had no rows or had one
   whose send failed, unmarked; a mail that was marked is there only if there was no
   row at all.
   */
  lemma StoreDrains(q: Queues, n: nat)
    requires q.Valid() && Sound(q.path) && n <= |q.path.steps|
    requires Idle(q.path.states[n]) && IsRound(q.path.steps[n..]) && Idle(q.sys)
    ensures n < |q.path.tried| && |q.heldBefore| + |q.path.tried[n]| <= |q.transport.held|
    ensures var s0, db := q.path.states[n], q.store.Db();
      && (forall k: Key :: Tables.QueueKey(k.dest, Tables.OUTBOX, k.id) in db.queue <==>
            k in s0.queue && s0.queue[k].ticket in q.sys.failed)
      && (forall k :: k in s0.queue ==>
            && s0.queue[k].ticket in s0.issued
            && Said(q.own, Trial(s0.issued[s0.queue[k].ticket], s0.queue[k].ticket !in q.sys.failed)) in HeldSince(q, n))
      && (forall i :: Tables.MailKey(Tables.OUTBOX, i) in db.mails <==> i in s0.mails && !Leaves(s0, i, q.sys.failed))
      && (forall i :: Tables.MailKey(Tables.OUTBOX, i) in db.mails ==> KeptAs(db, i, s0.mails[i]))
  {
    HistoryDrains(q.path, n);
    DrainedTables(q.store.Db(), q.running, q.path.states[n], q.sys);
    HeldIsTried(q, n);
    forall k | k in q.path.states[n].queue
      ensures var t := q.path.states[n].queue[k].ticket;
        && t in q.path.states[n].issued
        && Said(q.own, Trial(q.path.states[n].issued[t], t !in q.sys.failed)) in HeldSince(q, n)
    {
      RowTried(q.path, n, k);
      var t := q.path.states[n].queue[k].ticket;
      SaidAmong(q.own, Trials(Since(q.path, n)), Trial(q.path.states[n].issued[t], t !in q.sys.failed));
    }
  }

  lemma HeldIsTried(q: Queues, n: nat)
    requires q.Valid() && n <= |q.path.steps|
    ensures n < |q.path.tried| && |q.heldBefore| + |q.path.tried[n]| <= |q.transport.held|
    ensures HeldSince(q, n) == AllSaid(q.own, Trials(Since(q.path, n)))
  {
    SinceRecorded(q.path, n);
    TriedIsTrials(Since(q.path, n));
    SaidApart(q.own, q.heldBefore, q.path.tried[n], Trials(Since(q.path, n)));
  }

  lemma SaidApart(own: Bytes, before: seq<Conversation>, first: seq<Trial>, later: seq<Trial>)
    ensures (before + AllSaid(own, first + later))[|before| + |first|..] == AllSaid(own, later)
  {
  }

  lemma SinceRecorded(h: History, n: nat)
    requires Recorded(h) && n <= |h.steps|
    ensures n < |h.tried| && Recorded(Since(h, n)) && Last(Since(h, n)) == Last(h) && Tried(Since(h, n)) == Tried(h)
  {
    var later := Since(h, n);
    forall k | 0 <= k < |later.steps|
      ensures Follows(later.states[k], later.steps[k], later.states[k + 1])
      ensures later.tried[k + 1] == later.tried[k] + TrialOf(later.states[k], later.steps[k])
    {
      assert later.steps[k] == h.steps[n + k];
    }
  }

  /** Each row of an idle moment was tried in the round that followed, with this result. */
  lemma RowTried(h: History, n: nat, k: Key)
    requires Sound(h) && n <= |h.steps| && Idle(h.states[n]) && IsRound(h.steps[n..])
    requires Drained(h.states[n], Last(h)) && k in h.states[n].queue
    ensures var t := h.states[n].queue[k].ticket;
      && t in h.states[n].issued && |Since(h, n).states| == |Since(h, n).steps| + 1 == |Since(h, n).tried|
      && Trial(h.states[n].issued[t], t !in Last(h).failed) in Trials(Since(h, n))
  {
    SoundUntil(h, n);
    SoundSince(h, n);
    var later, t := Since(h, n), h.states[n].queue[k].ticket;
    assert RowOk(h.states[n].mails, k, h.states[n].queue[k], h.states[n].issued);
    if t in Last(h).failed {
      FailedInRound(later, t);
    } else {
      LogIsWrites(later);
      WritesTried(Trials(later), h.states[n].issued[t]);
    }
  }

  /** A round begins with a tick, which clears the failure record: what is in it at the end was tried in the round. */
  lemma FailedInRound(h: History, t: nat)
    requires Sound(h) && IsRound(h.steps) && t in Last(h).failed
    ensures t in Last(h).issued && Trial(Last(h).issued[t], false) in Trials(h)
  {
    SinceRecorded(h, 1);
    TickClears(h);
    FailuresWereTried(Since(h, 1));
    TrialsBegin(h);
    FailedIsTrial(h, Trials(Since(h, 1)), t);
  }

  lemma TickClears(h: History)
    requires Recorded(h) && IsRound(h.steps)
    ensures |h.states| > 1 && h.states[1].failed == {}
  {
    assert Follows(h.states[0], h.steps[0], h.states[1]);
  }

  lemma FailedIsTrial(h: History, later: seq<Trial>, t: nat)
    requires Sound(h) && FailedOnce(later, t) && forall a :: a in later ==> a in Trials(h)
    ensures t in Last(h).issued && Trial(Last(h).issued[t], false) in Trials(h)
  {
    TrialsAreIssued(h);
    var a :| a in later && !a.ok && a.x.ticket == t;
    assert a in Trials(h) && a == Trial(Last(h).issued[t], false);
  }

  /** What is tried after the first step is tried. */
  lemma TrialsBegin(h: History)
    requires Recorded(h) && h.steps != [] && Recorded(Since(h, 1)) && Tried(Since(h, 1)) == Tried(h)
    ensures forall a :: a in Trials(Since(h, 1)) ==> a in Trials(h)
  {
    TriedIsTrials(h);
    TriedIsTrials(Since(h, 1));
    TriedNext(h, 0);
    SamePrefix(h.tried[0], Trials(h), TrialOf(h.states[0], h.steps[0]), Trials(Since(h, 1)));
  }

  lemma SamePrefix(before: seq<Trial>, all: seq<Trial>, first: seq<Trial>, later: seq<Trial>)
    requires before + all == (before + first) + later
    ensures all == first + later
    ensures forall a :: a in later ==> a in all
  {
    assert all == (before + all)[|before|..] == ((before + first) + later)[|before|..] == first + later;
  }

  /** Mail i of the Outbox has this body and mark. */
  predicate KeptAs(db: Tables.Db, i: int, m: OutMail) {
    var k := Tables.MailKey(Tables.OUTBOX, i);
    k in db.mails && db.mails[k].body == m.body && db.mails[k].flags.deleted == m.deleted
  }

  lemma HistoryDrains(h: History, n: nat)
    requires Sound(h) && n <= |h.steps|
    requires Idle(h.states[n]) && IsRound(h.steps[n..]) && Idle(Last(h))
    ensures Drained(h.states[n], Last(h))
  {
    SoundUntil(h, n);
    SoundSince(h, n);
    RecordedRun(Since(h, n));
    RoundDrains(h.states[n], h.steps[n..]);
  }

  lemma SoundUntil(h: History, n: nat)
    requires Sound(h) && n <= |h.steps|
    ensures Recorded(Until(h, n)) && Sound(Until(h, n)) && Last(Until(h, n)) == h.states[n] && Safe(h.states[n])
  {
    UntilRecorded(h, n);
    SoundBefore(Until(h, n), h);
    SoundSafe(Until(h, n));
  }

  lemma SoundSince(h: History, n: nat)
    requires Sound(h) && n <= |h.steps| && Safe(h.states[n])
    ensures Recorded(Since(h, n)) && Sound(Since(h, n)) && Last(Since(h, n)) == Last(h)
  {
    SinceRecorded(h, n);
    var later := Since(h, n);
    forall k | 0 <= k < |later.steps|
      ensures Careful(later.states[k], later.steps[k])
    {
      assert Careful(h.states[n + k], h.steps[n + k]);
    }
  }

  lemma DrainedTables(db: Tables.Db, running: set<string>, s0: State, s: State)
    requires Coupled(db, running, s) && Drained(s0, s)
    ensures forall k: Key :: Tables.QueueKey(k.dest, Tables.OUTBOX, k.id) in db.queue <==>
      k in s0.queue && s0.queue[k].ticket in s.failed
    ensures forall i :: Tables.MailKey(Tables.OUTBOX, i) in db.mails <==> i in s0.mails && !Leaves(s0, i, s.failed)
    ensures forall i :: Tables.MailKey(Tables.OUTBOX, i) in db.mails ==> KeptAs(db, i, s0.mails[i])
  {
  }
}

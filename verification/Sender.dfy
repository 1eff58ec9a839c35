/**
 The sender: `QueueFor`, the manager and the worker `Run`, statement by statement
 over the store.  A ghost copy `sys` of the delivery protocol takes the matching
 step at every statement; between statements the other goroutines may run.
 */
module Sender {
  import opened Base
  import opened Addresses
  import opened DeliveryProtocol
  import opened DeliverySafety
  import opened DeliveryTickets
  import opened DeliveryRuns
  import opened DeliveryHistory
  import opened OutboxView
  import opened Storage
  import Tables

  /** mail.ParseAddress: the bare address in a recipient, if it finds one. */
  type MailParser = string -> Option<string>

  /** What QueueFor makes of a recipient: the destination is the key's canonical hex. */
  function TargetOf(own: Bytes, parse: MailParser, rcpt: string): Target {
    var addr := parse(rcpt);
    if addr.None? then Invalid
    else
      var pk := ParseAddress(addr.value);
      if pk.Err? then Invalid
      else if HexEncode(pk.value) == HexEncode(own) then Local
      else Remote(HexEncode(pk.value), rcpt)
  }

  function Targets(own: Bytes, parse: MailParser, rcpts: seq<string>): (ts: seq<Target>)
    ensures |ts| == |rcpts| && forall n :: 0 <= n < |rcpts| ==> ts[n] == TargetOf(own, parse, rcpts[n])
  {
    seq(|rcpts|, n requires 0 <= n < |rcpts| => TargetOf(own, parse, rcpts[n]))
  }

  /** The key a recipient names, if its address yields one. */
  function KeyOf(parse: MailParser, rcpt: string): Option<Bytes> {
    match parse(rcpt)
    case None => None
    case Some(addr) =>
      match ParseAddress(addr)
      case Ok(key) => Some(key)
      case Err(_) => None
  }

  /** A recipient is passed over exactly if its key is this node's, and a remote one goes to its key's hex. */
  lemma TargetMeans(own: Bytes, parse: MailParser, rcpt: string)
    ensures var t, key := TargetOf(own, parse, rcpt), KeyOf(parse, rcpt);
      && (t.Invalid? <==> key.None?)
      && (t.Local? <==> key == Some(own))
      && (t.Remote? <==> key.Some? && key.value != own)
      && (t.Remote? ==> t == Remote(HexEncode(key.value), rcpt))
  {
    if TargetOf(own, parse, rcpt).Local? {
      EncodeInjective(KeyOf(parse, rcpt).value, own);
    }
  }

  /** No recipient's destination is called "Outbox": destinations have 64 characters. */
  lemma NoOutboxTarget(own: Bytes, parse: MailParser, rcpts: seq<string>)
    ensures forall t :: t in Targets(own, parse, rcpts) && t.Remote? ==> t.dest != "Outbox"
  {
    forall t | t in Targets(own, parse, rcpts) && t.Remote?
      ensures |t.dest| == 64
    {
      var n :| 0 <= n < |rcpts| && t == TargetOf(own, parse, rcpts[n]);
    }
  }

  // ------------------------------------------------------------------ schedules

  datatype Actor = TheManager | TheClient(c: nat) | TheWorker(g: nat)

  function ActorOf(step: Step): Actor {
    match step
    case Create(c, _, _, _) => TheClient(c)
    case Insert(c) => TheClient(c)
    case InsertFault(c) => TheClient(c)
    case Kick(c, _) => TheClient(c)
    case Return(c) => TheClient(c)
    case Tick(_) => TheManager
    case TickStart(_) => TheManager
    case SilentCreate(c, _, _, _) => TheClient(c)
    case SilentInsert(c) => TheClient(c)
    case CutTick(_) => TheManager
    case Restart => TheManager
    case _ => TheWorker(step.g)
  }

  ghost predicate Untouched(s: State, t: State, me: Actor) {
    match me
    case TheManager => t.manager == s.manager
    case TheClient(c) => (c in t.clients <==> c in s.clients) && (c in s.clients ==> t.clients[c] == s.clients[c])
    case TheWorker(g) => g in s.workers ==> g in t.workers && t.workers[g] == s.workers[g]
  }

  /** From h to h', `me` took no step. */
  ghost predicate OthersOnly(h: History, h': History, me: Actor) {
    Extends(h, h') && forall n :: |h.steps| <= n < |h'.steps| ==> ActorOf(h'.steps[n]) != me
  }

  lemma {:induction false} OthersSpareMe(h: History, h': History, me: Actor)
    requires Recorded(h) && Recorded(h') && OthersOnly(h, h', me)
    ensures Untouched(Last(h), Last(h'), me)
    decreases |h'.steps|
  {
    var n := |h'.steps|;
    if n == |h.steps| {
      assert Last(h) == Last(h');
    } else {
      UntilRecorded(h', n - 1);
      OthersSpareMe(h, Until(h', n - 1), me);
      assert Follows(h'.states[n - 1], h'.steps[n - 1], h'.states[n]);
      OtherSparesMe(h'.states[n - 1], h'.steps[n - 1], me);
    }
  }

  lemma OtherSparesMe(s: State, step: Step, me: Actor)
    requires Enabled(s, step) && !Faulty(step) && ActorOf(step) != me
    ensures Untouched(s, Apply(s, step), me)
  {
    if ByWorker(step) {
      WorkerSparesMe(s, step, me);
    } else if step.Insert? {
      InsertSparesMe(s, step.c, me);
    } else if step.Kick? || step.TickStart? {
      StartSparesMe(s, step, me);
    } else {
      RestSparesMe(s, step, me);
    }
  }

  lemma WorkerSparesMe(s: State, step: Step, me: Actor)
    requires Enabled(s, step) && ByWorker(step) && TheWorker(step.g) != me
    ensures Untouched(s, Apply(s, step), me)
  {
    if !step.Finish? {
      MovesOne(s, step);
    }
    OnlyWorkersMove(s, step);
  }

  lemma OnlyWorkersMove(s: State, step: Step)
    requires Enabled(s, step) && ByWorker(step)
    ensures Apply(s, step).clients == s.clients && Apply(s, step).manager == s.manager
  {
  }

  lemma InsertSparesMe(s: State, c: nat, me: Actor)
    requires Enabled(s, Insert(c)) && TheClient(c) != me
    ensures Untouched(s, InsertNext(s, c), me)
  {
  }

  lemma StartSparesMe(s: State, step: Step, me: Actor)
    requires Enabled(s, step) && (step.Kick? || step.TickStart?) && ActorOf(step) != me
    ensures Untouched(s, Apply(s, step), me)
  {
  }

  lemma RestSparesMe(s: State, step: Step, me: Actor)
    requires Enabled(s, step) && ActorOf(step) != me
    requires step.Create? || step.Return? || step.Tick?
    ensures Untouched(s, Apply(s, step), me)
  {
  }

  // --------------------------------------------------------------- the transport

  /** One connection to a destination: what was said in it, and whether the body was written in full. */
  datatype Conversation = Conversation(dest: string, hello: string, from: string, rcpt: string, body: Bytes, ok: bool)

  /** The way to other nodes; `held` is what was said to them, in order. */
  class Transport {
    var held: seq<Conversation>

    constructor ()
      ensures held == []
    {
      held := [];
    }

    /**
     Dial, HELLO, MAIL, RCPT, DATA and the write of the body: the remote side, or the
     network, decides whether it comes to its end.
     */
    method Send(dest: string, hello: string, from: string, rcpt: string, body: Bytes) returns (ok: bool)
      modifies this
      ensures held == old(held) + [Conversation(dest, hello, from, rcpt, body, ok)]
    {
      ok := *;
      held := held + [Conversation(dest, hello, from, rcpt, body, ok)];
    }
  }

  /** What a node with key `own` says when it tries to send a delivery. */
  function Said(own: Bytes, a: Trial): Conversation {
    Conversation(a.x.key.dest, HexEncode(own), a.x.from, a.x.rcpt, a.x.body, a.ok)
  }

  function AllSaid(own: Bytes, trials: seq<Trial>): seq<Conversation> {
    seq(|trials|, n requires 0 <= n < |trials| => Said(own, trials[n]))
  }

  /** What a node with key `own` has said in the course of a history. */
  function Spoken(own: Bytes, h: History): seq<Conversation>
    requires h.tried != []
  {
    AllSaid(own, Tried(h))
  }

  lemma SpokenMore(own: Bytes, h: History, step: Step)
    requires Recorded(h) && Enabled(Last(h), step)
    ensures !Tries(step) ==> Spoken(own, Extend(h, step)) == Spoken(own, h)
    ensures Tries(step) ==> Spoken(own, Extend(h, step)) == Spoken(own, h) + [Said(own, TrialBy(Last(h), step))]
  {
  }

  // ------------------------------------------------------------------ the sender

  class Queues {
    const own: Bytes
    const store: Store
    const transport: Transport
    var running: set<string>
    ghost const heldBefore: seq<Conversation>
    ghost var sys: State
    ghost var path: History

    /**
     `path` is the run of the protocol taken so far, `sys` its last state, and the
     transport has held the conversations of that run's sends and no others since.
     */
    ghost predicate Valid()
      reads this, store, transport
    {
      && store.Valid() && Coupled(store.Db(), running, sys)
      && Recorded(path) && sys == Last(path) && path.tried[0] == []
      && Numbered(sys.issued, sys.mails, sys.clock)
      && transport.held == heldBefore + Spoken(own, path)
    }

    /** No goroutine runs yet; `start` is what the store holds, read as a protocol state. */
    constructor (own: Bytes, store: Store, transport: Transport, ghost start: State)
      requires store.Valid() && Coupled(store.Db(), {}, start) && Resting(start)
      ensures Valid() && this.own == own && this.store == store && this.transport == transport
      ensures path == History([start], [], [[]]) && heldBefore == transport.held
    {
      this.own, this.store, this.transport, this.running := own, store, transport, {};
      this.heldBefore, this.sys, this.path := transport.held, start, History([start], [], [[]]);
    }

    /** The rest of the program runs: any steps but those of `me`. */
    method Interference(ghost me: Actor)
      requires Valid()
      modifies this, store, transport
      ensures Valid()
      ensures OthersOnly(old(path), path, me) && Untouched(old(sys), sys, me)
    {
      OthersSpareMe(path, path, me);
    }

    /** Record a step: the statement just executed, or about to be. */
    ghost method Take(step: Step)
      requires Recorded(path) && sys == Last(path) && Numbered(sys.issued, sys.mails, sys.clock)
      requires Enabled(sys, step) && !Faulty(step)
      modifies this`sys, this`path
      ensures Recorded(path) && sys == Last(path) && Numbered(sys.issued, sys.mails, sys.clock)
      ensures sys == Apply(old(sys), step) && path == Extend(old(path), step) && Extends(old(path), path)
      ensures path.tried[0] == old(path.tried[0])
      ensures !Tries(step) ==> Spoken(own, path) == Spoken(own, old(path))
      ensures Tries(step) ==> Spoken(own, path) == Spoken(own, old(path)) + [Said(own, TrialBy(old(sys), step))]
    {
      RecordedThen(path, step);
      SpokenMore(own, path, step);
      StepNumbered(sys, step);
      path := Extend(path, step);
      sys := Last(path);
    }

    // -------------------------------------------------------- what the store answers

    method ReadRows(destination: string) returns (refs: seq<QueuedMail>, ghost rows: seq<Ref>)
      requires Valid()
      ensures IsSnapshot(sys, destination, rows) && Tracks(refs, rows)
    {
      ghost var keys;
      refs, keys := store.QueueMailIDsForDestination(destination);
      ghost var s := sys;
      rows := seq(|refs|, n requires 0 <= n < |refs| => RefOf(s, destination, refs[n]));
      SnapshotMatches(store.Db(), running, sys, destination, refs, keys, rows);
    }

    method ReadRemaining(id: int) returns (remaining: bool)
      requires Valid()
      ensures remaining <==> Remaining(sys, id)
    {
      remaining := store.QueueSelectIsMessagePendingSend(Tables.OUTBOX, id);
      PendingMatches(store.Db(), running, sys, id);
    }

    // ------------------------------------------------------ statements of a worker

    method TakeSnapshot(ghost g: nat, destination: string) returns (refs: seq<QueuedMail>, ghost rows: seq<Ref>)
      requires Valid() && At(sys, g, Worker(destination, Starting, []))
      modifies this, store, transport
      ensures Valid() && Extends(old(path), path)
      ensures At(sys, g, Worker(destination, Looping, rows)) && Tracks(refs, rows)
    {
      Interference(TheWorker(g));
      refs, rows := ReadRows(destination);
      Take(Snapshot(g, rows));
    }

    method SelectMail(ghost g: nat, ref: QueuedMail) returns (mail: Tables.Reply<Tables.Mail>)
      requires Valid() && g in sys.workers && sys.workers[g].pc.Looping?
      requires sys.workers[g].refs != [] && Same(ref, sys.workers[g].refs[0])
      modifies this, store, transport
      ensures Valid() && Extends(old(path), path)
      ensures var w := old(sys.workers[g]);
        g in sys.workers && sys.workers[g] == Worker(w.dest, sys.workers[g].pc, w.refs[1..]) &&
        match mail
        case Ok(m) => sys.workers[g].pc.Sending? && sys.workers[g].pc.ref == w.refs[0] && sys.workers[g].pc.body == m.body
        case Err(_) => sys.workers[g].pc == NoRow(w.refs[0])
    {
      Interference(TheWorker(g));
      var _, found := store.MailSelect(Tables.OUTBOX, ref.id);
      mail := found;
      Take(Select(g));
    }

    /** As written: a mailbox is passed where a destination is meant. */
    method DropMissingRow(ghost g: nat, ref: QueuedMail)
      requires Valid() && g in sys.workers && sys.workers[g].pc.NoRow? && Same(ref, sys.workers[g].pc.ref)
      modifies this, store, transport
      ensures Valid() && Extends(old(path), path) && At(sys, g, old(sys.workers[g]).(pc := Looping))
    {
      Interference(TheWorker(g));
      DropCoupled(store.Db(), running, sys, Tables.OUTBOX, ref.id);
      store.QueueDeleteDestinationForID(Tables.OUTBOX, ref.id);
      Take(DropMissing(g));
    }

    /** Have the transport try to send; the run takes the step for how it ended. */
    method Transmit(ghost g: nat, destination: string, ref: QueuedMail, body: Bytes) returns (sent: bool)
      requires Valid() && g in sys.workers && sys.workers[g].dest == destination
      requires sys.workers[g].pc.Sending? && Same(ref, sys.workers[g].pc.ref) && sys.workers[g].pc.body == body
      modifies this, store, transport
      ensures Valid() && Extends(old(path), path)
      ensures var w := old(sys.workers[g]); At(sys, g, w.(pc := if sent then Written(w.pc.ref) else Looping))
      ensures transport.held != []
      ensures transport.held[|transport.held| - 1] ==
        Conversation(destination, HexEncode(own), ref.from, ref.rcpt, body, sent)
      ensures sent ==> exists x :: x in sys.log && IsSending(x, destination, ref, body)
    {
      Interference(TheWorker(g));
      ghost var x := Sent(sys.workers[g]);
      sent := TransmitNow(g, destination, ref, body);
      assert sent ==> x in sys.log && IsSending(x, destination, ref, body);
    }

    method TransmitNow(ghost g: nat, destination: string, ref: QueuedMail, body: Bytes) returns (sent: bool)
      requires Valid() && g in sys.workers && sys.workers[g].dest == destination
      requires sys.workers[g].pc.Sending? && Same(ref, sys.workers[g].pc.ref) && sys.workers[g].pc.body == body
      modifies this, store, transport
      ensures Valid() && Extends(old(path), path)
      ensures sys == if sent then DoSendOk(old(sys), g) else DoSendFail(old(sys), g)
      ensures transport.held ==
        old(transport.held) + [Conversation(destination, HexEncode(own), ref.from, ref.rcpt, body, sent)]
    {
      sent := transport.Send(destination, HexEncode(own), ref.from, ref.rcpt, body);
      Take(if sent then SendOk(g) else SendFail(g));
    }

    method DropOwnRow(ghost g: nat, destination: string, ref: QueuedMail)
      requires Valid() && g in sys.workers && sys.workers[g].dest == destination
      requires sys.workers[g].pc.Written? && Same(ref, sys.workers[g].pc.ref)
      modifies this, store, transport
      ensures Valid() && Extends(old(path), path)
      ensures var w := old(sys.workers[g]); At(sys, g, w.(pc := Unqueued(w.pc.ref)))
    {
      Interference(TheWorker(g));
      DropCoupled(store.Db(), running, sys, destination, ref.id);
      store.QueueDeleteDestinationForID(destination, ref.id);
      Take(DropRow(g));
    }

    method CheckRemaining(ghost g: nat, ref: QueuedMail) returns (remaining: bool)
      requires Valid() && g in sys.workers && sys.workers[g].pc.Unqueued? && Same(ref, sys.workers[g].pc.ref)
      modifies this, store, transport
      ensures Valid() && Extends(old(path), path)
      ensures var w := old(sys.workers[g]); At(sys, g, w.(pc := if remaining then Looping else Marking(w.pc.ref)))
    {
      Interference(TheWorker(g));
      remaining := ReadRemaining(ref.id);
      Take(Check(g));
    }

    method MarkMail(ghost g: nat, ref: QueuedMail)
      requires Valid() && g in sys.workers && sys.workers[g].pc.Marking? && Same(ref, sys.workers[g].pc.ref)
      modifies this, store, transport
      ensures Valid() && Extends(old(path), path) && At(sys, g, old(sys.workers[g]).(pc := Looping))
    {
      Interference(TheWorker(g));
      MarkCoupled(store.Db(), running, sys, ref.id);
      store.MailDelete(Tables.OUTBOX, ref.id);
      Take(Mark(g));
    }

    method ExpungeOutbox(ghost g: nat)
      requires Valid() && g in sys.workers && sys.workers[g].pc.Looping? && sys.workers[g].refs == []
      modifies this, store, transport
      ensures Valid() && Extends(old(path), path) && At(sys, g, old(sys.workers[g]).(pc := Finishing))
    {
      Interference(TheWorker(g));
      ExpungeCoupled(store.Db(), running, sys);
      store.MailExpunge(Tables.OUTBOX);
      Take(Expunge(g));
    }

    method ClearFlag(ghost g: nat, destination: string)
      requires Valid() && At(sys, g, Worker(destination, Finishing, []))
      modifies this, store, transport
      ensures Valid() && Extends(old(path), path) && g !in sys.workers && destination !in running
    {
      Interference(TheWorker(g));
      running := running - {destination};
      Take(Finish(g));
    }

    // ------------------------------------------------------------------- the worker

    /** One pass of the loop over the snapshot. */
    method Attempt(ghost g: nat, destination: string, ref: QueuedMail)
      requires Valid() && g in sys.workers && sys.workers[g].pc.Looping? && sys.workers[g].dest == destination
      requires sys.workers[g].refs != [] && Same(ref, sys.workers[g].refs[0])
      modifies this, store, transport
      ensures Valid() && Extends(old(path), path)
      ensures At(sys, g, Worker(destination, Looping, old(sys.workers[g].refs[1..])))
    {
      var mail := SelectMail(g, ref);
      label Selected:
      if mail.Err? {
        DropMissingRow(g, ref);
        ExtendsOn(old(path), old@Selected(path), path);
        return;
      }
      var sent := Transmit(g, destination, ref, mail.value.body);
      ExtendsOn(old(path), old@Selected(path), path);
      if sent {
        label Sent_:
        Settle(g, destination, ref);
        ExtendsOn(old(path), old@Sent_(path), path);
      }
    }

    /** After the body is written: delete the row, and mark the mail if it was the last. */
    method Settle(ghost g: nat, destination: string, ref: QueuedMail)
      requires Valid() && g in sys.workers && sys.workers[g].dest == destination
      requires sys.workers[g].pc.Written? && Same(ref, sys.workers[g].pc.ref)
      modifies this, store, transport
      ensures Valid() && Extends(old(path), path) && At(sys, g, old(sys.workers[g]).(pc := Looping))
    {
      DropOwnRow(g, destination, ref);
      label Dropped:
      var remaining := CheckRemaining(g, ref);
      ExtendsOn(old(path), old@Dropped(path), path);
      if !remaining {
        label Checked:
        MarkMail(g, ref);
        ExtendsOn(old(path), old@Checked(path), path);
      }
    }

    /**
     The goroutine of one destination, from its start to the cleared flag: its
     statements, in order, are the protocol's steps for that worker.
     */
    method Run(ghost g: nat, destination: string)
      requires Valid() && At(sys, g, Worker(destination, Starting, []))
      modifies this, store, transport
      ensures Valid() && Extends(old(path), path) && g !in sys.workers && destination !in running
    {
      ghost var rows;
      var refs;
      refs, rows := TakeSnapshot(g, destination);
      assert rows[0..] == rows;
      for n := 0 to |refs|
        invariant Valid() && Extends(old(path), path) && Tracks(refs, rows)
        invariant At(sys, g, Worker(destination, Looping, rows[n..]))
      {
        label Pass:
        assert rows[n..][1..] == rows[n + 1..];
        Attempt(g, destination, refs[n]);
        ExtendsOn(old(path), old@Pass(path), path);
      }
      label Done:
      ExpungeOutbox(g);
      ExtendsOn(old(path), old@Done(path), path);
      label Expunged_:
      ClearFlag(g, destination);
      ExtendsOn(old(path), old@Expunged_(path), path);
    }

    // ------------------------------------------------------- manager and QueueFor

    /**
     queueFor: set the flag, and if it was clear start a goroutine for the destination,
     whose number is fresh.  The step is a call's or the manager's.
     */
    method StartQueueFor(server: string, ghost step: Step)
      requires Valid() && Starts(sys, step, server)
      modifies this
      ensures Valid() && path == Extend(old(path), step) && Extends(old(path), path) && sys == Apply(old(sys), step)
      ensures running == old(running) + {server} && step.g !in old(sys.workers)
      ensures sys.workers ==
        if server in old(running) then old(sys.workers) else old(sys.workers)[step.g := Worker(server, Starting, [])]
    {
      if server !in running {
        running := running + {server};
      }
      Take(step);
    }

    /**
     One tick: list the destinations, then start a worker for each that has none; so
     each destination listed has been running since.
     */
    method Manager()
      requires Valid() && sys.manager == []
      modifies this, store, transport
      ensures Valid() && Extends(old(path), path) && sys.manager == []
      ensures exists n :: |old(path.steps)| <= n < |path.steps| && Ticks(path, n)
    {
      ghost var n;
      var destinations;
      destinations, n := ListAll();
      label Ticked:
      StartAll(destinations, n);
      ExtendsOn(old(path), old@Ticked(path), path);
      TicksStill(old@Ticked(path), path, n, destinations);
    }

    /** The listing, which is step n. */
    method ListAll() returns (destinations: seq<string>, ghost n: nat)
      requires Valid() && sys.manager == []
      modifies this, store, transport
      ensures Valid() && Extends(old(path), path) && sys.manager == destinations
      ensures |old(path.steps)| <= n < |path.steps| && path.steps[n] == Tick(destinations)
      ensures IsListing(path.states[n], destinations)
    {
      Interference(TheManager);
      destinations := store.QueueListDestinations();
      ListingMatches(store.Db(), running, sys, destinations);
      n := |path.steps|;
      Take(Tick(destinations));
    }

    method StartAll(destinations: seq<string>, ghost n0: nat)
      requires Valid() && sys.manager == destinations && n0 < |path.steps|
      modifies this, store, transport
      ensures Valid() && Extends(old(path), path) && sys.manager == []
      ensures forall d :: d in destinations ==> RunsSince(path, n0, d)
    {
      assert destinations[0..] == destinations;
      for n := 0 to |destinations|
        invariant Valid() && Extends(old(path), path) && sys.manager == destinations[n..]
        invariant forall d :: d in destinations[..n] ==> RunsSince(path, n0, d)
      {
        label Next:
        assert destinations[n..][1..] == destinations[n + 1..];
        StartListed(destinations[n]);
        ExtendsOn(old(path), old@Next(path), path);
        StartedSince(old@Next(path), path, n0, destinations[..n], destinations[n]);
        assert destinations[..n + 1] == destinations[..n] + [destinations[n]];
      }
      assert destinations[..|destinations|] == destinations;
    }

    method StartListed(destination: string)
      requires Valid() && sys.manager != [] && sys.manager[0] == destination
      modifies this, store, transport
      ensures Valid() && Extends(old(path), path) && sys.manager == old(sys.manager[1..])
      ensures |old(path.steps)| < |path.steps| && destination in sys.running
    {
      Interference(TheManager);
      StartNext(destination);
    }

    method StartNext(destination: string)
      requires Valid() && sys.manager != [] && sys.manager[0] == destination
      modifies this
      ensures Valid() && Extends(old(path), path) && sys.manager == old(sys.manager[1..])
      ensures |old(path.steps)| < |path.steps| && destination in sys.running
    {
      StartQueueFor(destination, TickStart(FreshId(sys.workers.Keys)));
    }

    /** Create the mail in the Outbox: the call becomes client c of the protocol. */
    method CreateOutgoing(ghost c: nat, from: string, rcpts: seq<string>, content: Bytes, parse: MailParser, now: int)
        returns (pid: int, ghost at: nat)
      requires Valid() && c !in sys.clients
      modifies this, store, transport
      ensures Valid() && Extends(old(path), path) && |old(path.steps)| <= at
      ensures Stores(path, at, c, from, Targets(own, parse, rcpts), content, pid)
      ensures |path.steps| == at + 1 && Mine(path, at, c) == {}
      ensures c in sys.clients && path.states[at].clock < sys.clock
      ensures sys.clients[c] == Client(pid, path.states[at].clock, from, content, Targets(own, parse, rcpts), None)
    {
      Interference(TheClient(c));
      NoOutboxTarget(own, parse, rcpts);
      at := |path.steps|;
      ghost var before := path;
      ghost var ts := Targets(own, parse, rcpts);
      pid := CreateStatement(c, from, ts, content, now);
      StoresNow(before, path, c, from, ts, content);
    }

    method CreateStatement(ghost c: nat, ghost from: string, ghost ts: seq<Target>, content: Bytes, now: int)
        returns (pid: int)
      requires Valid() && Enabled(sys, Create(c, from, ts, content))
      modifies this, store, transport
      ensures Valid() && Extends(old(path), path) && path == Extend(old(path), Create(c, from, ts, content))
      ensures pid == NextId(old(sys)) && sys == DoCreate(old(sys), c, from, ts, content)
    {
      CreateCoupled(store.Db(), running, sys, c, from, ts, content, now);
      var created := store.MailCreate(Tables.OUTBOX, content, now);
      pid := created.value;
      Take(Create(c, from, ts, content));
    }

    /** A recipient that is unusable, or is this node itself, costs no statement. */
    ghost method SkipRecipient(c: nat)
      requires Valid() && Ready(sys, c) && !sys.clients[c].targets[0].Remote?
      modifies this
      ensures Valid() && Extends(old(path), path) && sys == InsertNext(old(sys), c)
      ensures Mine(path, |old(path.steps)|, c) == {}
    {
      MineStep(path, Insert(c), c);
      Take(Insert(c));
    }

    /** Insert the row of the next recipient, under a ticket never issued before. */
    method InsertRow(ghost c: nat, host: string, pid: int, from: string, rcpt: string)
        returns (r: Tables.Reply<()>, ghost ticket: nat)
      requires Valid() && Ready(sys, c) && sys.clients[c].targets[0] == Remote(host, rcpt)
      requires sys.clients[c].id == pid && sys.clients[c].from == from
      modifies this, store, transport
      ensures Valid() && Extends(old(path), path)
      ensures var q := old(sys.clients[c]);
        r.Ok? ==>
          && c in sys.clients && sys.clients[c] == q.(targets := q.targets[1..], kick := Some(host))
          && ticket >= old(sys.clock) && IsQueued(sys.issued, ticket, host, pid, from, rcpt)
          && (Sound(path) ==> Copies(sys.issued, ticket, q.ident, q.body))
          && Mine(path, |old(path.steps)|, c) == {ticket}
      ensures r.Err? ==> c !in sys.clients && RowRefused(old(path), path, host, pid)
    {
      Interference(TheClient(c));
      LastsSince(old(path), path);
      ghost var before := path;
      ticket := sys.clock;
      r := InsertStatement(c, host, pid, from, rcpt);
      if r.Ok? {
        InsertIssues(Last(before), c);
        CopiesContent(before, path, c);
        MineInserted(old(path), before, path, c);
      } else {
        RefusedNow(old(path), before, path, host, pid);
      }
    }

    method InsertStatement(ghost c: nat, host: string, pid: int, from: string, rcpt: string) returns (r: Tables.Reply<()>)
      requires Valid() && Ready(sys, c) && sys.clients[c].targets[0] == Remote(host, rcpt)
      requires sys.clients[c].id == pid && sys.clients[c].from == from
      modifies this, store, transport
      ensures Valid() && Extends(old(path), path) && path == Extend(old(path), Insert(c))
      ensures sys == InsertNext(old(sys), c)
      ensures r.Ok? <==> Inserts(old(sys), c)
      ensures r.Err? ==> c !in sys.clients
    {
      InsertCoupled(store.Db(), running, sys, c);
      r := store.QueueInsertDestinationForID(host, pid, from, rcpt);
      Take(Insert(c));
    }

    method KickHost(ghost c: nat, host: string)
      requires Valid() && c in sys.clients && sys.clients[c].kick == Some(host)
      modifies this, store, transport
      ensures Valid() && Extends(old(path), path) && |old(path.steps)| < |path.steps| && host in sys.running
      ensures c in sys.clients && sys.clients[c] == old(sys.clients[c]).(kick := None)
      ensures Mine(path, |old(path.steps)|, c) == {}
    {
      Interference(TheClient(c));
      ghost var before := path;
      ghost var step := Kick(c, FreshId(sys.workers.Keys));
      StartQueueFor(host, step);
      MineOthers(old(path), before, c);
      MineStep(before, step, c);
      MineOn(before, path, |old(path.steps)|, c);
    }

    /** One recipient: refused, passed over, or queued and its worker started. */
    method QueueRecipient(ghost c: nat, pid: int, from: string, rcpt: string, parse: MailParser)
        returns (r: Tables.Reply<()>, ghost ticket: nat)
      requires Valid() && Ready(sys, c) && sys.clients[c].targets[0] == TargetOf(own, parse, rcpt)
      requires sys.clients[c].id == pid && sys.clients[c].from == from
      modifies this, store, transport
      ensures Valid() && Extends(old(path), path)
      ensures r.Err? ==> c !in sys.clients && Refused(old(path), path, TargetOf(own, parse, rcpt), pid)
      ensures var q := old(sys.clients[c]);
        r.Ok? ==>
          && c in sys.clients && sys.clients[c] == q.(targets := q.targets[1..])
          && Taken(path, TargetOf(own, parse, rcpt), ticket, |old(path.steps)|, old(sys.clock), pid, from, q.ident, q.body)
          && Mine(path, |old(path.steps)|, c) == if TargetOf(own, parse, rcpt).Remote? then {ticket} else {}
    {
      ticket := 0;
      var addr := parse(rcpt);
      if addr.None? {
        SkipRecipient(c);
        return Tables.Err(Tables.Refused), ticket;
      }
      var pk := ParseAddress(addr.value);
      if pk.Err? {
        SkipRecipient(c);
        return Tables.Err(pk.error), ticket;
      }
      var host := HexEncode(pk.value);
      if host == HexEncode(own) {
        SkipRecipient(c);
        return Tables.Ok(()), ticket;
      }
      r, ticket := QueueRemote(c, host, pid, from, rcpt);
    }

    /** A recipient at another node: insert its row, and start the node's worker. */
    method QueueRemote(ghost c: nat, host: string, pid: int, from: string, rcpt: string)
        returns (r: Tables.Reply<()>, ghost ticket: nat)
      requires Valid() && Ready(sys, c) && sys.clients[c].targets[0] == Remote(host, rcpt)
      requires sys.clients[c].id == pid && sys.clients[c].from == from
      modifies this, store, transport
      ensures Valid() && Extends(old(path), path)
      ensures r.Err? ==> c !in sys.clients && RowRefused(old(path), path, host, pid)
      ensures var q := old(sys.clients[c]);
        r.Ok? ==>
          && InCall(sys, c, q.(targets := q.targets[1..]))
          && ticket >= old(sys.clock) && HasTicket(path, host, ticket, pid, from, rcpt, q.ident, q.body)
          && RunsSince(path, |old(path.steps)|, host) && Mine(path, |old(path.steps)|, c) == {ticket}
    {
      ghost var q := sys.clients[c];
      r, ticket := InsertRow(c, host, pid, from, rcpt);
      if r.Ok? {
        ghost var before := path;
        KickHost(c, host);
        KickedSince(old(path), before, path, c, host, ticket, pid, from, rcpt, q.ident, q.body);
      }
    }

    /**
     Queue a mail for its recipients.  MailCreate stores the content as the new mail
     `pid`.  On success every recipient named a key, and the deliveries this call issued
     are one for each recipient whose key is not this node's, to that key's hex, under
     the new id, and of that very mail if A1 and A2 hold; each such node's worker has
     run since.  The call fails only for a recipient without a key, or a row whose key
     was taken or mail gone.
     */
    method QueueFor(ghost c: nat, from: string, rcpts: seq<string>, content: Bytes, parse: MailParser, now: int)
        returns (r: Tables.Reply<()>, ghost pid: int, ghost at: nat, ghost tickets: seq<Option<nat>>)
      requires Valid() && c !in sys.clients
      modifies this, store, transport
      ensures Valid() && Extends(old(path), path) && c !in sys.clients
      ensures |old(path.steps)| <= at && Stores(path, at, c, from, Targets(own, parse, rcpts), content, pid)
      ensures r.Ok? ==>
        AllHandled(path, own, parse, rcpts, tickets, at, c, old(sys.clock), pid, from, path.states[at].clock, content)
      ensures r.Err? ==> exists n :: 0 <= n < |rcpts| && NotQueued(old(path), path, own, KeyOf(parse, rcpts[n]), pid)
    {
      var id;
      id, at := CreateOutgoing(c, from, rcpts, content, parse, now);
      pid, tickets := id, [];
      LastsSince(old(path), path);
      ghost var created := path;
      ghost var ts := Targets(own, parse, rcpts);
      ghost var used;
      r, used := QueueAll(c, id, from, rcpts, parse, ts, at, old(sys.clock));
      ExtendsOn(old(path), created, path);
      StillStores(created, path, at, c, from, ts, content, pid);
      if r.Ok? {
        tickets := TicketsOf(ts, used);
        TakenAreHandled(path, own, parse, rcpts, used, at, c, old(sys.clock), pid, from, path.states[at].clock, content);
      } else {
        RefusedAreUnqueued(old(path), created, path, own, parse, rcpts, pid);
      }
    }

    /** The recipients, and the return if they are all through. */
    method QueueAll(ghost c: nat, pid: int, from: string, rcpts: seq<string>, parse: MailParser, ghost ts: seq<Target>,
        ghost at: nat, ghost since: nat) returns (r: Tables.Reply<()>, ghost tickets: seq<nat>)
      requires Valid() && c in sys.clients && since <= sys.clock && ts == Targets(own, parse, rcpts)
      requires at < |path.steps| && Mine(path, at, c) == {}
      requires var q := sys.clients[c]; q.id == pid && q.from == from && q.targets == ts && q.kick.None?
      modifies this, store, transport
      ensures Valid() && Extends(old(path), path) && c !in sys.clients
      ensures var q := old(sys.clients[c]); r.Ok? ==> AllTaken(path, ts, tickets, at, c, since, pid, from, q.ident, q.body)
      ensures r.Err? ==> AnyRefused(old(path), path, ts, pid)
    {
      ghost var q := sys.clients[c];
      r, tickets := QueueEach(c, pid, from, rcpts, parse, ts, at, since);
      if r.Ok? {
        ghost var before := path;
        EndCall(c);
        ExtendsOn(old(path), before, path);
        MineStep(before, Return(c), c);
        AllTakenSince(before, path, ts, tickets, at, c, since, pid, from, q.ident, q.body);
      }
    }

    /** The recipient loop of QueueFor, over the targets `ts` of its recipients. */
    method QueueEach(ghost c: nat, pid: int, from: string, rcpts: seq<string>, parse: MailParser, ghost ts: seq<Target>,
        ghost at: nat, ghost since: nat) returns (r: Tables.Reply<()>, ghost tickets: seq<nat>)
      requires Valid() && c in sys.clients && since <= sys.clock && ts == Targets(own, parse, rcpts)
      requires at < |path.steps| && Mine(path, at, c) == {}
      requires var q := sys.clients[c]; q.id == pid && q.from == from && q.targets == ts && q.kick.None?
      modifies this, store, transport
      ensures Valid() && Extends(old(path), path)
      ensures var q := old(sys.clients[c]);
        r.Ok? ==> InCall(sys, c, q.(targets := [])) && AllTaken(path, ts, tickets, at, c, since, pid, from, q.ident, q.body)
      ensures r.Err? ==> c !in sys.clients && AnyRefused(old(path), path, ts, pid)
    {
      ghost var q := sys.clients[c];
      tickets := [];
      assert ts[0..] == ts;
      for n := 0 to |rcpts|
        invariant Valid() && Extends(old(path), path) && since <= sys.clock && at < |path.steps|
        invariant InCall(sys, c, q.(targets := ts[n..]))
        invariant AllTaken(path, ts[..n], tickets, at, c, since, pid, from, q.ident, q.body)
      {
        ghost var before := path;
        assert ts[n..][1..] == ts[n + 1..] && ts[..n] + [ts[n]] == ts[..n + 1];
        r, tickets := QueueNext(c, pid, from, rcpts[n], parse, ts[..n], tickets, at, since);
        ExtendsOn(old(path), before, path);
        if r.Err? {
          RefusedAt(old(path), before, path, ts, n, pid);
          return;
        }
      }
      assert ts[..|rcpts|] == ts;
      r := Tables.Ok(());
    }

    /** One pass of the loop, after the recipients with targets `ts`. */
    method QueueNext(ghost c: nat, pid: int, from: string, rcpt: string, parse: MailParser, ghost ts: seq<Target>,
        ghost tickets: seq<nat>, ghost at: nat, ghost since: nat) returns (r: Tables.Reply<()>, ghost more: seq<nat>)
      requires Valid() && Ready(sys, c) && sys.clients[c].targets[0] == TargetOf(own, parse, rcpt)
      requires sys.clients[c].id == pid && sys.clients[c].from == from && since <= sys.clock
      requires at < |path.steps|
      requires AllTaken(path, ts, tickets, at, c, since, pid, from, sys.clients[c].ident, sys.clients[c].body)
      modifies this, store, transport
      ensures Valid() && Extends(old(path), path) && since <= sys.clock
      ensures r.Err? ==> c !in sys.clients && Refused(old(path), path, TargetOf(own, parse, rcpt), pid)
      ensures var q := old(sys.clients[c]);
        r.Ok? ==>
          && c in sys.clients && sys.clients[c] == q.(targets := q.targets[1..])
          && AllTaken(path, ts + [TargetOf(own, parse, rcpt)], more, at, c, since, pid, from, q.ident, q.body)
    {
      ghost var q := sys.clients[c];
      ghost var before := path;
      ghost var ticket;
      r, ticket := QueueRecipient(c, pid, from, rcpt, parse);
      LastsSince(before, path);
      more := tickets + [ticket];
      if r.Ok? {
        TakesOneMore(before, path, ts, q.targets[0], tickets, ticket, at, c, since, pid, from, q.ident, q.body);
      }
    }

    ghost method EndCall(c: nat)
      requires Valid() && c in sys.clients && sys.clients[c].kick.None? && sys.clients[c].targets == []
      modifies this
      ensures Valid() && path == Extend(old(path), Return(c)) && Extends(old(path), path)
      ensures sys == DoReturn(old(sys), c)
    {
      Take(Return(c));
    }
  }

  // ------------------------------------------------------------------ what the contracts say

  /** Before its first statement: no goroutine runs yet. */
  ghost predicate Resting(s: State) {
    && s.workers == map[] && s.clients == map[] && s.manager == []
    && Numbered(s.issued, s.mails, s.clock)
  }

  /** The step is `queueFor` for this destination, by a call or by the manager. */
  ghost predicate Starts(s: State, step: Step, server: string) {
    && Enabled(s, step)
    && ((step.Kick? && s.clients[step.c].kick == Some(server)) || (step.TickStart? && s.manager[0] == server))
  }

  /** Step n is a tick, and each destination listed has been running at some moment since. */
  ghost predicate Ticks(h: History, n: nat) {
    && n < |h.steps| && n < |h.states| && h.steps[n].Tick? && IsListing(h.states[n], h.steps[n].order)
    && forall d :: d in h.steps[n].order ==> RunsSince(h, n, d)
  }

  ghost predicate RunsSince(h: History, n: nat, d: string) {
    exists m :: n < m < |h.states| && d in h.states[m].running
  }

  lemma TicksStill(h: History, h': History, n: nat, ds: seq<string>)
    requires Recorded(h) && Extends(h, h') && n < |h.steps| && h.steps[n] == Tick(ds) && IsListing(h.states[n], ds)
    requires forall d :: d in ds ==> RunsSince(h', n, d)
    ensures Ticks(h', n)
  {
    assert h'.steps[n] == h.steps[n] && h'.states[n] == h.states[n];
  }

  lemma StartedSince(h: History, h': History, n: nat, ds: seq<string>, d: string)
    requires Extends(h, h') && forall e :: e in ds ==> RunsSince(h, n, e)
    requires n + 1 < |h'.states| && d in Last(h').running
    ensures forall e :: e in ds + [d] ==> RunsSince(h', n, e)
  {
    forall e | e in ds
      ensures RunsSince(h', n, e)
    {
      var m :| n < m < |h.states| && e in h.states[m].running;
      assert h'.states[m] == h.states[m];
    }
    assert h'.states[|h'.states| - 1] == Last(h');
  }

  /** Step `at` is call c's MailCreate, which stores `content` under a new id, `pid`. */
  ghost predicate Stores(h: History, at: nat, c: nat, from: string, ts: seq<Target>, content: Bytes, pid: int) {
    && at < |h.steps| && at + 1 < |h.states|
    && h.steps[at] == Create(c, from, ts, content)
    && pid !in h.states[at].mails
    && h.states[at + 1].mails == h.states[at].mails[pid := OutMail(h.states[at].clock, content, false)]
  }

  lemma StoresNow(h: History, h': History, c: nat, from: string, ts: seq<Target>, content: Bytes)
    requires Recorded(h) && Enabled(Last(h), Create(c, from, ts, content))
    requires h' == Extend(h, Create(c, from, ts, content))
    ensures Stores(h', |h.steps|, c, from, ts, content, NextId(Last(h)))
    ensures h'.states[|h.steps|] == Last(h) && Mine(h', |h.steps|, c) == {}
    ensures var q := DoCreate(Last(h), c, from, ts, content).clients[c];
      q == Client(NextId(Last(h)), Last(h).clock, from, content, ts, None)
  {
    MineStep(h, Create(c, from, ts, content), c);
  }

  lemma StillStores(h: History, h': History, at: nat, c: nat, from: string, ts: seq<Target>, content: Bytes, pid: int)
    requires Stores(h, at, c, from, ts, content, pid) && Extends(h, h')
    ensures Stores(h', at, c, from, ts, content, pid) && h'.states[at] == h.states[at]
  {
  }

  ghost predicate IsQueued(issued: Issued, t: nat, host: string, pid: int, from: string, rcpt: string) {
    t in issued && issued[t].key == Key(host, pid) && issued[t].from == from && issued[t].rcpt == rcpt
  }

  /** Ticket t is for the mail `ident` with body `content`. */
  ghost predicate Copies(issued: Issued, t: nat, ident: nat, content: Bytes) {
    t in issued && issued[t].ident == ident && issued[t].body == content
  }

  /** Step n inserts a row for call c. */
  ghost predicate Issues(h: History, n: nat, c: nat) {
    n < |h.steps| && n < |h.states| && h.steps[n] == Insert(c) && Inserts(h.states[n], c)
  }

  /** The tickets of the rows inserted for call c since step n0. */
  ghost function Mine(h: History, n0: nat, c: nat): set<nat> {
    set n | n0 <= n < |h.steps| && Issues(h, n, c) :: h.states[n].clock
  }

  lemma MineOn(h: History, h': History, n0: nat, c: nat)
    requires Extends(h, h') && |h.states| == |h.steps| + 1 && n0 <= |h.steps|
    ensures Mine(h', n0, c) == Mine(h, n0, c) + Mine(h', |h.steps|, c)
  {
    assert forall n :: 0 <= n < |h.steps| ==> h'.steps[n] == h.steps[n] && h'.states[n] == h.states[n];
    assert forall n :: 0 <= n < |h.steps| ==> (Issues(h', n, c) <==> Issues(h, n, c));
  }

  lemma MineOthers(h: History, h': History, c: nat)
    requires OthersOnly(h, h', TheClient(c))
    ensures Mine(h', |h.steps|, c) == {}
  {
    assert forall n :: |h.steps| <= n < |h'.steps| ==> ActorOf(h'.steps[n]) != TheClient(c);
  }

  lemma MineStep(h: History, step: Step, c: nat)
    requires Recorded(h) && Enabled(Last(h), step)
    ensures Mine(Extend(h, step), |h.steps|, c) == if step == Insert(c) && Inserts(Last(h), c) then {Last(h).clock} else {}
  {
    var h' := Extend(h, step);
    assert h'.steps[|h.steps|] == step && h'.states[|h.steps|] == Last(h);
    assert step == Insert(c) && Inserts(Last(h), c) ==> Issues(h', |h.steps|, c);
  }

  lemma MineInserted(h0: History, h: History, h': History, c: nat)
    requires OthersOnly(h0, h, TheClient(c)) && |h0.states| == |h0.steps| + 1
    requires Recorded(h) && Inserts(Last(h), c) && Enabled(Last(h), Insert(c)) && h' == Extend(h, Insert(c))
    ensures Mine(h', |h0.steps|, c) == {Last(h).clock}
  {
    MineOthers(h0, h, c);
    MineStep(h, Insert(c), c);
    MineOn(h, h', |h0.steps|, c);
  }

  /** A ticket for this recipient, of this mail if the history so far is sound. */
  ghost predicate HasTicket(h: History, host: string, ticket: nat, pid: int, from: string, rcpt: string, ident: nat,
      content: Bytes)
    requires Recorded(h)
  {
    && IsQueued(Last(h).issued, ticket, host, pid, from, rcpt)
    && (Sound(h) ==> Copies(Last(h).issued, ticket, ident, content))
  }

  lemma QueuedSince(h: History, h': History, host: string, ticket: nat, pid: int, from: string, rcpt: string,
      ident: nat, content: Bytes)
    requires Recorded(h) && Recorded(h') && Extends(h, h')
    requires Numbered(Last(h).issued, Last(h).mails, Last(h).clock)
    requires HasTicket(h, host, ticket, pid, from, rcpt, ident, content)
    ensures HasTicket(h', host, ticket, pid, from, rcpt, ident, content)
  {
    LastsSince(h, h');
    if Sound(h') {
      SoundBefore(h, h');
    }
  }

  lemma RunsNow(h: History, n: nat, d: string)
    requires n + 1 < |h.states| && d in Last(h).running
    ensures RunsSince(h, n, d)
  {
    assert h.states[|h.states| - 1] == Last(h);
  }

  lemma RunsStill(h: History, h': History, n: nat, n': nat, d: string)
    requires Extends(h, h') && n' <= n && RunsSince(h, n, d)
    ensures RunsSince(h', n', d)
  {
    var m :| n < m < |h.states| && d in h.states[m].running;
    assert h'.states[m] == h.states[m];
  }

  lemma KickedSince(h0: History, h: History, h': History, c: nat, host: string, ticket: nat, pid: int, from: string,
      rcpt: string, ident: nat, content: Bytes)
    requires Recorded(h) && Recorded(h') && Extends(h0, h) && Extends(h, h') && |h0.steps| <= |h.steps| < |h'.steps|
    requires Numbered(Last(h).issued, Last(h).mails, Last(h).clock)
    requires HasTicket(h, host, ticket, pid, from, rcpt, ident, content) && host in Last(h').running
    requires Mine(h, |h0.steps|, c) == {ticket} && Mine(h', |h.steps|, c) == {}
    ensures Extends(h0, h') && HasTicket(h', host, ticket, pid, from, rcpt, ident, content)
    ensures RunsSince(h', |h0.steps|, host) && Mine(h', |h0.steps|, c) == {ticket}
  {
    ExtendsOn(h0, h, h');
    MineOn(h, h', |h0.steps|, c);
    QueuedSince(h, h', host, ticket, pid, from, rcpt, ident, content);
    RunsNow(h', |h0.steps|, host);
  }

  /**
   A usable recipient; a remote one has had a delivery issued, not before time `since`,
   and its destination's worker has run since step `at`.
   */
  ghost predicate Taken(h: History, target: Target, ticket: nat, at: nat, since: nat, pid: int, from: string,
      ident: nat, content: Bytes)
    requires Recorded(h)
  {
    match target
    case Local => true
    case Invalid => false
    case Remote(host, rcpt) =>
      ticket >= since && HasTicket(h, host, ticket, pid, from, rcpt, ident, content) && RunsSince(h, at, host)
  }

  lemma TakenSince(h: History, h': History, target: Target, ticket: nat, at: nat, at': nat, since: nat, since': nat,
      pid: int, from: string, ident: nat, content: Bytes)
    requires Recorded(h) && Recorded(h') && Extends(h, h') && at' <= at && since' <= since
    requires Numbered(Last(h).issued, Last(h).mails, Last(h).clock)
    requires Taken(h, target, ticket, at, since, pid, from, ident, content)
    ensures Taken(h', target, ticket, at', since', pid, from, ident, content)
  {
    if target.Remote? {
      QueuedSince(h, h', target.dest, ticket, pid, from, target.rcpt, ident, content);
      RunsStill(h, h', at, at', target.dest);
    }
  }

  /** The tickets given to remote recipients. */
  function Used(ts: seq<Target>, tickets: seq<nat>): set<nat>
    requires |tickets| == |ts|
  {
    set a | 0 <= a < |ts| && ts[a].Remote? :: tickets[a]
  }

  /** All recipients were usable, and the remote ones have had deliveries issued, each its own; the call issued no others. */
  ghost predicate AllTaken(h: History, ts: seq<Target>, tickets: seq<nat>, at: nat, c: nat, since: nat, pid: int,
      from: string, ident: nat, content: Bytes)
    requires Recorded(h)
  {
    EachTaken(h, ts, tickets, at, since, pid, from, ident, content) && Mine(h, at, c) == Used(ts, tickets)
  }

  ghost predicate EachTaken(h: History, ts: seq<Target>, tickets: seq<nat>, at: nat, since: nat, pid: int,
      from: string, ident: nat, content: Bytes)
    requires Recorded(h)
  {
    && |tickets| == |ts|
    && (forall a :: 0 <= a < |ts| ==> Taken(h, ts[a], tickets[a], at, since, pid, from, ident, content))
    && (forall a, b :: 0 <= a < b < |ts| && ts[a].Remote? && ts[b].Remote? ==> tickets[a] < tickets[b])
  }

  lemma TakesOneMore(h: History, h': History, ts: seq<Target>, target: Target, tickets: seq<nat>, ticket: nat, at: nat,
      c: nat, since: nat, pid: int, from: string, ident: nat, content: Bytes)
    requires Recorded(h) && Recorded(h') && Extends(h, h') && at < |h.steps|
    requires Numbered(Last(h).issued, Last(h).mails, Last(h).clock) && since <= Last(h).clock
    requires AllTaken(h, ts, tickets, at, c, since, pid, from, ident, content)
    requires Taken(h', target, ticket, |h.steps|, Last(h).clock, pid, from, ident, content)
    requires Mine(h', |h.steps|, c) == if target.Remote? then {ticket} else {}
    ensures AllTaken(h', ts + [target], tickets + [ticket], at, c, since, pid, from, ident, content)
  {
    EachTakenMore(h, h', ts, target, tickets, ticket, at, since, pid, from, ident, content);
    MineOn(h, h', at, c);
    UsedMore(ts, target, tickets, ticket);
  }

  lemma EachTakenMore(h: History, h': History, ts: seq<Target>, target: Target, tickets: seq<nat>, ticket: nat,
      at: nat, since: nat, pid: int, from: string, ident: nat, content: Bytes)
    requires Recorded(h) && Recorded(h') && Extends(h, h') && at < |h.steps|
    requires Numbered(Last(h).issued, Last(h).mails, Last(h).clock) && since <= Last(h).clock
    requires EachTaken(h, ts, tickets, at, since, pid, from, ident, content)
    requires Taken(h', target, ticket, |h.steps|, Last(h).clock, pid, from, ident, content)
    ensures EachTaken(h', ts + [target], tickets + [ticket], at, since, pid, from, ident, content)
  {
    forall a | 0 <= a < |ts|
      ensures Taken(h', ts[a], tickets[a], at, since, pid, from, ident, content)
      ensures ts[a].Remote? ==> tickets[a] < Last(h).clock
    {
      TakenSince(h, h', ts[a], tickets[a], at, at, since, since, pid, from, ident, content);
    }
    LaterToo(h', target, ticket, |h.steps|, at, Last(h).clock, since, pid, from, ident, content);
  }

  lemma LaterToo(h: History, target: Target, ticket: nat, at: nat, at': nat, since: nat, since': nat, pid: int,
      from: string, ident: nat, content: Bytes)
    requires Recorded(h) && at' <= at && since' <= since
    requires Taken(h, target, ticket, at, since, pid, from, ident, content)
    ensures Taken(h, target, ticket, at', since', pid, from, ident, content)
  {
    if target.Remote? {
      RunsStill(h, h, at, at', target.dest);
    }
  }

  lemma UsedMore(ts: seq<Target>, target: Target, tickets: seq<nat>, ticket: nat)
    requires |tickets| == |ts|
    ensures Used(ts + [target], tickets + [ticket]) == Used(ts, tickets) + if target.Remote? then {ticket} else {}
  {
    var ts', tickets' := ts + [target], tickets + [ticket];
    assert forall a :: 0 <= a < |ts| ==> ts'[a] == ts[a] && tickets'[a] == tickets[a];
    assert ts'[|ts|] == target && tickets'[|ts|] == ticket;
    forall k | k in Used(ts, tickets)
      ensures k in Used(ts', tickets')
    {
      var a :| 0 <= a < |ts| && ts[a].Remote? && tickets[a] == k;
      assert ts'[a].Remote? && tickets'[a] == k;
    }
  }

  lemma AllTakenSince(h: History, h': History, ts: seq<Target>, tickets: seq<nat>, at: nat, c: nat, since: nat,
      pid: int, from: string, ident: nat, content: Bytes)
    requires Recorded(h) && Recorded(h') && Extends(h, h') && at < |h.steps|
    requires Numbered(Last(h).issued, Last(h).mails, Last(h).clock)
    requires AllTaken(h, ts, tickets, at, c, since, pid, from, ident, content) && Mine(h', |h.steps|, c) == {}
    ensures AllTaken(h', ts, tickets, at, c, since, pid, from, ident, content)
  {
    forall a | 0 <= a < |ts|
      ensures Taken(h', ts[a], tickets[a], at, since, pid, from, ident, content)
    {
      TakenSince(h, h', ts[a], tickets[a], at, at, since, since, pid, from, ident, content);
    }
    MineOn(h, h', at, c);
  }

  // ---------------------------------------------------- the same in terms of keys

  /**
   A recipient that names a key.  If the key is this node's there is no ticket; otherwise
   there is one, issued since, for that key's hex and this recipient, and the worker for
   that destination has run since.
   */
  ghost predicate Handled(h: History, own: Bytes, key: Option<Bytes>, rcpt: string, ticket: Option<nat>, at: nat,
      since: nat, pid: int, from: string, ident: nat, content: Bytes)
    requires Recorded(h)
  {
    && key.Some?
    && if key.value == own then ticket == None
       else
         && ticket.Some? && ticket.value >= since
         && HasTicket(h, HexEncode(key.value), ticket.value, pid, from, rcpt, ident, content)
         && RunsSince(h, at, HexEncode(key.value))
  }

  /** All recipients handled, under different tickets; those are all the tickets the call issued. */
  ghost predicate AllHandled(h: History, own: Bytes, parse: MailParser, rcpts: seq<string>, tickets: seq<Option<nat>>,
      at: nat, c: nat, since: nat, pid: int, from: string, ident: nat, content: Bytes)
    requires Recorded(h)
  {
    && |tickets| == |rcpts|
    && (forall a :: 0 <= a < |rcpts| ==>
          Handled(h, own, KeyOf(parse, rcpts[a]), rcpts[a], tickets[a], at, since, pid, from, ident, content))
    && (forall a, b :: 0 <= a < b < |rcpts| && tickets[a].Some? && tickets[b].Some? ==> tickets[a].value < tickets[b].value)
    && (forall k :: k in Mine(h, at, c) <==> Some(k) in tickets)
  }

  function TicketsOf(ts: seq<Target>, used: seq<nat>): (tickets: seq<Option<nat>>)
    requires |used| == |ts|
  {
    seq(|ts|, a requires 0 <= a < |ts| => if ts[a].Remote? then Some(used[a]) else None)
  }

  lemma TakenAreHandled(h: History, own: Bytes, parse: MailParser, rcpts: seq<string>, used: seq<nat>, at: nat, c: nat,
      since: nat, pid: int, from: string, ident: nat, content: Bytes)
    requires Recorded(h)
    requires AllTaken(h, Targets(own, parse, rcpts), used, at, c, since, pid, from, ident, content)
    ensures AllHandled(h, own, parse, rcpts, TicketsOf(Targets(own, parse, rcpts), used), at, c, since, pid, from, ident, content)
  {
    var ts := Targets(own, parse, rcpts);
    var tickets := TicketsOf(ts, used);
    forall a | 0 <= a < |rcpts|
      ensures Handled(h, own, KeyOf(parse, rcpts[a]), rcpts[a], tickets[a], at, since, pid, from, ident, content)
    {
      TargetMeans(own, parse, rcpts[a]);
      assert Taken(h, ts[a], used[a], at, since, pid, from, ident, content);
    }
    forall k: nat
      ensures k in Used(ts, used) <==> Some(k) in tickets
    {
      if k in Used(ts, used) {
        var a :| 0 <= a < |ts| && ts[a].Remote? && used[a] == k;
        assert tickets[a] == Some(k);
      }
    }
  }

  /** A recipient without a key, or with a remote one whose row was refused. */
  ghost predicate NotQueued(h: History, h': History, own: Bytes, key: Option<Bytes>, pid: int) {
    key.None? || (key.value != own && RowRefused(h, h', HexEncode(key.value), pid))
  }

  lemma RefusedAreUnqueued(h0: History, h: History, h': History, own: Bytes, parse: MailParser, rcpts: seq<string>,
      pid: int)
    requires Extends(h0, h) && AnyRefused(h, h', Targets(own, parse, rcpts), pid)
    ensures exists n :: 0 <= n < |rcpts| && NotQueued(h0, h', own, KeyOf(parse, rcpts[n]), pid)
  {
    var ts := Targets(own, parse, rcpts);
    var n :| 0 <= n < |ts| && Refused(h, h', ts[n], pid);
    RefusedSince(h0, h, h', ts[n], pid);
    TargetMeans(own, parse, rcpts[n]);
    assert NotQueued(h0, h', own, KeyOf(parse, rcpts[n]), pid);
  }

  /** What the call inserts is a copy of its own mail, when the history so far is sound. */
  lemma CopiesContent(h: History, h': History, c: nat)
    requires Recorded(h) && Recorded(h') && Extends(h, h') && Inserts(Last(h), c)
    requires Last(h') == InsertNext(Last(h), c)
    ensures var q := Last(h).clients[c]; Sound(h') ==> Copies(Last(h').issued, Last(h).clock, q.ident, q.body)
  {
    if Sound(h') {
      SoundBefore(h, h');
      SoundSafe(h);
      QueuesOwn(Last(h), c);
    }
  }

  ghost predicate At(s: State, g: nat, w: Worker) {
    g in s.workers && s.workers[g] == w
  }

  ghost predicate Same(q: QueuedMail, r: Ref) {
    q.id == r.id && q.from == r.from && q.rcpt == r.rcpt
  }

  ghost predicate Tracks(refs: seq<QueuedMail>, rows: seq<Ref>) {
    |refs| == |rows| && forall n :: 0 <= n < |refs| ==> Same(refs[n], rows[n])
  }

  ghost function RefOf(s: State, dest: string, q: QueuedMail): Ref {
    var k := Key(dest, q.id);
    Ref(q.id, q.from, q.rcpt, if k in s.queue then s.queue[k].ticket else 0)
  }

  /** x is the full body of the referenced mail, written to the destination. */
  ghost predicate IsSending(x: Delivery, destination: string, ref: QueuedMail, body: Bytes) {
    x.key == Key(destination, ref.id) && x.from == ref.from && x.rcpt == ref.rcpt && x.body == body
  }

  /** The rows the store lists are a snapshot in the protocol's sense. */
  lemma SnapshotMatches(db: Tables.Db, running: set<string>, s: State, dest: string, refs: seq<QueuedMail>,
      keys: seq<Tables.QueueKey>, rows: seq<Ref>)
    requires Coupled(db, running, s) && |keys| == |refs| == |rows|
    requires Falling(keys)
    requires forall q :: q in keys <==> q in db.queue && q.destination == dest
    requires forall n :: 0 <= n < |refs| ==>
      keys[n] in db.queue && refs[n] == QueuedMail(keys[n].id, db.queue[keys[n]].from, db.queue[keys[n]].rcpt)
    requires forall n :: 0 <= n < |refs| ==> rows[n] == RefOf(s, dest, refs[n])
    ensures IsSnapshot(s, dest, rows) && Tracks(refs, rows)
  {
    forall n | 0 <= n < |keys|
      ensures keys[n] == Tables.QueueKey(dest, Tables.OUTBOX, rows[n].id) && RowIs(s, dest, rows[n])
    {
      assert keys[n] in keys;
      assert Key(dest, keys[n].id) in s.queue;
    }
    forall k | k in s.queue && k.dest == dest
      ensures exists r :: r in rows && r.id == k.id
    {
      var q := Tables.QueueKey(dest, Tables.OUTBOX, k.id);
      assert q in keys;
      var n :| 0 <= n < |keys| && keys[n] == q;
      assert rows[n] in rows;
    }
  }

  lemma PendingMatches(db: Tables.Db, running: set<string>, s: State, i: int)
    requires Coupled(db, running, s)
    ensures Remaining(s, i) <==> exists q :: q in db.queue && q.mailbox == Tables.OUTBOX && q.id == i
  {
    if k :| k in s.queue && k.id == i {
      assert Tables.QueueKey(k.dest, Tables.OUTBOX, i) in db.queue;
    }
    if q :| q in db.queue && q.mailbox == Tables.OUTBOX && q.id == i {
      assert Key(q.destination, i) in s.queue;
    }
  }

  lemma ListingMatches(db: Tables.Db, running: set<string>, s: State, destinations: seq<string>)
    requires Coupled(db, running, s)
    requires forall a, b :: 0 <= a < b < |destinations| ==> destinations[a] != destinations[b]
    requires forall d :: d in destinations <==> exists q :: q in db.queue && q.destination == d
    ensures IsListing(s, destinations)
  {
    forall d | d in destinations
      ensures exists k :: k in s.queue && k.dest == d
    {
      var q :| q in db.queue && q.destination == d;
      assert Key(d, q.id) in s.queue;
    }
    forall k | k in s.queue
      ensures k.dest in destinations
    {
      var q := Tables.QueueKey(k.dest, Tables.OUTBOX, k.id);
      assert q in db.queue && q.destination == k.dest;
    }
  }

  /** At some moment from h to h', the row's key was taken or its mail gone. */
  ghost predicate RowRefused(h: History, h': History, host: string, pid: int) {
    exists n :: 0 <= n < |h'.states| && |h.states| <= n + 1 && Unwelcome(h'.states[n], host, pid)
  }

  ghost predicate Unwelcome(s: State, host: string, pid: int) {
    Key(host, pid) in s.queue || pid !in s.mails
  }

  ghost predicate Refused(h: History, h': History, target: Target, pid: int) {
    target.Invalid? || (target.Remote? && RowRefused(h, h', target.dest, pid))
  }

  lemma RefusedNow(h: History, mid: History, h': History, host: string, pid: int)
    requires Extends(h, mid) && Extends(mid, h') && mid.states != [] && Unwelcome(Last(mid), host, pid)
    ensures RowRefused(h, h', host, pid)
  {
    assert h'.states[|mid.states| - 1] == Last(mid);
  }

  lemma RefusedSince(h0: History, h: History, h': History, target: Target, pid: int)
    requires Extends(h0, h) && Refused(h, h', target, pid)
    ensures Refused(h0, h', target, pid)
  {
  }

  /** Some recipient was refused. */
  ghost predicate AnyRefused(h: History, h': History, ts: seq<Target>, pid: int) {
    exists n :: 0 <= n < |ts| && Refused(h, h', ts[n], pid)
  }

  lemma RefusedAt(h0: History, h: History, h': History, ts: seq<Target>, n: nat, pid: int)
    requires Extends(h0, h) && n < |ts| && Refused(h, h', ts[n], pid)
    ensures AnyRefused(h0, h', ts, pid)
  {
    RefusedSince(h0, h, h', ts[n], pid);
  }

  lemma InsertIssues(s: State, c: nat)
    requires Inserts(s, c)
    ensures var q, s' := s.clients[c], InsertNext(s, c);
      var t := q.targets[0];
      IsQueued(s'.issued, s.clock, t.dest, q.id, q.from, t.rcpt)
      && s'.clients == s.clients[c := q.(targets := q.targets[1..], kick := Some(t.dest))]
  {
  }

  ghost predicate InCall(s: State, c: nat, q: Client) {
    c in s.clients && s.clients[c] == q
  }

  ghost predicate Ready(s: State, c: nat) {
    c in s.clients && s.clients[c].kick.None? && s.clients[c].targets != []
  }
}

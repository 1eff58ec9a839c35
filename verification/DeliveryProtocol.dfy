/**
 The delivery queue as a transition system over the Outbox: one step per SQL
 statement, send or flag update, for any number of worker goroutines (one per
 call of `Queue.run`), of `QueueFor` calls in progress, and the queue manager.

 Mail ids are reused: `Create` hands out MAX(id)+1 after an expunge may have
 freed ids that workers still hold in their snapshots.  To talk about that,
 mails carry an identity and queue rows a ticket, both drawn from a counter
 that never repeats; the system never reads them.  `issued` remembers what
 each ticket stood for, `log` every body fully written to a destination, and
 `failed` the tickets whose send failed since the last manager tick.
 */
module DeliveryProtocol {
  import opened Base

  datatype Key = Key(dest: string, id: int)
  datatype OutMail = OutMail(ident: nat, body: Bytes, deleted: bool)
  datatype Row = Row(from: string, rcpt: string, ticket: nat)
  datatype Ref = Ref(id: int, from: string, rcpt: string, ticket: nat)
  datatype Delivery = Delivery(ticket: nat, ident: nat, key: Key, from: string, rcpt: string, body: Bytes)

  /** Where a worker stands in `Queue.run`; `ref` is the reference in hand. */
  datatype Pc =
    | Starting                                      // flag set, snapshot not taken
    | Looping                                       // at the loop head
    | NoRow(ref: Ref)                               // MailSelect found nothing
    | Sending(ref: Ref, ident: nat, body: Bytes)    // mail read, not yet written
    | Written(ref: Ref)                             // body written, row not deleted
    | Unqueued(ref: Ref)                            // row deleted, rest not checked
    | Marking(ref: Ref)                             // no rows seen, mail not marked
    | Finishing                                     // expunged, flag not cleared

  datatype Worker = Worker(dest: string, pc: Pc, refs: seq<Ref>)

  /** What `QueueFor` makes of one recipient address. */
  datatype Target = Local | Invalid | Remote(dest: string, rcpt: string)

  /**
   A `QueueFor` call after its MailCreate: `targets` are the recipients to come and
   `kick` a host still to be started; `ident` and `body` remember the mail created.
   */
  datatype Client = Client(id: int, ident: nat, from: string, body: Bytes, targets: seq<Target>, kick: Option<string>)

  datatype State = State(
    mails: map<int, OutMail>,
    queue: map<Key, Row>,
    running: set<string>,
    workers: map<nat, Worker>,
    clients: map<nat, Client>,
    manager: seq<string>,
    issued: map<nat, Delivery>,
    log: multiset<Delivery>,
    failed: set<nat>,
    clock: nat)

  datatype Step =
    | Create(c: nat, from: string, targets: seq<Target>, body: Bytes)
    | Insert(c: nat)
    | InsertFault(c: nat)
    | Kick(c: nat, g: nat)
    | Return(c: nat)
    | Tick(order: seq<string>)
    | TickStart(g: nat)
    | Snapshot(g: nat, refs: seq<Ref>)
    | Select(g: nat)
    | DropMissing(g: nat)
    | SendOk(g: nat)
    | SendFail(g: nat)
    | DropRow(g: nat)
    | Check(g: nat)
    | Mark(g: nat)
    | Expunge(g: nat)
    | Finish(g: nat)
    | Fault(g: nat)                                 // a storage call reports an error
    | SilentCreate(c: nat, from: string, targets: seq<Target>, body: Bytes)
    | SilentInsert(c: nat)                          // a write does nothing and reports success
    | SilentDrop(g: nat)
    | CutSnapshot(g: nat, refs: seq<Ref>)           // a listing ends early, and nobody looks why
    | CutTick(order: seq<string>)
    | Restart                                       // the process dies; the tables remain

  const INIT := State(map[], map[], {}, map[], map[], [], map[], multiset{}, {}, 0)

  // ---------------------------------------------------------------- statements

  /** `SELECT IFNULL(MAX(id)+1,1)` over the Outbox. */
  function NextId(s: State): int {
    NextAfter(s.mails.Keys)
  }

  /** `SELECT COUNT(*) FROM queue WHERE mailbox = 'Outbox' AND id = i` is not zero. */
  ghost predicate Remaining(s: State, i: int) {
    exists k :: k in s.queue && k.id == i
  }

  ghost predicate RowIs(s: State, dest: string, r: Ref) {
    var k := Key(dest, r.id);
    k in s.queue && s.queue[k] == Row(r.from, r.rcpt, r.ticket)
  }

  /** Some rows of the destination, by descending id. */
  ghost predicate AreRows(s: State, dest: string, refs: seq<Ref>) {
    Descending(refs) && forall r :: r in refs ==> RowIs(s, dest, r)
  }

  /** `SELECT id, mail, rcpt FROM queue WHERE destination = dest ORDER BY id DESC`: all of them. */
  ghost predicate IsSnapshot(s: State, dest: string, refs: seq<Ref>) {
    && AreRows(s, dest, refs)
    && (forall k :: k in s.queue && k.dest == dest ==> exists r :: r in refs && r.id == k.id)
  }

  ghost predicate Descending(refs: seq<Ref>) {
    forall a, b :: 0 <= a < b < |refs| ==> refs[a].id > refs[b].id
  }

  /** Some destinations with rows, each once. */
  ghost predicate AreHosts(s: State, order: seq<string>) {
    && (forall a, b :: 0 <= a < b < |order| ==> order[a] != order[b])
    && (forall d :: d in order ==> exists k :: k in s.queue && k.dest == d)
  }

  /** `SELECT DISTINCT destination FROM queue`, in any order. */
  ghost predicate IsListing(s: State, order: seq<string>) {
    && AreHosts(s, order)
    && (forall k :: k in s.queue ==> k.dest in order)
  }

  /** `queueFor`: the compare-and-swap on the flag, and the goroutine if it won. */
  function StartQueue(s: State, d: string, g: nat): State {
    if d in s.running then s
    else s.(running := s.running + {d}, workers := s.workers[g := Worker(d, Starting, [])])
  }

  function SetPc(s: State, g: nat, pc: Pc): State
    requires g in s.workers
  {
    s.(workers := s.workers[g := s.workers[g].(pc := pc)])
  }

  /** `DELETE FROM mails WHERE mailbox = 'Outbox' AND deleted = 1`, with its cascade. */
  function Expunged(s: State): State {
    s.(mails := map i | i in s.mails && !s.mails[i].deleted :: s.mails[i],
       queue := map k | k in s.queue && !(k.id in s.mails && s.mails[k.id].deleted) :: s.queue[k])
  }

  /** One pass of the recipient loop of `QueueFor`. */
  function InsertNext(s: State, c: nat): State
    requires c in s.clients && s.clients[c].targets != []
  {
    var q := s.clients[c];
    var rest := q.targets[1..];
    match q.targets[0]
    case Local => s.(clients := s.clients[c := q.(targets := rest)])
    case Invalid => s.(clients := s.clients - {c})
    case Remote(d, rcpt) =>
      var k := Key(d, q.id);
      if k in s.queue || q.id !in s.mails then s.(clients := s.clients - {c})
      else
        var mail := s.mails[q.id];
        s.(clients := s.clients[c := q.(targets := rest, kick := Some(d))],
           queue := s.queue[k := Row(q.from, rcpt, s.clock)],
           issued := s.issued[s.clock := Delivery(s.clock, mail.ident, k, q.from, rcpt, mail.body)],
           clock := s.clock + 1)
  }

  /** Where a worker goes when its next storage call reports an error. */
  function AfterFault(w: Worker): Worker {
    match w.pc
    case Starting => w.(pc := Looping, refs := [])
    case Looping => if w.refs == [] then w.(pc := Finishing) else w.(refs := w.refs[1..])
    case Sending(_, _, _) => w
    case Finishing => w
    case _ => w.(pc := Looping)
  }

  // --------------------------------------------------------------- transitions

  ghost predicate Enabled(s: State, step: Step) {
    match step
    case Create(c, _, targets, _) =>
      c !in s.clients && forall t :: t in targets && t.Remote? ==> t.dest != "Outbox"
    case Insert(c) => c in s.clients && s.clients[c].kick.None? && s.clients[c].targets != []
    case InsertFault(c) => c in s.clients && s.clients[c].kick.None? && s.clients[c].targets != []
    case Kick(c, g) => c in s.clients && s.clients[c].kick.Some? && g !in s.workers
    case Return(c) => c in s.clients && s.clients[c].kick.None? && s.clients[c].targets == []
    case Tick(order) => s.manager == [] && IsListing(s, order)
    case TickStart(g) => s.manager != [] && g !in s.workers
    case Snapshot(g, refs) => g in s.workers && s.workers[g].pc.Starting? && IsSnapshot(s, s.workers[g].dest, refs)
    case Select(g) => g in s.workers && s.workers[g].pc.Looping? && s.workers[g].refs != []
    case DropMissing(g) => g in s.workers && s.workers[g].pc.NoRow?
    case SendOk(g) => g in s.workers && s.workers[g].pc.Sending?
    case SendFail(g) => g in s.workers && s.workers[g].pc.Sending?
    case DropRow(g) => g in s.workers && s.workers[g].pc.Written?
    case Check(g) => g in s.workers && s.workers[g].pc.Unqueued?
    case Mark(g) => g in s.workers && s.workers[g].pc.Marking?
    case Expunge(g) => g in s.workers && s.workers[g].pc.Looping? && s.workers[g].refs == []
    case Finish(g) => g in s.workers && s.workers[g].pc.Finishing?
    case Fault(g) => g in s.workers && !s.workers[g].pc.Sending? && !s.workers[g].pc.Finishing?
    case SilentCreate(c, _, targets, _) =>
      c !in s.clients && forall t :: t in targets && t.Remote? ==> t.dest != "Outbox"
    case SilentInsert(c) =>
      c in s.clients && s.clients[c].kick.None? && s.clients[c].targets != [] && s.clients[c].targets[0].Remote?
    case SilentDrop(g) => g in s.workers && s.workers[g].pc.Written?
    case CutSnapshot(g, refs) => g in s.workers && s.workers[g].pc.Starting? && AreRows(s, s.workers[g].dest, refs)
    case CutTick(order) => s.manager == [] && AreHosts(s, order)
    case Restart => true
  }

  function DoCreate(s: State, c: nat, from: string, targets: seq<Target>, body: Bytes): State {
    s.(mails := s.mails[NextId(s) := OutMail(s.clock, body, false)],
       clients := s.clients[c := Client(NextId(s), s.clock, from, body, targets, None)],
       clock := s.clock + 1)
  }

  /** A MailCreate whose transaction did not begin returns id 0. */
  function DoSilentCreate(s: State, c: nat, from: string, targets: seq<Target>, body: Bytes): State {
    s.(clients := s.clients[c := Client(0, s.clock, from, body, targets, None)], clock := s.clock + 1)
  }

  function DoSilentInsert(s: State, c: nat): State
    requires c in s.clients && s.clients[c].targets != [] && s.clients[c].targets[0].Remote?
  {
    var q := s.clients[c];
    s.(clients := s.clients[c := q.(targets := q.targets[1..], kick := Some(q.targets[0].dest))])
  }

  function DoKick(s: State, c: nat, g: nat): State
    requires c in s.clients && s.clients[c].kick.Some?
  {
    StartQueue(s, s.clients[c].kick.value, g).(clients := s.clients[c := s.clients[c].(kick := None)])
  }

  function DoReturn(s: State, c: nat): State {
    s.(clients := s.clients - {c})
  }

  function DoTick(s: State, order: seq<string>): State {
    s.(manager := order, failed := {})
  }

  function DoTickStart(s: State, g: nat): State
    requires s.manager != []
  {
    StartQueue(s, s.manager[0], g).(manager := s.manager[1..])
  }

  function DoSnapshot(s: State, g: nat, refs: seq<Ref>): State
    requires g in s.workers
  {
    s.(workers := s.workers[g := Worker(s.workers[g].dest, Looping, refs)])
  }

  function DoSelect(s: State, g: nat): State
    requires g in s.workers && s.workers[g].refs != []
  {
    var w := s.workers[g];
    var r := w.refs[0];
    var pc := if r.id in s.mails then Sending(r, s.mails[r.id].ident, s.mails[r.id].body) else NoRow(r);
    s.(workers := s.workers[g := Worker(w.dest, pc, w.refs[1..])])
  }

  function DoDropMissing(s: State, g: nat): State
    requires g in s.workers && s.workers[g].pc.NoRow?
  {
    SetPc(s, g, Looping).(queue := s.queue - {Key("Outbox", s.workers[g].pc.ref.id)})
  }

  function Sent(w: Worker): Delivery
    requires w.pc.Sending?
  {
    var r := w.pc.ref;
    Delivery(r.ticket, w.pc.ident, Key(w.dest, r.id), r.from, r.rcpt, w.pc.body)
  }

  function DoSendOk(s: State, g: nat): State
    requires g in s.workers && s.workers[g].pc.Sending?
  {
    SetPc(s, g, Written(s.workers[g].pc.ref)).(log := s.log + multiset{Sent(s.workers[g])})
  }

  function DoSendFail(s: State, g: nat): State
    requires g in s.workers && s.workers[g].pc.Sending?
  {
    SetPc(s, g, Looping).(failed := s.failed + {s.workers[g].pc.ref.ticket})
  }

  function DoDropRow(s: State, g: nat): State
    requires g in s.workers && s.workers[g].pc.Written?
  {
    var r := s.workers[g].pc.ref;
    SetPc(s, g, Unqueued(r)).(queue := s.queue - {Key(s.workers[g].dest, r.id)})
  }

  function DoSilentDrop(s: State, g: nat): State
    requires g in s.workers && s.workers[g].pc.Written?
  {
    SetPc(s, g, Unqueued(s.workers[g].pc.ref))
  }

  ghost function DoCheck(s: State, g: nat): State
    requires g in s.workers && s.workers[g].pc.Unqueued?
  {
    var r := s.workers[g].pc.ref;
    SetPc(s, g, if Remaining(s, r.id) then Looping else Marking(r))
  }

  /** `UPDATE mails SET deleted = 1 WHERE mailbox = 'Outbox' AND id = i`. */
  function Marked(mails: map<int, OutMail>, i: int): map<int, OutMail> {
    if i in mails then mails[i := mails[i].(deleted := true)] else mails
  }

  function DoMark(s: State, g: nat): State
    requires g in s.workers && s.workers[g].pc.Marking?
  {
    SetPc(s, g, Looping).(mails := Marked(s.mails, s.workers[g].pc.ref.id))
  }

  function DoExpunge(s: State, g: nat): State
    requires g in s.workers
  {
    SetPc(Expunged(s), g, Finishing)
  }

  function DoFinish(s: State, g: nat): State
    requires g in s.workers
  {
    s.(workers := s.workers - {g}, running := s.running - {s.workers[g].dest})
  }

  function DoFault(s: State, g: nat): State
    requires g in s.workers
  {
    s.(workers := s.workers[g := AfterFault(s.workers[g])])
  }

  function DoRestart(s: State): State {
    s.(running := {}, workers := map[], clients := map[], manager := [])
  }

  ghost function Apply(s: State, step: Step): State
    requires Enabled(s, step)
  {
    match step
    case Create(c, from, targets, body) => DoCreate(s, c, from, targets, body)
    case Insert(c) => InsertNext(s, c)
    case InsertFault(c) => DoReturn(s, c)
    case Kick(c, g) => DoKick(s, c, g)
    case Return(c) => DoReturn(s, c)
    case Tick(order) => DoTick(s, order)
    case TickStart(g) => DoTickStart(s, g)
    case Snapshot(g, refs) => DoSnapshot(s, g, refs)
    case Select(g) => DoSelect(s, g)
    case DropMissing(g) => DoDropMissing(s, g)
    case SendOk(g) => DoSendOk(s, g)
    case SendFail(g) => DoSendFail(s, g)
    case DropRow(g) => DoDropRow(s, g)
    case Check(g) => DoCheck(s, g)
    case Mark(g) => DoMark(s, g)
    case Expunge(g) => DoExpunge(s, g)
    case Finish(g) => DoFinish(s, g)
    case Fault(g) => DoFault(s, g)
    case SilentCreate(c, from, targets, body) => DoSilentCreate(s, c, from, targets, body)
    case SilentInsert(c) => DoSilentInsert(s, c)
    case SilentDrop(g) => DoSilentDrop(s, g)
    case CutSnapshot(g, refs) => DoSnapshot(s, g, refs)
    case CutTick(order) => DoTick(s, order)
    case Restart => DoRestart(s)
  }

  ghost predicate ByClient(step: Step) {
    || step.Create? || step.Insert? || step.InsertFault? || step.Kick? || step.Return?
    || step.SilentCreate? || step.SilentInsert?
  }

  ghost predicate ByWorker(step: Step) {
    !ByClient(step) && !Lists(step) && !step.TickStart? && !step.Restart?
  }

  /** The manager lists destinations. */
  predicate Lists(step: Step) {
    step.Tick? || step.CutTick?
  }

  /** A worker takes its snapshot. */
  predicate Reads(step: Step) {
    step.Snapshot? || step.CutSnapshot?
  }

  /** How many remote recipients `QueueFor` comes to: those before the first unusable one. */
  function RemotesAhead(targets: seq<Target>): nat {
    if targets == [] then 0
    else
      match targets[0]
      case Local => RemotesAhead(targets[1..])
      case Invalid => 0
      case Remote(_, _) => 1 + RemotesAhead(targets[1..])
  }

  predicate Ahead(targets: seq<Target>) {
    RemotesAhead(targets) > 0
  }

  /** A `QueueFor` call for mail i still has a row to insert. */
  ghost predicate Inserting(s: State, i: int) {
    exists c :: c in s.clients && s.clients[c].id == i && Ahead(s.clients[c].targets)
  }

  /** A worker has seen no rows for mail i and is about to mark it. */
  ghost predicate MarkPending(s: State, i: int) {
    exists g :: g in s.workers && s.workers[g].pc.Marking? && s.workers[g].pc.ref.id == i
  }

  /** A1: no worker finds mail i without rows while its `QueueFor` is still inserting. */
  ghost predicate A1(s: State, step: Step)
    requires Enabled(s, step)
  {
    step.Check? ==> var i := s.workers[step.g].pc.ref.id; Remaining(s, i) || !Inserting(s, i)
  }

  /** A2: MailCreate does not reuse an id that a worker is about to mark. */
  ghost predicate A2(s: State, step: Step) {
    step.Create? ==> !MarkPending(s, NextId(s))
  }

  /** A storage error, reported or not, or the end of the process. */
  ghost predicate Faulty(step: Step) {
    || step.Fault? || step.InsertFault? || step.SilentCreate? || step.SilentInsert? || step.SilentDrop?
    || step.CutSnapshot? || step.CutTick? || step.Restart?
  }

  /** The deletion of a row whose body has been written fails, or never happens. */
  ghost predicate DropFails(s: State, step: Step)
    requires Enabled(s, step)
  {
    || (step.Fault? && s.workers[step.g].pc.Written?)
    || step.SilentDrop?
    || (step.Restart? && exists g :: g in s.workers && s.workers[g].pc.Written?)
  }

  // ------------------------------------------------------------ runs

  /** Which storage errors a run may have. */
  datatype Errors = NoErrors | DropsSucceed | AnyErrors

  datatype Regime = Regime(a1: bool, a2: bool, errors: Errors)

  ghost predicate Allowed(s: State, step: Step, m: Regime) {
    Enabled(s, step) && (m.a1 ==> A1(s, step)) && (m.a2 ==> A2(s, step)) && Errs(s, step, m.errors)
  }

  ghost predicate Errs(s: State, step: Step, errors: Errors)
    requires Enabled(s, step)
  {
    match errors
    case NoErrors => !Faulty(step)
    case DropsSucceed => !DropFails(s, step)
    case AnyErrors => true
  }

  ghost predicate IsRun(s: State, steps: seq<Step>, m: Regime)
    decreases |steps|
  {
    steps != [] ==> Allowed(s, steps[0], m) && IsRun(Apply(s, steps[0]), steps[1..], m)
  }

  ghost function Final(s: State, steps: seq<Step>, m: Regime): State
    requires IsRun(s, steps, m)
    decreases |steps|
  {
    if steps == [] then s else Final(Apply(s, steps[0]), steps[1..], m)
  }

  lemma {:induction false} RunThen(s: State, steps: seq<Step>, step: Step, m: Regime)
    requires IsRun(s, steps, m) && Allowed(Final(s, steps, m), step, m)
    ensures IsRun(s, steps + [step], m)
    ensures Final(s, steps + [step], m) == Apply(Final(s, steps, m), step)
    decreases |steps|
  {
    if steps == [] {
      assert steps + [step] == [step];
    } else {
      RunThen(Apply(s, steps[0]), steps[1..], step, m);
      assert (steps + [step])[1..] == steps[1..] + [step];
    }
  }

  lemma {:induction false} RunJoin(s: State, first: seq<Step>, second: seq<Step>, m: Regime)
    requires IsRun(s, first, m) && IsRun(Final(s, first, m), second, m)
    ensures IsRun(s, first + second, m)
    ensures Final(s, first + second, m) == Final(Final(s, first, m), second, m)
    decreases |first|
  {
    if first == [] {
      assert first + second == second;
    } else {
      RunJoin(Apply(s, first[0]), first[1..], second, m);
      assert (first + second)[1..] == first[1..] + second;
    }
  }
}

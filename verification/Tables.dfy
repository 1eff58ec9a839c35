/**
 The three tables and the effect of each SQL statement on them.  A statement is
 atomic and foreign keys are enforced; a refused statement changes nothing.
 */
module Tables {
  import opened Base

  const OUTBOX := "Outbox"

  datatype MailKey = MailKey(mailbox: string, id: int)
  datatype Mail = Mail(body: Bytes, date: int, flags: Flags)
  datatype Flags = Flags(seen: bool, answered: bool, flagged: bool, deleted: bool)
  datatype QueueKey = QueueKey(destination: string, mailbox: string, id: int)
  datatype QueueRow = QueueRow(from: string, rcpt: string)

  /** What the source reports, or does instead of replying: `Crash` and `Endless`. */
  datatype Error = PrimaryKey | ForeignKey | NoRows | Scan | Refused | Crash | Endless

  datatype Reply<+T> = Ok(value: T) | Err(error: Error)

  /** mailbox name -> subscribed; (mailbox, id) -> mail; (destination, mailbox, id) -> row. */
  datatype Db = Db(mailboxes: map<string, bool>, mails: map<MailKey, Mail>, queue: map<QueueKey, QueueRow>)

  const EMPTY := Db(map[], map[], map[])

  /** Every mail lies in a mailbox and every queue row refers to a mail. */
  ghost predicate Valid(db: Db) {
    && (forall k :: k in db.mails ==> k.mailbox in db.mailboxes && k.id >= 1)
    && (forall q :: q in db.queue ==> MailKey(q.mailbox, q.id) in db.mails)
  }

  function Ids(db: Db, mailbox: string): (ids: set<int>)
    ensures forall i :: i in ids <==> MailKey(mailbox, i) in db.mails
  {
    set k | k in db.mails && k.mailbox == mailbox :: k.id
  }

  const NO_FLAGS := Flags(false, false, false, false)

  // ------------------------------------------------------------------ mailboxes

  function MailboxCreate(db: Db, name: string): Db {
    if name in db.mailboxes then db else db.(mailboxes := db.mailboxes[name := true])
  }

  function MailboxSubscribe(db: Db, name: string, subscribed: bool): Db {
    if name in db.mailboxes then db.(mailboxes := db.mailboxes[name := subscribed]) else db
  }

  /** `DELETE FROM mailboxes`, cascading to mails and on to queue rows. */
  function MailboxDelete(db: Db, name: string): Db {
    Db(db.mailboxes - {name},
       map k | k in db.mails && k.mailbox != name :: db.mails[k],
       map q | q in db.queue && q.mailbox != name :: db.queue[q])
  }

  // ------------------------------------------------- ON UPDATE CASCADE on queue

  /** The mails an UPDATE takes from mailbox `from` to `to`: all of them, or one. */
  datatype Change = Change(from: string, to: string, only: Option<int>)

  predicate Affects(c: Change, mailbox: string, id: int) {
    mailbox == c.from && (c.only == None || c.only == Some(id))
  }

  /** Following the update, two queue rows would share a key. */
  predicate Collides(queue: map<QueueKey, QueueRow>, c: Change) {
    c.from != c.to && exists q :: q in queue && Affects(c, q.mailbox, q.id) && q.(mailbox := c.to) in queue
  }

  predicate MailsCollide(mails: map<MailKey, Mail>, from: string, to: string) {
    exists k :: k in mails && k.mailbox == from && MailKey(to, k.id) in mails
  }

  function NewKey(c: Change, q: QueueKey): QueueKey {
    if Affects(c, q.mailbox, q.id) then q.(mailbox := c.to) else q
  }

  function CascadeQueue(queue: map<QueueKey, QueueRow>, c: Change): map<QueueKey, QueueRow> {
    var keys := set q | q in queue :: NewKey(c, q);
    map q | q in keys ::
      var was := q.(mailbox := c.from);
      if q.mailbox == c.to && was in queue && Affects(c, c.from, q.id) then queue[was] else queue[q]
  }

  function CascadeMails(mails: map<MailKey, Mail>, from: string, to: string): map<MailKey, Mail> {
    var keys := set k | k in mails :: if k.mailbox == from then MailKey(to, k.id) else k;
    map k | k in keys ::
      var was := MailKey(from, k.id);
      if k.mailbox == to && was in mails then mails[was] else mails[k]
  }

  /** `UPDATE mailboxes SET mailbox = to WHERE mailbox = from`. */
  function MailboxUpdate(db: Db, from: string, to: string): (Db, Reply<()>) {
    if from !in db.mailboxes || from == to then (db, Ok(()))
    else if to in db.mailboxes then (db, Err(PrimaryKey))
    else if MailsCollide(db.mails, from, to) || Collides(db.queue, Change(from, to, None)) then (db, Err(PrimaryKey))
    else
      (Db(db.mailboxes[to := db.mailboxes[from]] - {from},
          CascadeMails(db.mails, from, to),
          CascadeQueue(db.queue, Change(from, to, None))), Ok(()))
  }

  /** The statement's parameters are new, old; `MailboxRename(old, new)` binds old, new. */
  function MailboxRename(db: Db, old_: string, new_: string): (Db, Reply<()>) {
    MailboxUpdate(db, new_, old_)
  }

  // ----------------------------------------------------------------------- mails

  function MailCreate(db: Db, mailbox: string, data: Bytes, now: int): (Db, Reply<int>) {
    if mailbox !in db.mailboxes then (db, Err(ForeignKey))
    else
      var id := NextAfter(Ids(db, mailbox));
      (db.(mails := db.mails[MailKey(mailbox, id) := Mail(data, now, NO_FLAGS)]), Ok(id))
  }

  function MailUpdateFlags(db: Db, mailbox: string, id: int, flags: Flags): Db {
    var k := MailKey(mailbox, id);
    if k in db.mails then db.(mails := db.mails[k := db.mails[k].(flags := flags)]) else db
  }

  function MailDelete(db: Db, mailbox: string, id: int): Db {
    var k := MailKey(mailbox, id);
    if k in db.mails then db.(mails := db.mails[k := db.mails[k].(flags := db.mails[k].flags.(deleted := true))])
    else db
  }

  /** Mail k goes when `mailbox` is expunged. */
  predicate Goes(db: Db, mailbox: string, k: MailKey) {
    k in db.mails && k.mailbox == mailbox && db.mails[k].flags.deleted
  }

  function MailExpunge(db: Db, mailbox: string): Db {
    db.(mails := map k | k in db.mails && !Goes(db, mailbox, k) :: db.mails[k],
        queue := map q | q in db.queue && !Goes(db, mailbox, MailKey(q.mailbox, q.id)) :: db.queue[q])
  }

  function MailMove(db: Db, mailbox: string, id: int, destination: string): (Db, Reply<()>) {
    var k, to := MailKey(mailbox, id), MailKey(destination, id);
    var c := Change(mailbox, destination, Some(id));
    if k !in db.mails || mailbox == destination then (db, Ok(()))
    else if to in db.mails then (db, Err(PrimaryKey))
    else if destination !in db.mailboxes then (db, Err(ForeignKey))
    else if Collides(db.queue, c) then (db, Err(PrimaryKey))
    else (db.(mails := (db.mails - {k})[to := db.mails[k]], queue := CascadeQueue(db.queue, c)), Ok(()))
  }

  // --------------------------------------------------------------------- queries

  /** The mail under an id, as MailSelect finds it. */
  function MailAt(db: Db, mailbox: string, id: int): Reply<Mail> {
    var k := MailKey(mailbox, id);
    if k in db.mails then Ok(db.mails[k]) else Err(NoRows)
  }

  // ----------------------------------------------------------------------- queue

  function QueueInsert(db: Db, destination: string, id: int, from: string, rcpt: string): (Db, Reply<()>) {
    var q := QueueKey(destination, OUTBOX, id);
    if q in db.queue then (db, Err(PrimaryKey))
    else if MailKey(OUTBOX, id) !in db.mails then (db, Err(ForeignKey))
    else (db.(queue := db.queue[q := QueueRow(from, rcpt)]), Ok(()))
  }

  function QueueDelete(db: Db, destination: string, id: int): Db {
    db.(queue := db.queue - {QueueKey(destination, OUTBOX, id)})
  }

  // ------------------------------------------------------------------ statements

  datatype Op =
    | CreateMailbox(name: string)
    | SubscribeMailbox(name: string, subscribed: bool)
    | DeleteMailbox(name: string)
    | RenameMailbox(old_: string, new_: string)
    | CreateMail(mailbox: string, data: Bytes, now: int)
    | UpdateFlags(mailbox: string, id: int, flags: Flags)
    | DeleteMail(mailbox: string, id: int)
    | ExpungeMail(mailbox: string)
    | MoveMail(mailbox: string, id: int, destination: string)
    | InsertQueue(destination: string, id: int, from: string, rcpt: string)
    | DeleteQueue(destination: string, id: int)

  /** A statement's effect on the tables and its reply; MailCreate replies the new id. */
  function Exec(db: Db, op: Op): (Db, Reply<int>) {
    match op
    case CreateMailbox(name) => (MailboxCreate(db, name), Ok(0))
    case SubscribeMailbox(name, on) => (MailboxSubscribe(db, name, on), Ok(0))
    case DeleteMailbox(name) => (MailboxDelete(db, name), Ok(0))
    case RenameMailbox(old_, new_) => Plain(MailboxRename(db, old_, new_))
    case CreateMail(mailbox, data, now) => MailCreate(db, mailbox, data, now)
    case UpdateFlags(mailbox, id, flags) => (MailUpdateFlags(db, mailbox, id, flags), Ok(0))
    case DeleteMail(mailbox, id) => (MailDelete(db, mailbox, id), Ok(0))
    case ExpungeMail(mailbox) => (MailExpunge(db, mailbox), Ok(0))
    case MoveMail(mailbox, id, destination) => Plain(MailMove(db, mailbox, id, destination))
    case InsertQueue(destination, id, from, rcpt) => Plain(QueueInsert(db, destination, id, from, rcpt))
    case DeleteQueue(destination, id) => (QueueDelete(db, destination, id), Ok(0))
  }

  function Plain(r: (Db, Reply<()>)): (Db, Reply<int>) {
    (r.0, if r.1.Ok? then Ok(0) else Err(r.1.error))
  }

  function ExecAll(db: Db, ops: seq<Op>): Db
    decreases |ops|
  {
    if ops == [] then db else ExecAll(Exec(db, ops[0]).0, ops[1..])
  }
}

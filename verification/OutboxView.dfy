/**
 The Outbox and the queue as the delivery protocol sees them: each storage call of
 the sender has on this view the effect of the protocol's step, and statements on
 other mailboxes have none.
 */
module OutboxView {
  import opened Base
  import opened DeliveryProtocol
  import Tables

  ghost predicate MailsMatch(db: Tables.Db, mails: map<int, OutMail>) {
    && (forall i :: i in mails <==> Tables.MailKey(Tables.OUTBOX, i) in db.mails)
    && (forall i :: i in mails ==>
          var m := db.mails[Tables.MailKey(Tables.OUTBOX, i)];
          m.body == mails[i].body && m.flags.deleted == mails[i].deleted)
  }

  ghost predicate QueueMatches(db: Tables.Db, queue: map<Key, Row>) {
    && (forall q :: q in db.queue ==> q.mailbox == Tables.OUTBOX)
    && (forall k :: k in queue <==> Tables.QueueKey(k.dest, Tables.OUTBOX, k.id) in db.queue)
    && (forall k :: k in queue ==>
          var row := db.queue[Tables.QueueKey(k.dest, Tables.OUTBOX, k.id)];
          row.from == queue[k].from && row.rcpt == queue[k].rcpt)
  }

  ghost predicate Coupled(db: Tables.Db, running: set<string>, sys: State) {
    && MailsMatch(db, sys.mails)
    && QueueMatches(db, sys.queue)
    && running == sys.running
    && Tables.OUTBOX in db.mailboxes
  }

  lemma OutboxIds(db: Tables.Db, mails: map<int, OutMail>)
    requires MailsMatch(db, mails)
    ensures Tables.Ids(db, Tables.OUTBOX) == mails.Keys
  {
    assert forall i :: i in Tables.Ids(db, Tables.OUTBOX) <==> i in mails.Keys;
  }

  lemma CreateCoupled(db: Tables.Db, running: set<string>, s: State, c: nat, from: string, targets: seq<Target>,
      content: Bytes, now: int)
    requires Coupled(db, running, s)
    ensures var (db', r) := Tables.MailCreate(db, Tables.OUTBOX, content, now);
      && r == Tables.Ok(NextId(s))
      && Coupled(db', running, DoCreate(s, c, from, targets, content))
  {
    OutboxIds(db, s.mails);
  }

  lemma InsertCoupled(db: Tables.Db, running: set<string>, s: State, c: nat)
    requires Coupled(db, running, s) && c in s.clients && s.clients[c].targets != [] && s.clients[c].targets[0].Remote?
    ensures var q := s.clients[c];
      var t := q.targets[0];
      var (db', r) := Tables.QueueInsert(db, t.dest, q.id, q.from, t.rcpt);
      && Coupled(db', running, InsertNext(s, c))
      && (r.Err? <==> Key(t.dest, q.id) in s.queue || q.id !in s.mails)
  {
  }

  lemma DropCoupled(db: Tables.Db, running: set<string>, s: State, d: string, i: int)
    requires Coupled(db, running, s)
    ensures Coupled(Tables.QueueDelete(db, d, i), running, s.(queue := s.queue - {Key(d, i)}))
  {
  }

  lemma MarkCoupled(db: Tables.Db, running: set<string>, s: State, i: int)
    requires Coupled(db, running, s)
    ensures Coupled(Tables.MailDelete(db, Tables.OUTBOX, i), running, s.(mails := Marked(s.mails, i)))
  {
  }

  lemma ExpungeCoupled(db: Tables.Db, running: set<string>, s: State)
    requires Coupled(db, running, s)
    ensures Coupled(Tables.MailExpunge(db, Tables.OUTBOX), running, Expunged(s))
  {
    var db', s' := Tables.MailExpunge(db, Tables.OUTBOX), Expunged(s);
    forall k
      ensures k in s'.queue <==> Tables.QueueKey(k.dest, Tables.OUTBOX, k.id) in db'.queue
    {
      assert k in s.queue <==> Tables.QueueKey(k.dest, Tables.OUTBOX, k.id) in db.queue;
    }
  }

  /** A statement on another mailbox is invisible to the protocol. */
  ghost predicate SparesOutbox(db: Tables.Db, op: Tables.Op) {
    match op
    case CreateMailbox(_) => true
    case SubscribeMailbox(_, _) => true
    case DeleteMailbox(name) => name != Tables.OUTBOX
    case RenameMailbox(old_, new_) => new_ != Tables.OUTBOX
    case CreateMail(mailbox, _, _) => mailbox != Tables.OUTBOX
    case UpdateFlags(mailbox, _, _) => mailbox != Tables.OUTBOX
    case DeleteMail(mailbox, _) => mailbox != Tables.OUTBOX
    case ExpungeMail(mailbox) => mailbox != Tables.OUTBOX
    case MoveMail(mailbox, _, destination) => mailbox != Tables.OUTBOX && destination != Tables.OUTBOX
    case InsertQueue(_, _, _, _) => false
    case DeleteQueue(_, _) => false
  }

  lemma OtherMailboxesInvisible(db: Tables.Db, running: set<string>, s: State, op: Tables.Op)
    requires Coupled(db, running, s) && SparesOutbox(db, op)
    ensures Coupled(Tables.Exec(db, op).0, running, s)
  {
    var db' := Tables.Exec(db, op).0;
    if op.RenameMailbox? {
      RenameInvisible(db, op.old_, op.new_);
    } else if op.MoveMail? {
      MoveInvisible(db, op.mailbox, op.id, op.destination);
    } else {
      RestInvisible(db, op);
    }
    StillCoupled(db, db', running, s);
  }

  /** The Outbox, its mails' bodies and marks, and the queue are as before. */
  ghost predicate OutboxKept(db: Tables.Db, db': Tables.Db) {
    && db'.queue == db.queue
    && (Tables.OUTBOX in db.mailboxes ==> Tables.OUTBOX in db'.mailboxes)
    && forall i :: var k := Tables.MailKey(Tables.OUTBOX, i);
         (k in db'.mails <==> k in db.mails) && (k in db.mails ==> db'.mails[k] == db.mails[k])
  }

  lemma StillCoupled(db: Tables.Db, db': Tables.Db, running: set<string>, s: State)
    requires Coupled(db, running, s) && OutboxKept(db, db')
    ensures Coupled(db', running, s)
  {
  }

  ghost predicate AllInOutbox(db: Tables.Db) {
    forall q :: q in db.queue ==> q.mailbox == Tables.OUTBOX
  }

  lemma RenameInvisible(db: Tables.Db, old_: string, new_: string)
    requires AllInOutbox(db) && Tables.OUTBOX in db.mailboxes && new_ != Tables.OUTBOX
    ensures OutboxKept(db, Tables.MailboxRename(db, old_, new_).0)
  {
    var c := Tables.Change(new_, old_, None);
    assert forall q :: q in db.queue ==> Tables.NewKey(c, q) == q;
    assert Tables.CascadeQueue(db.queue, c) == db.queue;
  }

  lemma MoveInvisible(db: Tables.Db, mailbox: string, id: int, destination: string)
    requires AllInOutbox(db) && mailbox != Tables.OUTBOX && destination != Tables.OUTBOX
    ensures OutboxKept(db, Tables.MailMove(db, mailbox, id, destination).0)
  {
    var c := Tables.Change(mailbox, destination, Some(id));
    assert forall q :: q in db.queue ==> Tables.NewKey(c, q) == q;
    assert Tables.CascadeQueue(db.queue, c) == db.queue;
  }

  lemma RestInvisible(db: Tables.Db, op: Tables.Op)
    requires AllInOutbox(db) && SparesOutbox(db, op) && !op.RenameMailbox? && !op.MoveMail?
    ensures OutboxKept(db, Tables.Exec(db, op).0)
  {
  }
}

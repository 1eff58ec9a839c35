/** What each statement does to the tables, row by row, and what it leaves alone. */
module TableLaws {
  import opened Base
  import opened Tables
  import Integrity

  /** A statement that reports an error has changed nothing. */
  lemma RefusedChangesNothing(db: Db, op: Op)
    ensures Exec(db, op).1.Err? ==> Exec(db, op).0 == db
  {
  }

  // ------------------------------------------------------------------ mailboxes

  /** Mailboxes other than those named are as they were. */
  ghost predicate OthersKept(db: Db, db': Db, names: set<string>) {
    forall m :: m !in names ==>
      (m in db'.mailboxes <==> m in db.mailboxes) && (m in db.mailboxes ==> db'.mailboxes[m] == db.mailboxes[m])
  }

  /** Afterwards the mailbox is there, subscribed to if it is new; one that was there is as it was. */
  lemma MailboxCreateMeans(db: Db, name: string)
    ensures var db' := Exec(db, CreateMailbox(name)).0;
      && name in db'.mailboxes && (db'.mailboxes[name] <==> name !in db.mailboxes || db.mailboxes[name])
      && OthersKept(db, db', {name}) && db'.mails == db.mails && db'.queue == db.queue
  {
  }

  lemma MailboxSubscribeMeans(db: Db, name: string, subscribed: bool)
    ensures var db' := Exec(db, SubscribeMailbox(name, subscribed)).0;
      && (name in db'.mailboxes <==> name in db.mailboxes)
      && (name in db.mailboxes ==> (db'.mailboxes[name] <==> subscribed))
      && OthersKept(db, db', {name}) && db'.mails == db.mails && db'.queue == db.queue
  {
  }

  /** The mailbox is gone with its mails and their rows; other mailboxes, mails and rows are as they were. */
  lemma MailboxDeleteMeans(db: Db, name: string)
    ensures var db' := Exec(db, DeleteMailbox(name)).0;
      && name !in db'.mailboxes && OthersKept(db, db', {name})
      && (forall k :: k in db'.mails <==> k in db.mails && k.mailbox != name)
      && (forall k :: k in db'.mails ==> db'.mails[k] == db.mails[k])
      && (forall q :: q in db'.queue <==> q in db.queue && q.mailbox != name)
      && (forall q :: q in db'.queue ==> db'.queue[q] == db.queue[q])
  {
  }

  /** Where a mail lies after mailbox `from` has become `to`. */
  function Renamed(k: MailKey, from: string, to: string): MailKey {
    if k.mailbox == from then k.(mailbox := to) else k
  }

  /**
   An accepted change of a mailbox's name, which for want of order among the arguments
   takes the new name first: the name is replaced, with its subscription, and every mail
   is carried over with its body, date and flags, none merged or invented.
   */
  lemma MailboxUpdateMeans(db: Db, from: string, to: string)
    requires Valid(db) && Exec(db, RenameMailbox(to, from)).1.Ok? && from in db.mailboxes && from != to
    ensures var db' := Exec(db, RenameMailbox(to, from)).0;
      && to !in db.mailboxes && from !in db'.mailboxes && to in db'.mailboxes
      && db'.mailboxes[to] == db.mailboxes[from] && OthersKept(db, db', {from, to})
      && (forall k :: k in db.mails ==>
            Renamed(k, from, to) in db'.mails && db'.mails[Renamed(k, from, to)] == db.mails[k])
      && (forall k, l :: k in db.mails && l in db.mails && Renamed(k, from, to) == Renamed(l, from, to) ==> k == l)
      && (forall k :: k in db'.mails ==> exists l :: l in db.mails && Renamed(l, from, to) == k)
  {
    var db' := Exec(db, RenameMailbox(to, from)).0;
    forall k | k in db.mails
      ensures Renamed(k, from, to) in db'.mails && db'.mails[Renamed(k, from, to)] == db.mails[k]
    {
      assert k.mailbox != to;
    }
    forall k | k in db'.mails
      ensures exists l :: l in db.mails && Renamed(l, from, to) == k
    {
      var l :| l in db.mails && k == if l.mailbox == from then MailKey(to, l.id) else l;
      assert Renamed(l, from, to) == k;
    }
  }

  /** ... and every queue row is carried over with its mail. */
  lemma MailboxUpdateCarriesRows(db: Db, from: string, to: string)
    requires Valid(db) && Exec(db, RenameMailbox(to, from)).1.Ok? && from in db.mailboxes && from != to
    ensures var db', c := Exec(db, RenameMailbox(to, from)).0, Change(from, to, None);
      && (forall q :: q in db.queue ==> NewKey(c, q) in db'.queue && db'.queue[NewKey(c, q)] == db.queue[q])
      && (forall k :: k in db'.queue ==> exists q :: q in db.queue && NewKey(c, q) == k)
      && forall q :: NewKey(c, q) == if q.mailbox == from then q.(mailbox := to) else q
  {
    Integrity.RenameNeverCollides(db, from, to);
    Integrity.CascadeCarries(db.queue, Change(from, to, None));
  }

  // ----------------------------------------------------------------------- mails

  /** Mails other than k are as they were, and so are mailboxes and queue. */
  ghost predicate OnlyMail(db: Db, db': Db, k: MailKey) {
    && db'.mailboxes == db.mailboxes && db'.queue == db.queue
    && forall l :: l != k ==> (l in db'.mails <==> l in db.mails) && (l in db.mails ==> db'.mails[l] == db.mails[l])
  }

  /**
   A created mail has an id above all others of its mailbox, 1 in an empty one, the data
   and date given, and none of the four flags; it is refused only for want of the mailbox.
   */
  lemma MailCreateMeans(db: Db, mailbox: string, data: Bytes, now: int)
    ensures var (db', r) := Exec(db, CreateMail(mailbox, data, now));
      && (r.Ok? <==> mailbox in db.mailboxes)
      && (r.Ok? ==>
            var k := MailKey(mailbox, r.value);
            && (forall l :: l in db.mails && l.mailbox == mailbox ==> l.id < k.id)
            && (k.id == 1 || MailKey(mailbox, k.id - 1) in db.mails)
            && OnlyMail(db, db', k) && k in db'.mails && IsNew(db'.mails[k], data, now))
  {
  }

  predicate IsNew(m: Mail, data: Bytes, now: int) {
    && m.body == data && m.date == now
    && !m.flags.seen && !m.flags.answered && !m.flags.flagged && !m.flags.deleted
  }

  lemma MailUpdateFlagsMeans(db: Db, mailbox: string, id: int, flags: Flags)
    ensures var db', k := Exec(db, UpdateFlags(mailbox, id, flags)).0, MailKey(mailbox, id);
      && OnlyMail(db, db', k) && (k in db'.mails <==> k in db.mails)
      && (k in db.mails ==> db'.mails[k] == Mail(db.mails[k].body, db.mails[k].date, flags))
  {
  }

  /** Marking a mail deleted leaves its other flags, its body and its date. */
  lemma MailDeleteMeans(db: Db, mailbox: string, id: int)
    ensures var db', k := Exec(db, DeleteMail(mailbox, id)).0, MailKey(mailbox, id);
      && OnlyMail(db, db', k) && (k in db'.mails <==> k in db.mails)
      && (k in db.mails ==> IsMarked(db.mails[k], db'.mails[k]))
  {
  }

  predicate IsMarked(m: Mail, m': Mail) {
    && m'.body == m.body && m'.date == m.date
    && m'.flags.seen == m.flags.seen && m'.flags.answered == m.flags.answered && m'.flags.flagged == m.flags.flagged
    && m'.flags.deleted
  }

  /** Expunging takes the marked mails of the mailbox, and the rows of the mails it takes, and nothing else. */
  lemma MailExpungeMeans(db: Db, mailbox: string)
    requires Valid(db)
    ensures var db' := Exec(db, ExpungeMail(mailbox)).0;
      && db'.mailboxes == db.mailboxes
      && (forall k :: k in db'.mails <==> k in db.mails && !(k.mailbox == mailbox && db.mails[k].flags.deleted))
      && (forall k :: k in db'.mails ==> db'.mails[k] == db.mails[k])
      && (forall q :: q in db'.queue <==> q in db.queue && MailKey(q.mailbox, q.id) in db'.mails)
      && (forall q :: q in db'.queue ==> db'.queue[q] == db.queue[q])
  {
  }

  /**
   An accepted move takes the one mail, with all it has, to a free place in a mailbox that
   exists, and its rows with it; moving an absent mail, or one to where it is, does nothing.
   For when a move is refused see Integrity.
   */
  lemma MailMoveMeans(db: Db, mailbox: string, id: int, destination: string)
    requires Valid(db) && Exec(db, MoveMail(mailbox, id, destination)).1.Ok?
    ensures var db', k, l := Exec(db, MoveMail(mailbox, id, destination)).0, MailKey(mailbox, id), MailKey(destination, id);
      if k !in db.mails || k == l then db' == db
      else
        && l !in db.mails && destination in db.mailboxes && db'.mailboxes == db.mailboxes
        && (forall m :: m in db'.mails <==> m == l || (m in db.mails && m != k))
        && (forall m :: m in db'.mails ==> db'.mails[m] == db.mails[if m == l then k else m])
        && (forall q :: q in db.queue ==> Moved(q, k, l) in db'.queue && db'.queue[Moved(q, k, l)] == db.queue[q])
        && (forall p :: p in db'.queue ==> exists q :: q in db.queue && Moved(q, k, l) == p)
  {
    var k, l, c := MailKey(mailbox, id), MailKey(destination, id), Change(mailbox, destination, Some(id));
    if k in db.mails && k != l {
      Integrity.MoveNeverCollides(db, mailbox, id, destination);
      Integrity.CascadeCarries(db.queue, c);
      assert forall q :: NewKey(c, q) == Moved(q, k, l);
    }
  }

  /** Where a row belongs once mail k has become l. */
  function Moved(q: QueueKey, k: MailKey, l: MailKey): QueueKey {
    if MailKey(q.mailbox, q.id) == k then q.(mailbox := l.mailbox) else q
  }

  // ----------------------------------------------------------------------- queue

  /** Rows other than q are as they were, and so are mailboxes and mails. */
  ghost predicate OnlyRow(db: Db, db': Db, q: QueueKey) {
    && db'.mailboxes == db.mailboxes && db'.mails == db.mails
    && forall p :: p != q ==> (p in db'.queue <==> p in db.queue) && (p in db.queue ==> db'.queue[p] == db.queue[p])
  }

  lemma QueueInsertMeans(db: Db, destination: string, id: int, from: string, rcpt: string)
    ensures var q := QueueKey(destination, OUTBOX, id);
      var (db', r) := Exec(db, InsertQueue(destination, id, from, rcpt));
      && (r.Ok? <==> q !in db.queue && MailKey(OUTBOX, id) in db.mails)
      && (r.Ok? ==> OnlyRow(db, db', q) && q in db'.queue && db'.queue[q].from == from && db'.queue[q].rcpt == rcpt)
  {
  }

  lemma QueueDeleteMeans(db: Db, destination: string, id: int)
    ensures var db', q := Exec(db, DeleteQueue(destination, id)).0, QueueKey(destination, OUTBOX, id);
      OnlyRow(db, db', q) && q !in db'.queue
  {
  }
}

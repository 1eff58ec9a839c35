/** Key integrity of the tables over every sequence of statements. */
module Integrity {
  import opened Base
  import opened Tables

  // ---------------------------------------------------- cascades never collide

  /** A move that its own table accepts cannot make two queue rows collide. */
  lemma MoveNeverCollides(db: Db, mailbox: string, id: int, destination: string)
    requires Valid(db) && MailKey(destination, id) !in db.mails
    ensures !Collides(db.queue, Change(mailbox, destination, Some(id)))
  {
  }

  /** Nor can a rename that the mailboxes table accepts, among mails or queue rows. */
  lemma RenameNeverCollides(db: Db, from: string, to: string)
    requires Valid(db) && to !in db.mailboxes
    ensures !MailsCollide(db.mails, from, to) && !Collides(db.queue, Change(from, to, None))
  {
    forall q | q in db.queue
      ensures q.mailbox != to
    {
      assert MailKey(q.mailbox, q.id) in db.mails;
    }
  }

  /** A cascade without collisions carries every queue row over, merging none. */
  lemma CascadeCarries(queue: map<QueueKey, QueueRow>, c: Change)
    requires !Collides(queue, c)
    ensures forall q :: q in queue ==>
      NewKey(c, q) in CascadeQueue(queue, c) && CascadeQueue(queue, c)[NewKey(c, q)] == queue[q]
    ensures forall p, q :: p in queue && q in queue && NewKey(c, p) == NewKey(c, q) ==> p == q
    ensures forall k :: k in CascadeQueue(queue, c) ==> exists q :: q in queue && NewKey(c, q) == k
  {
    var after := CascadeQueue(queue, c);
    forall p, q | p in queue && q in queue && NewKey(c, p) == NewKey(c, q)
      ensures p == q
    {
      if p != q {
      }
    }
    forall q | q in queue
      ensures NewKey(c, q) in after && after[NewKey(c, q)] == queue[q]
    {
      assert NewKey(c, q) in set p | p in queue :: NewKey(c, p);
    }
  }

  /** When a move is refused: exactly when the mail exists elsewhere and the slot or mailbox is wrong. */
  lemma MoveRefused(db: Db, mailbox: string, id: int, destination: string)
    requires Valid(db)
    ensures MailMove(db, mailbox, id, destination).1.Err? <==>
      && MailKey(mailbox, id) in db.mails && mailbox != destination
      && (MailKey(destination, id) in db.mails || destination !in db.mailboxes)
  {
    if MailKey(destination, id) !in db.mails {
      MoveNeverCollides(db, mailbox, id, destination);
    }
  }

  // ------------------------------------------------------- foreign keys hold

  lemma MoveValid(db: Db, mailbox: string, id: int, destination: string)
    requires Valid(db)
    ensures Valid(MailMove(db, mailbox, id, destination).0)
  {
    var db' := MailMove(db, mailbox, id, destination).0;
    var c := Change(mailbox, destination, Some(id));
    if db' != db {
      CascadeCarries(db.queue, c);
      forall q | q in db'.queue
        ensures MailKey(q.mailbox, q.id) in db'.mails
      {
        var p :| p in db.queue && NewKey(c, p) == q;
        assert MailKey(p.mailbox, p.id) in db.mails;
      }
    }
  }

  lemma UpdateValid(db: Db, from: string, to: string)
    requires Valid(db)
    ensures Valid(MailboxUpdate(db, from, to).0)
  {
    var db' := MailboxUpdate(db, from, to).0;
    var c := Change(from, to, None);
    if db' != db {
      CascadeCarries(db.queue, c);
      forall q | q in db'.queue
        ensures MailKey(q.mailbox, q.id) in db'.mails
      {
        var p :| p in db.queue && NewKey(c, p) == q;
        assert MailKey(p.mailbox, p.id) in db.mails;
        assert MailKey(q.mailbox, q.id) in
          set k | k in db.mails :: if k.mailbox == from then MailKey(to, k.id) else k;
      }
    }
  }

  lemma ExpungeValid(db: Db, mailbox: string)
    requires Valid(db)
    ensures Valid(MailExpunge(db, mailbox))
  {
  }

  lemma ExecValid(db: Db, op: Op)
    requires Valid(db)
    ensures Valid(Exec(db, op).0)
  {
    match op
    case RenameMailbox(old_, new_) => UpdateValid(db, new_, old_);
    case MoveMail(mailbox, id, destination) => MoveValid(db, mailbox, id, destination);
    case ExpungeMail(mailbox) => ExpungeValid(db, mailbox);
    case CreateMail(mailbox, _, _) => NextIdPositive(db, mailbox);
    case _ =>
  }

  lemma NextIdPositive(db: Db, mailbox: string)
    requires Valid(db)
    ensures NextAfter(Ids(db, mailbox)) >= 1
  {
  }

  lemma {:induction false} ExecAllValid(db: Db, ops: seq<Op>)
    requires Valid(db)
    ensures Valid(ExecAll(db, ops))
    decreases |ops|
  {
    if ops != [] {
      ExecValid(db, ops[0]);
      ExecAllValid(Exec(db, ops[0]).0, ops[1..]);
    }
  }

  /**
   In every state that statements can reach, each queue row refers to a mail and
   each mail to a mailbox, and no UPDATE that its own table's key accepts is
   refused for what it cascades to.
   */
  lemma KeysAlwaysHold(ops: seq<Op>, from: string, to: string, id: int)
    ensures var db := ExecAll(EMPTY, ops);
      && Valid(db)
      && (MailKey(to, id) !in db.mails ==> !Collides(db.queue, Change(from, to, Some(id))))
      && (to !in db.mailboxes ==>
            !MailsCollide(db.mails, from, to) && !Collides(db.queue, Change(from, to, None)))
  {
    ExecAllValid(EMPTY, ops);
    var db := ExecAll(EMPTY, ops);
    if MailKey(to, id) !in db.mails {
      MoveNeverCollides(db, from, id, to);
    }
    if to !in db.mailboxes {
      RenameNeverCollides(db, from, to);
    }
  }

  // ------------------------------------------------------------------ renaming

  /**
   MailboxRename binds its parameters the wrong way round.  It does what its name
   says exactly when the names are equal or both or neither of them exist.
   */
  lemma RenameSwapped(db: Db, old_: string, new_: string)
    requires Valid(db)
    ensures MailboxRename(db, old_, new_) == MailboxUpdate(db, old_, new_) <==>
      old_ == new_ || (old_ in db.mailboxes <==> new_ in db.mailboxes)
  {
    if old_ in db.mailboxes && new_ !in db.mailboxes {
      RenameNeverCollides(db, old_, new_);
      assert new_ in MailboxUpdate(db, old_, new_).0.mailboxes;
    } else if new_ in db.mailboxes && old_ !in db.mailboxes {
      RenameNeverCollides(db, new_, old_);
      assert old_ in MailboxUpdate(db, new_, old_).0.mailboxes;
    }
  }
}

/**
 The SQLite store: the tables as fields that each statement updates in place.
 Writes are tied to the statement functions of Tables; queries state what they
 read.
 */
module Storage {
  import opened Base
  import opened Tables
  import opened Numbering
  import Integrity

  datatype QueuedMail = QueuedMail(id: int, from: string, rcpt: string)

  const MAX_UINT32 := 0xFFFF_FFFF

  class Store {
    var mailboxes: map<string, bool>
    var mails: map<MailKey, Mail>
    var queue: map<QueueKey, QueueRow>

    function Db(): Db
      reads this
    {
      Tables.Db(mailboxes, mails, queue)
    }

    ghost predicate Valid()
      reads this
    {
      Tables.Valid(Db())
    }

    constructor ()
      ensures Valid() && Db() == EMPTY
    {
      mailboxes, mails, queue := map[], map[], map[];
    }

    // ---------------------------------------------------------------- mailboxes

    method MailboxSelect(name: string) returns (found: bool)
      ensures found <==> name in mailboxes
    {
      found := name in mailboxes;
    }

    method MailboxCreate(name: string)
      requires Valid()
      modifies this
      ensures Valid() && Db() == Tables.MailboxCreate(old(Db()), name)
    {
      if name !in mailboxes {
        mailboxes := mailboxes[name := true];
      }
    }

    method MailboxSubscribe(name: string, subscribed: bool)
      requires Valid()
      modifies this
      ensures Valid() && Db() == Tables.MailboxSubscribe(old(Db()), name, subscribed)
    {
      if name in mailboxes {
        mailboxes := mailboxes[name := subscribed];
      }
    }

    method MailboxDelete(name: string)
      requires Valid()
      modifies this
      ensures Valid() && Db() == Tables.MailboxDelete(old(Db()), name)
    {
      mailboxes := mailboxes - {name};
      mails := map k | k in mails && k.mailbox != name :: mails[k];
      queue := map q | q in queue && q.mailbox != name :: queue[q];
    }

    method MailboxRename(old_: string, new_: string) returns (r: Reply<()>)
      requires Valid()
      modifies this
      ensures Valid() && (Db(), r) == Tables.MailboxRename(old(Db()), old_, new_)
    {
      Integrity.UpdateValid(Db(), new_, old_);
      if new_ !in mailboxes || new_ == old_ {
        return Ok(());
      }
      if old_ in mailboxes {
        return Err(PrimaryKey);
      }
      Integrity.RenameNeverCollides(Db(), new_, old_);
      mailboxes := mailboxes[old_ := mailboxes[new_]] - {new_};
      mails := CascadeMails(mails, new_, old_);
      queue := CascadeQueue(queue, Change(new_, old_, None));
      r := Ok(());
    }

    // -------------------------------------------------------------------- mails

    method MailCreate(mailbox: string, data: Bytes, now: int) returns (r: Reply<int>)
      requires Valid()
      modifies this
      ensures Valid() && (Db(), r) == Tables.MailCreate(old(Db()), mailbox, data, now)
    {
      if mailbox !in mailboxes {
        return Err(ForeignKey);
      }
      Integrity.NextIdPositive(Db(), mailbox);
      var id := NextAfter(Ids(Db(), mailbox));
      mails := mails[MailKey(mailbox, id) := Mail(data, now, NO_FLAGS)];
      r := Ok(id);
    }

    method MailSelect(mailbox: string, id: int) returns (seqNum: int, r: Reply<Mail>)
      ensures r == MailAt(Db(), mailbox, id)
      ensures r.Ok? ==> seqNum == Rank(Ids(Db(), mailbox), id)
    {
      if MailKey(mailbox, id) !in mails {
        return 0, Err(NoRows);
      }
      return Rank(Ids(Db(), mailbox), id), Ok(mails[MailKey(mailbox, id)]);
    }

    /** Ids are scanned into 32 bits; one that does not fit fails the listing. */
    method MailSearch(mailbox: string) returns (r: Reply<seq<int>>)
      ensures r.Ok? ==> r.value == Sorted(Ids(Db(), mailbox))
      ensures r.Err? <==> exists id :: id in Ids(Db(), mailbox) && !(0 <= id <= MAX_UINT32)
    {
      var rows := Sorted(Ids(Db(), mailbox));
      var ids := [];
      for n := 0 to |rows|
        invariant ids == rows[..n]
        invariant forall i :: 0 <= i < n ==> 0 <= rows[i] <= MAX_UINT32
      {
        if !(0 <= rows[n] <= MAX_UINT32) {
          assert rows[n] in rows;
          return Err(Scan);
        }
        ids := ids + [rows[n]];
      }
      assert forall id :: id in rows ==> 0 <= id <= MAX_UINT32;
      return Ok(ids);
    }

    method MailNextID(mailbox: string) returns (id: int)
      ensures id == NextAfter(Ids(Db(), mailbox))
    {
      id := NextAfter(Ids(Db(), mailbox));
    }

    method MailIDForSeq(mailbox: string, n: int) returns (r: Reply<int>)
      ensures var found := IdForSeq(Ids(Db(), mailbox), n);
        r == if found.Some? then Ok(found.value) else Err(NoRows)
    {
      var ids := Ids(Db(), mailbox);
      IndexIsBijection(ids);
      if 1 <= n <= |ids| {
        SearchIsIndex(ids, n);
        return Ok(Sorted(ids)[n - 1]);
      }
      return Err(NoRows);
    }

    method MailCount(mailbox: string) returns (count: int)
      ensures count == |Ids(Db(), mailbox)|
    {
      count := |Ids(Db(), mailbox)|;
    }

    method MailUnseen(mailbox: string) returns (unseen: int)
      ensures unseen == |UnseenIds(Db(), mailbox)|
    {
      unseen := |UnseenIds(Db(), mailbox)|;
    }

    method MailUpdateFlags(mailbox: string, id: int, flags: Flags)
      requires Valid()
      modifies this`mails
      ensures Valid() && Db() == Tables.MailUpdateFlags(old(Db()), mailbox, id, flags)
    {
      var k := MailKey(mailbox, id);
      if k in mails {
        mails := mails[k := mails[k].(flags := flags)];
      }
    }

    method MailDelete(mailbox: string, id: int)
      requires Valid()
      modifies this`mails
      ensures Valid() && Db() == Tables.MailDelete(old(Db()), mailbox, id)
    {
      var k := MailKey(mailbox, id);
      if k in mails {
        mails := mails[k := mails[k].(flags := mails[k].flags.(deleted := true))];
      }
    }

    method MailExpunge(mailbox: string)
      requires Valid()
      modifies this
      ensures Valid() && Db() == Tables.MailExpunge(old(Db()), mailbox)
    {
      var db := Db();
      Integrity.ExpungeValid(db, mailbox);
      mails := map k | k in mails && !Goes(db, mailbox, k) :: mails[k];
      queue := map q | q in queue && !Goes(db, mailbox, MailKey(q.mailbox, q.id)) :: queue[q];
    }

    method MailMove(mailbox: string, id: int, destination: string) returns (r: Reply<()>)
      requires Valid()
      modifies this
      ensures Valid() && (Db(), r) == Tables.MailMove(old(Db()), mailbox, id, destination)
    {
      var k, to := MailKey(mailbox, id), MailKey(destination, id);
      Integrity.MoveValid(Db(), mailbox, id, destination);
      if k !in mails || mailbox == destination {
        return Ok(());
      }
      if to in mails {
        return Err(PrimaryKey);
      }
      if destination !in mailboxes {
        return Err(ForeignKey);
      }
      Integrity.MoveNeverCollides(Db(), mailbox, id, destination);
      mails := (mails - {k})[to := mails[k]];
      queue := CascadeQueue(queue, Change(mailbox, destination, Some(id)));
      r := Ok(());
    }

    // -------------------------------------------------------------------- queue

    /** Each destination with a row, once, in no particular order. */
    method QueueListDestinations() returns (destinations: seq<string>)
      ensures forall a, b :: 0 <= a < b < |destinations| ==> destinations[a] != destinations[b]
      ensures forall d :: d in destinations <==> exists q :: q in queue && q.destination == d
    {
      var rows := set q | q in queue :: q.destination;
      destinations := [];
      while rows != {}
        invariant forall a, b :: 0 <= a < b < |destinations| ==> destinations[a] != destinations[b]
        invariant forall d :: d in rows ==> d !in destinations
        invariant forall d :: d in destinations || d in rows <==> exists q :: q in queue && q.destination == d
        decreases |rows|
      {
        if forall d :: d !in rows {
          assert false;
        }
        var d :| d in rows;
        destinations, rows := destinations + [d], rows - {d};
      }
    }

    /** The rows of one destination, by descending id; `keys` are their primary keys. */
    method QueueMailIDsForDestination(destination: string) returns (refs: seq<QueuedMail>, ghost keys: seq<QueueKey>)
      ensures |keys| == |refs|
      ensures Falling(keys)
      ensures forall q :: q in keys <==> q in queue && q.destination == destination
      ensures forall n :: 0 <= n < |refs| ==>
        keys[n] in queue && refs[n] == QueuedMail(keys[n].id, queue[keys[n]].from, queue[keys[n]].rcpt)
    {
      var rows := set q | q in queue && q.destination == destination;
      refs, keys := [], [];
      while rows != {}
        invariant |keys| == |refs|
        invariant Falling(keys)
        invariant forall q :: q in rows ==> q !in keys && forall p :: p in keys ==> p.id >= q.id
        invariant forall q :: q in keys || q in rows <==> q in queue && q.destination == destination
        invariant forall n :: 0 <= n < |refs| ==>
          keys[n] in queue && refs[n] == QueuedMail(keys[n].id, queue[keys[n]].from, queue[keys[n]].rcpt)
        decreases |rows|
      {
        var q := Highest(rows);
        FallingMore(keys, q);
        refs, keys, rows := refs + [QueuedMail(q.id, queue[q].from, queue[q].rcpt)], keys + [q], rows - {q};
      }
    }

    method QueueInsertDestinationForID(destination: string, id: int, from: string, rcpt: string) returns (r: Reply<()>)
      requires Valid()
      modifies this`queue
      ensures Valid() && (Db(), r) == QueueInsert(old(Db()), destination, id, from, rcpt)
    {
      var q := QueueKey(destination, OUTBOX, id);
      if q in queue {
        return Err(PrimaryKey);
      }
      if MailKey(OUTBOX, id) !in mails {
        return Err(ForeignKey);
      }
      queue := queue[q := QueueRow(from, rcpt)];
      r := Ok(());
    }

    method QueueDeleteDestinationForID(destination: string, id: int)
      requires Valid()
      modifies this`queue
      ensures Valid() && Db() == QueueDelete(old(Db()), destination, id)
    {
      queue := queue - {QueueKey(destination, OUTBOX, id)};
    }

    method QueueSelectIsMessagePendingSend(mailbox: string, id: int) returns (pending: bool)
      ensures pending <==> exists q :: q in queue && q.mailbox == mailbox && q.id == id
    {
      var rows := set q | q in queue && q.mailbox == mailbox && q.id == id;
      var count := |rows|;
      assert forall q :: q in rows <==> q in queue && q.mailbox == mailbox && q.id == id;
      if forall q :: q !in rows {
        assert rows == {};
      } else {
        var q :| q in rows;
        assert rows == {q} + (rows - {q});
      }
      pending := count > 0;
    }
  }

  /** Different keys, by descending id. */
  predicate Falling(keys: seq<QueueKey>) {
    forall a, b :: 0 <= a < b < |keys| ==> keys[a] != keys[b] && keys[a].id >= keys[b].id
  }

  lemma FallingMore(keys: seq<QueueKey>, q: QueueKey)
    requires Falling(keys) && q !in keys && forall p :: p in keys ==> p.id >= q.id
    ensures Falling(keys + [q])
    ensures forall p :: p in keys + [q] <==> p in keys || p == q
  {
    forall b | 0 <= b < |keys|
      ensures keys[b] != q && keys[b].id >= q.id
    {
      assert keys[b] in keys;
    }
  }

  /** A row with the highest id. */
  method Highest(rows: set<QueueKey>) returns (q: QueueKey)
    requires rows != {}
    ensures q in rows && forall p :: p in rows ==> p.id <= q.id
  {
    if forall p :: p !in rows {
      assert false;
    }
    q :| q in rows;
    var todo := rows - {q};
    while todo != {}
      invariant todo <= rows && q in rows
      invariant forall p :: p in rows ==> p in todo || p.id <= q.id
      decreases |todo|
    {
      if forall p :: p !in todo {
        assert false;
      }
      var p :| p in todo;
      if p.id > q.id {
        q := p;
      }
      todo := todo - {p};
    }
  }
}

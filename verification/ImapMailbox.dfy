/** The IMAP view of one mailbox: its batch operations over a sequence set. */
module ImapMailbox {
  import opened Base
  import opened Tables
  import opened Numbering
  import opened SeqSets
  import opened Storage

  /** One FETCH response: number, UID and the mail itself. */
  datatype Message = Message(seqNum: u32, uid: u32, body: Bytes, flags: Flags)

  datatype FlagsOp = SetFlags | AddFlags | RemoveFlags

  // ---------------------------------------------------------- specifications

  /** What listing the given ids emits: mails that are not there are skipped. */
  function Emitted(db: Db, name: string, ids: seq<int>): seq<Message> {
    if ids == [] then []
    else
      var before := Emitted(db, name, ids[..|ids| - 1]);
      var k := MailKey(name, ids[|ids| - 1]);
      if k in db.mails then
        before + [Message(ToU32(Rank(Ids(db, name), k.id)), ToU32(k.id), db.mails[k].body, db.mails[k].flags)]
      else before
  }

  /** The recognised flags among `names` switched on or off. */
  function Switched(f: Flags, names: seq<string>, on: bool): Flags {
    Flags(if "\\Seen" in names then on else f.seen,
          if "\\Answered" in names then on else f.answered,
          if "\\Flagged" in names then on else f.flagged,
          if "\\Deleted" in names then on else f.deleted)
  }

  /** The mails of `name` with an id in `ids` have had their flags switched; nothing else differs. */
  function FlagAll(db: Db, name: string, ids: seq<int>, names: seq<string>, on: bool): Db {
    db.(mails := map k | k in db.mails ::
      if k.mailbox == name && k.id in ids then db.mails[k].(flags := Switched(db.mails[k].flags, names, on))
      else db.mails[k])
  }

  ghost predicate AllExist(db: Db, name: string, ids: seq<int>) {
    forall id :: id in ids ==> MailKey(name, id) in db.mails
  }

  /** Select a mail, append its body to `dest`, and set its flags under the new id, but in `name`. */
  function CopyOne(db: Db, name: string, dest: string, id: int, now: int): (Db, Reply<()>) {
    var mail := MailAt(db, name, id);
    if mail.Err? then (db, Err(mail.error))
    else
      var (after, pid) := MailCreate(db, dest, mail.value.body, now);
      if pid.Err? then (db, Err(pid.error))
      else (MailUpdateFlags(after, name, pid.value, mail.value.flags), Ok(()))
  }

  function CopyAll(db: Db, name: string, dest: string, ids: seq<int>, now: int): (Db, Reply<()>) {
    if ids == [] then (db, Ok(()))
    else
      var (before, r) := CopyAll(db, name, dest, ids[..|ids| - 1], now);
      if r.Err? then (before, r) else CopyOne(before, name, dest, ids[|ids| - 1], now)
  }

  /** Move a mail; out of the Outbox, also delete the row of a destination called "Outbox". */
  function MoveOne(db: Db, name: string, dest: string, id: int): (Db, Reply<()>) {
    var (after, r) := MailMove(db, name, id, dest);
    if r.Ok? && name == OUTBOX then (QueueDelete(after, OUTBOX, id), r) else (after, r)
  }

  function MoveAll(db: Db, name: string, dest: string, ids: seq<int>): (Db, Reply<()>) {
    if ids == [] then (db, Ok(()))
    else
      var (before, r) := MoveAll(db, name, dest, ids[..|ids| - 1]);
      if r.Err? then (before, r) else MoveOne(before, name, dest, ids[|ids| - 1])
  }

  class Mailbox {
    const store: Store
    const name: string

    constructor (store: Store, name: string)
      ensures this.store == store && this.name == name
    {
      this.store, this.name := store, name;
    }

    /** The reply `Endless` is where the source does not return. */
    method GetIDsFromSeqSet(uid: bool, ranges: seq<Range>) returns (r: Reply<seq<int>>)
      ensures r == Resolve(Ids(store.Db(), name), uid, ranges)
    {
      var ids := [];
      ghost var have := Ids(store.Db(), name);
      ghost var goal := Resolve(have, uid, ranges);
      assert ranges[0..] == ranges;
      OnwardFromNothing(goal);
      for s := 0 to |ranges|
        invariant goal == Onward(Ok(ids), Resolve(have, uid, ranges[s..]))
      {
        var set_ := ranges[s];
        RangesLeft(have, uid, ranges, s);
        if set_.stop == 0 {
          var next := store.MailNextID(name);
          set_ := set_.(stop := ToU32(next - 1));
        }
        r := AppendRange(uid, set_, ids);
        OnwardAssoc(Ok(ids), ResolveFrom(have, uid, set_.start, set_.stop), Resolve(have, uid, ranges[s + 1..]));
        if r.Err? {
          return;
        }
        ids := r.value;
      }
      assert ranges[|ranges|..] == [] && ids + [] == ids;
      return Ok(ids);
    }

    /** The inner loop: one range, its open end already bounded. */
    method AppendRange(uid: bool, set_: Range, ids0: seq<int>) returns (r: Reply<seq<int>>)
      ensures r == Onward(Ok(ids0), ResolveFrom(Ids(store.Db(), name), uid, set_.start, set_.stop))
    {
      var ids := ids0;
      ghost var have := Ids(store.Db(), name);
      ghost var goal := Onward(Ok(ids0), ResolveFrom(have, uid, set_.start, set_.stop));
      var i: u32 := set_.start;
      while i <= set_.stop
        invariant goal == Onward(Ok(ids), ResolveFrom(have, uid, i, set_.stop))
        decreases set_.stop - i
      {
        var id: int := i;
        if !uid {
          var pid := store.MailIDForSeq(name, i);
          if pid.Err? {
            return Err(NoRows);
          }
          id := pid.value;
        }
        if i == LAST {
          // The counter wraps to 0: by sequence it has no row, by UID the loop never ends.
          return Err(PastLast(uid));
        }
        RangeGoesOn(have, uid, i, set_.stop, ids);
        ids := ids + [ToI32(id)];
        i := i + 1;
      }
      assert ids + [] == ids;
      return Ok(ids);
    }

    /** The messages sent down the channel, in order. */
    method ListMessages(uid: bool, ranges: seq<Range>) returns (out: seq<Message>, r: Reply<()>)
      ensures var ids := Resolve(Ids(store.Db(), name), uid, ranges);
        if ids.Ok? then r == Ok(()) && out == Emitted(store.Db(), name, ids.value)
        else r == Err(ids.error) && out == []
    {
      out := [];
      var ids := GetIDsFromSeqSet(uid, ranges);
      if ids.Err? {
        return [], Err(ids.error);
      }
      for n := 0 to |ids.value|
        invariant out == Emitted(store.Db(), name, ids.value[..n])
      {
        assert ids.value[..n + 1][..n] == ids.value[..n];
        var mseq, mail := store.MailSelect(name, ids.value[n]);
        if mail.Ok? {
          out := out + [Message(ToU32(mseq), ToU32(ids.value[n]), mail.value.body, mail.value.flags)];
        }
      }
      assert ids.value[..|ids.value|] == ids.value;
      r := Ok(());
    }

    /** SetFlags leaves the mail unread and then uses it: it crashes on any mail. */
    method UpdateMessagesFlags(uid: bool, ranges: seq<Range>, op: FlagsOp, flags: seq<string>) returns (r: Reply<()>)
      requires store.Valid()
      modifies store
      ensures store.Valid()
      ensures var db := old(store.Db());
        var ids := Resolve(Ids(db, name), uid, ranges);
        if ids.Err? then store.Db() == db && r == Err(ids.error)
        else if op.SetFlags? then store.Db() == db && r == if ids.value == [] then Ok(()) else Err(Crash)
        else
          && (r.Ok? <==> AllExist(db, name, ids.value))
          && (r.Ok? ==> store.Db() == FlagAll(db, name, ids.value, flags, op.AddFlags?))
          && (r.Err? ==> exists n ::
                && FirstMissing(db, name, ids.value, n)
                && store.Db() == FlagAll(db, name, ids.value[..n], flags, op.AddFlags?))
    {
      var ids := GetIDsFromSeqSet(uid, ranges);
      if ids.Err? {
        return Err(ids.error);
      }
      FlagNone(store.Db(), name, flags, op.AddFlags?);
      for n := 0 to |ids.value|
        invariant store.Valid()
        invariant n > 0 ==> !op.SetFlags?
        invariant AllExist(old(store.Db()), name, ids.value[..n])
        invariant store.Db() == FlagAll(old(store.Db()), name, ids.value[..n], flags, op.AddFlags?)
      {
        if op.SetFlags? {
          return Err(Crash);
        }
        var id := ids.value[n];
        var _, mail := store.MailSelect(name, id);
        if mail.Err? {
          assert FirstMissing(old(store.Db()), name, ids.value, n);
          return Err(NoRows);
        }
        var now_ := SwitchFlags(mail.value.flags, flags, op);
        store.MailUpdateFlags(name, id, now_);
        FlagOneMore(old(store.Db()), name, ids.value, n, flags, op.AddFlags?);
      }
      assert ids.value[..|ids.value|] == ids.value;
      r := Ok(());
    }

    method SwitchFlags(f: Flags, flags: seq<string>, op: FlagsOp) returns (mail: Flags)
      requires !op.SetFlags?
      ensures mail == Switched(f, flags, op.AddFlags?)
    {
      mail := f;
      for j := 0 to |flags|
        invariant mail == Switched(f, flags[..j], op.AddFlags?)
      {
        assert flags[..j + 1] == flags[..j] + [flags[j]];
        match flags[j] {
          case "\\Seen" => mail := mail.(seen := !op.RemoveFlags?);
          case "\\Answered" => mail := mail.(answered := !op.RemoveFlags?);
          case "\\Flagged" => mail := mail.(flagged := !op.RemoveFlags?);
          case "\\Deleted" => mail := mail.(deleted := !op.RemoveFlags?);
          case _ =>
        }
      }
      assert flags[..|flags|] == flags;
    }

    method CopyMessages(uid: bool, ranges: seq<Range>, dest: string, now: int) returns (r: Reply<()>)
      requires store.Valid()
      modifies store
      ensures store.Valid()
      ensures var db := old(store.Db());
        var ids := Resolve(Ids(db, name), uid, ranges);
        if dest == OUTBOX then store.Db() == db && r == Err(Refused)
        else if ids.Err? then store.Db() == db && r == Err(ids.error)
        else (store.Db(), r) == CopyAll(db, name, dest, ids.value, now)
    {
      if dest == OUTBOX {
        return Err(Refused);
      }
      var ids := GetIDsFromSeqSet(uid, ranges);
      if ids.Err? {
        return Err(ids.error);
      }
      ghost var db := store.Db();
      for n := 0 to |ids.value|
        invariant store.Valid()
        invariant (store.Db(), Ok(())) == CopyAll(db, name, dest, ids.value[..n], now)
      {
        CopyAllSnoc(db, name, dest, ids.value, n, now);
        var _, mail := store.MailSelect(name, ids.value[n]);
        if mail.Err? {
          return Err(mail.error);
        }
        var pid := store.MailCreate(dest, mail.value.body, now);
        if pid.Err? {
          return Err(pid.error);
        }
        store.MailUpdateFlags(name, pid.value, mail.value.flags);
      }
      assert ids.value[..|ids.value|] == ids.value;
      r := Ok(());
    }

    method MoveMessages(uid: bool, ranges: seq<Range>, dest: string) returns (r: Reply<()>)
      requires store.Valid()
      modifies store
      ensures store.Valid()
      ensures var db := old(store.Db());
        var ids := Resolve(Ids(db, name), uid, ranges);
        if dest == OUTBOX then store.Db() == db && r == Err(Refused)
        else if ids.Err? then store.Db() == db && r == Err(ids.error)
        else (store.Db(), r) == MoveAll(db, name, dest, ids.value)
    {
      if dest == OUTBOX {
        return Err(Refused);
      }
      var ids := GetIDsFromSeqSet(uid, ranges);
      if ids.Err? {
        return Err(ids.error);
      }
      r := MoveEach(ids.value, dest);
    }

    /** The loop of MoveMessages, over the ids resolved before it. */
    method MoveEach(ids: seq<int>, dest: string) returns (r: Reply<()>)
      requires store.Valid()
      modifies store
      ensures store.Valid() && (store.Db(), r) == MoveAll(old(store.Db()), name, dest, ids)
    {
      ghost var db := store.Db();
      for n := 0 to |ids|
        invariant store.Valid()
        invariant (store.Db(), Ok(())) == MoveAll(db, name, dest, ids[..n])
      {
        MoveAllSnoc(db, name, dest, ids, n);
        r := MoveMail(ids[n], dest);
        if r.Err? {
          return;
        }
      }
      assert ids[..|ids|] == ids;
      r := Ok(());
    }

    /** The loop body of MoveMessages. */
    method MoveMail(id: int, dest: string) returns (r: Reply<()>)
      requires store.Valid()
      modifies store
      ensures store.Valid() && (store.Db(), r) == MoveOne(old(store.Db()), name, dest, id)
    {
      r := store.MailMove(name, id, dest);
      if r.Ok? && name == OUTBOX {
        store.QueueDeleteDestinationForID(OUTBOX, id);
      }
    }

    method Expunge()
      requires store.Valid()
      modifies store
      ensures store.Valid() && store.Db() == MailExpunge(old(store.Db()), name)
    {
      store.MailExpunge(name);
    }
  }

  ghost predicate FirstMissing(db: Db, name: string, ids: seq<int>, n: int) {
    0 <= n < |ids| && AllExist(db, name, ids[..n]) && MailKey(name, ids[n]) !in db.mails
  }

  lemma FlagNone(db: Db, name: string, names: seq<string>, on: bool)
    ensures FlagAll(db, name, [], names, on) == db
  {
  }

  lemma FlagOneMore(db: Db, name: string, ids: seq<int>, n: nat, names: seq<string>, on: bool)
    requires n < |ids| && MailKey(name, ids[n]) in db.mails
    ensures var before := FlagAll(db, name, ids[..n], names, on);
      var k := MailKey(name, ids[n]);
      MailUpdateFlags(before, name, ids[n], Switched(before.mails[k].flags, names, on)) ==
        FlagAll(db, name, ids[..n + 1], names, on)
  {
    assert ids[..n + 1] == ids[..n] + [ids[n]];
  }

  lemma CopyAllSnoc(db: Db, name: string, dest: string, ids: seq<int>, n: nat, now: int)
    requires n < |ids|
    ensures CopyAll(db, name, dest, ids[..n], now).1.Ok? ==>
      CopyAll(db, name, dest, ids[..n + 1], now) ==
        CopyOne(CopyAll(db, name, dest, ids[..n], now).0, name, dest, ids[n], now)
    ensures CopyAll(db, name, dest, ids[..n], now).1.Ok? ==>
      var next := CopyOne(CopyAll(db, name, dest, ids[..n], now).0, name, dest, ids[n], now);
      next.1.Err? ==> CopyAll(db, name, dest, ids, now) == next
  {
    assert ids[..n + 1][..n] == ids[..n];
    if CopyAll(db, name, dest, ids[..n + 1], now).1.Err? {
      CopyAllStops(db, name, dest, ids, n + 1, now);
    }
  }

  /** An error part of the way is where copying ends. */
  lemma {:induction false} CopyAllStops(db: Db, name: string, dest: string, ids: seq<int>, n: nat, now: int)
    requires n <= |ids| && CopyAll(db, name, dest, ids[..n], now).1.Err?
    ensures CopyAll(db, name, dest, ids, now) == CopyAll(db, name, dest, ids[..n], now)
    decreases |ids|
  {
    if n == |ids| {
      assert ids[..n] == ids;
    } else {
      assert ids[..|ids| - 1][..n] == ids[..n];
      CopyAllStops(db, name, dest, ids[..|ids| - 1], n, now);
    }
  }

  lemma MoveAllSnoc(db: Db, name: string, dest: string, ids: seq<int>, n: nat)
    requires n < |ids|
    ensures MoveAll(db, name, dest, ids[..n]).1.Ok? ==>
      MoveAll(db, name, dest, ids[..n + 1]) == MoveOne(MoveAll(db, name, dest, ids[..n]).0, name, dest, ids[n])
    ensures MoveAll(db, name, dest, ids[..n]).1.Ok? ==>
      var next := MoveOne(MoveAll(db, name, dest, ids[..n]).0, name, dest, ids[n]);
      next.1.Err? ==> MoveAll(db, name, dest, ids) == next
  {
    assert ids[..n + 1][..n] == ids[..n];
    if MoveAll(db, name, dest, ids[..n + 1]).1.Err? {
      MoveAllStops(db, name, dest, ids, n + 1);
    }
  }

  lemma {:induction false} MoveAllStops(db: Db, name: string, dest: string, ids: seq<int>, n: nat)
    requires n <= |ids| && MoveAll(db, name, dest, ids[..n]).1.Err?
    ensures MoveAll(db, name, dest, ids) == MoveAll(db, name, dest, ids[..n])
    decreases |ids|
  {
    if n == |ids| {
      assert ids[..n] == ids;
    } else {
      assert ids[..|ids| - 1][..n] == ids[..n];
      MoveAllStops(db, name, dest, ids[..|ids| - 1], n);
    }
  }

  lemma OnwardFromNothing(r: Reply<seq<int>>)
    ensures Onward(Ok([]), r) == r
  {
    if r.Ok? {
      assert [] + r.value == r.value;
    }
  }

  lemma RangesLeft(have: set<int>, uid: bool, ranges: seq<Range>, s: nat)
    requires s < |ranges|
    ensures Resolve(have, uid, ranges[s..]) ==
      Onward(ResolveFrom(have, uid, ranges[s].start, StopOf(have, ranges[s])), Resolve(have, uid, ranges[s + 1..]))
  {
    assert ranges[s..][1..] == ranges[s + 1..];
  }

  lemma RangeGoesOn(have: set<int>, uid: bool, n: u32, stop: u32, ids: seq<int>)
    requires n <= stop && Found(have, uid, n)
    ensures Onward(Ok(ids), ResolveFrom(have, uid, n, stop)) ==
      Onward(Ok(ids + [ToI32(IdFor(have, uid, n).value)]), ResolveFrom(have, uid, n + 1, stop))
  {
    var later := ResolveFrom(have, uid, n + 1, stop);
    if later.Ok? {
      var id := ToI32(IdFor(have, uid, n).value);
      assert ids + ([id] + later.value) == (ids + [id]) + later.value;
    }
  }

  lemma OnwardAssoc(a: Reply<seq<int>>, b: Reply<seq<int>>, c: Reply<seq<int>>)
    ensures Onward(a, Onward(b, c)) == Onward(Onward(a, b), c)
  {
    if a.Ok? && b.Ok? && c.Ok? {
      assert a.value + (b.value + c.value) == (a.value + b.value) + c.value;
    }
  }

  /** Carrying on after part of the loops: an error ends them. */
  function Onward(first: Reply<seq<int>>, rest: Reply<seq<int>>): Reply<seq<int>> {
    if first.Err? then first else if rest.Err? then rest else Ok(first.value + rest.value)
  }
}

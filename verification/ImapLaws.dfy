/** What the batch operations promise an IMAP client, over every sequence set. */
module ImapLaws {
  import opened Base
  import opened Tables
  import opened Numbering
  import opened SeqSets
  import opened ImapMailbox
  import Integrity

  /** Ids small enough to survive the truncation to 32 signed bits. */
  ghost predicate SmallIds(ids: set<int>) {
    forall i :: i in ids ==> 1 <= i < 0x8000_0000
  }

  /** Every range is closed and lies within 1..count. */
  ghost predicate InRange(ids: set<int>, ranges: seq<Range>) {
    forall a :: a in ranges ==> a.start >= 1 && a.stop != 0 && a.stop <= |ids|
  }

  // ------------------------------------------------------------------- fetch

  lemma {:induction false} InRangeNumbers(ids: set<int>, ranges: seq<Range>)
    requires InRange(ids, ranges)
    ensures forall n :: n in Denoted(ids, ranges) ==> 1 <= n <= |ids|
  {
    if ranges != [] {
      assert forall a :: a in ranges[1..] ==> a in ranges;
      InRangeNumbers(ids, ranges[1..]);
      assert ranges[0] in ranges;
    }
  }

  lemma FewSmallIds(ids: set<int>)
    requires SmallIds(ids)
    ensures |ids| < 0x8000_0000
  {
    DenseIffMaxIsCount(ids);
  }

  lemma InRangeFound(ids: set<int>, ranges: seq<Range>)
    requires SmallIds(ids) && InRange(ids, ranges)
    ensures AllFound(ids, false, Denoted(ids, ranges))
  {
    InRangeNumbers(ids, ranges);
    FewSmallIds(ids);
    forall n | n in Denoted(ids, ranges)
      ensures Found(ids, false, n)
    {
      NumberHasRow(ids, n);
    }
  }

  /** In-range sets resolve, number by number, to the ids the index gives. */
  lemma InRangeResolves(ids: set<int>, ranges: seq<Range>)
    requires SmallIds(ids) && InRange(ids, ranges)
    ensures Resolve(ids, false, ranges).Ok?
    ensures |Resolve(ids, false, ranges).value| == |Denoted(ids, ranges)|
    ensures forall j :: 0 <= j < |Denoted(ids, ranges)| ==>
      IdForSeq(ids, Denoted(ids, ranges)[j]) == Some(Resolve(ids, false, ranges).value[j])
  {
    InRangeFound(ids, ranges);
    ResolveMeans(ids, false, ranges);
    var ns := Denoted(ids, ranges);
    forall j | 0 <= j < |ns|
      ensures IdForSeq(ids, ns[j]) == Some(Mapped(ids, false, ns)[j])
    {
      assert ns[j] in ns && Found(ids, false, ns[j]);
      SmallUnchanged(ids, IdForSeq(ids, ns[j]).value);
    }
  }

  lemma SmallUnchanged(ids: set<int>, id: int)
    requires SmallIds(ids) && id in ids
    ensures ToI32(id) == id && ToU32(id) == id
  {
  }

  /** The message for the mail under an id. */
  predicate Shows(m: Message, db: Db, name: string, id: int) {
    var k := MailKey(name, id);
    && k in db.mails
    && m.seqNum == ToU32(Rank(Ids(db, name), id)) && m.uid == ToU32(id)
    && m.body == db.mails[k].body && m.flags == db.mails[k].flags
  }

  /** The messages are, in order, of the ids at these positions, which are those of mails that exist. */
  ghost predicate ListsThose(db: Db, name: string, ids: seq<int>, out: seq<Message>, pos: seq<nat>) {
    && |pos| == |out|
    && (forall i, j :: 0 <= i < j < |pos| ==> pos[i] < pos[j])
    && (forall n: nat :: n in pos <==> n < |ids| && MailKey(name, ids[n]) in db.mails)
    && (forall j :: 0 <= j < |pos| ==> pos[j] < |ids| && Shows(out[j], db, name, ids[pos[j]]))
  }

  /** Listing any ids, whatever is missing among them, shows exactly the mails that exist, in the order asked. */
  lemma {:induction false} ListingShowsAll(db: Db, name: string, ids: seq<int>) returns (pos: seq<nat>)
    ensures ListsThose(db, name, ids, Emitted(db, name, ids), pos)
  {
    pos := [];
    if ids != [] {
      var before, id := ids[..|ids| - 1], ids[|ids| - 1];
      assert ids == before + [id];
      var out := Emitted(db, name, before);
      pos := ListingShowsAll(db, name, before);
      if MailKey(name, id) in db.mails {
        var m := Emitted(db, name, ids)[|out|];
        OneMoreListed(db, name, before, id, out, pos, m);
        pos := pos + [|before|];
      } else {
        OneMoreMissing(db, name, before, id, out, pos);
      }
    }
  }

  lemma OneMoreMissing(db: Db, name: string, ids: seq<int>, id: int, out: seq<Message>, pos: seq<nat>)
    requires ListsThose(db, name, ids, out, pos)
    requires MailKey(name, id) !in db.mails
    ensures ListsThose(db, name, ids + [id], out, pos)
  {
    var more := ids + [id];
    assert more[|ids|] == id;
    assert forall n :: 0 <= n < |ids| ==> more[n] == ids[n];
  }

  lemma OneMoreListed(db: Db, name: string, ids: seq<int>, id: int, out: seq<Message>, pos: seq<nat>, m: Message)
    requires ListsThose(db, name, ids, out, pos)
    requires Shows(m, db, name, id)
    ensures ListsThose(db, name, ids + [id], out + [m], pos + [|ids|])
  {
    var more, now := ids + [id], pos + [|ids|];
    assert more[|ids|] == id;
    assert forall n :: 0 <= n < |ids| ==> more[n] == ids[n];
    forall n: nat
      ensures n in now <==> n in pos || n == |ids|
    {
    }
    assert forall n: nat :: n in now <==> n < |more| && MailKey(name, more[n]) in db.mails;
  }

  /**
   UID FETCH of any set below 2^31 shows every mail of the mailbox that the set denotes,
   with its own UID, number, body and flags, whatever other UIDs are missing, and nothing
   but such mails.
   */
  lemma UidFetchShowsAll(db: Db, name: string, ranges: seq<Range>)
    requires SmallIds(Ids(db, name))
    requires forall n :: n in Denoted(Ids(db, name), ranges) ==> n < 0x8000_0000
    ensures var ids, ns := Ids(db, name), Denoted(Ids(db, name), ranges);
      && Resolve(ids, true, ranges) == Ok(ns)
      && var out := Emitted(db, name, ns);
      && (forall id :: id in ids && id in ns ==> exists m :: m in out && m.uid == id && Shows(m, db, name, id))
      && (forall m :: m in out ==> m.uid in ids && m.uid in ns && Shows(m, db, name, m.uid))
  {
    var ids, ns := Ids(db, name), Denoted(Ids(db, name), ranges);
    DenotedFromZero(ids, ranges);
    ResolveMeans(ids, true, ranges);
    MappedUids(ids, ns);
    var pos := ListingShowsAll(db, name, ns);
    ListedAreShown(db, name, ns, Emitted(db, name, ns), pos);
  }

  lemma {:induction false} DenotedFromZero(ids: set<int>, ranges: seq<Range>)
    ensures forall n :: n in Denoted(ids, ranges) ==> n >= 0
  {
    if ranges != [] {
      DenotedFromZero(ids, ranges[1..]);
    }
  }

  lemma ListedAreShown(db: Db, name: string, ns: seq<int>, out: seq<Message>, pos: seq<nat>)
    requires ListsThose(db, name, ns, out, pos) && SmallIds(Ids(db, name))
    ensures forall id :: id in Ids(db, name) && id in ns ==> exists m :: m in out && m.uid == id && Shows(m, db, name, id)
    ensures forall m :: m in out ==> m.uid in Ids(db, name) && m.uid in ns && Shows(m, db, name, m.uid)
  {
    forall id | id in Ids(db, name) && id in ns
      ensures exists m :: m in out && m.uid == id && Shows(m, db, name, id)
    {
      var m := ItIsShown(db, name, ns, out, pos, id);
    }
    forall m | m in out
      ensures m.uid in Ids(db, name) && m.uid in ns && Shows(m, db, name, m.uid)
    {
      var j :| 0 <= j < |out| && out[j] == m;
      ShownUnderUid(db, name, m, ns[pos[j]]);
    }
  }

  lemma ItIsShown(db: Db, name: string, ns: seq<int>, out: seq<Message>, pos: seq<nat>, id: int) returns (m: Message)
    requires ListsThose(db, name, ns, out, pos) && SmallIds(Ids(db, name))
    requires id in Ids(db, name) && id in ns
    ensures m in out && m.uid == id && Shows(m, db, name, id)
  {
    var n: nat :| n < |ns| && ns[n] == id;
    assert MailKey(name, ns[n]) in db.mails;
    assert n in pos;
    var j :| 0 <= j < |pos| && pos[j] == n;
    m := out[j];
    ShownUnderUid(db, name, m, id);
  }

  lemma ShownUnderUid(db: Db, name: string, m: Message, id: int)
    requires Shows(m, db, name, id) && SmallIds(Ids(db, name))
    ensures m.uid == id && id in Ids(db, name)
  {
    SmallUnchanged(Ids(db, name), id);
  }

  lemma {:induction false} EmittedEach(db: Db, name: string, ids: seq<int>)
    requires AllExist(db, name, ids)
    ensures var out := Emitted(db, name, ids);
      && |out| == |ids|
      && forall j :: 0 <= j < |ids| ==> out[j] == Message(ToU32(Rank(Ids(db, name), ids[j])), ToU32(ids[j]),
           db.mails[MailKey(name, ids[j])].body, db.mails[MailKey(name, ids[j])].flags)
  {
    if ids != [] {
      EmittedEach(db, name, ids[..|ids| - 1]);
    }
  }

  /**
   Fetching an in-range set by sequence number emits one message per requested
   number, in request order; its SeqNum is that number and its UID the id the
   index gives the number.
   */
  lemma FetchRoundTrips(db: Db, name: string, ranges: seq<Range>)
    requires SmallIds(Ids(db, name)) && InRange(Ids(db, name), ranges)
    ensures var ids, ns := Ids(db, name), Denoted(Ids(db, name), ranges);
      && Resolve(ids, false, ranges).Ok?
      && var out := Emitted(db, name, Resolve(ids, false, ranges).value);
      && |out| == |ns|
      && (forall j :: 0 <= j < |ns| ==> out[j].seqNum == ns[j] && IdForSeq(ids, ns[j]) == Some(out[j].uid))
      && (forall j :: 0 <= j < |ns| ==> out[j].body == db.mails[MailKey(name, out[j].uid)].body)
  {
    var ids, ns := Ids(db, name), Denoted(Ids(db, name), ranges);
    InRangeResolves(ids, ranges);
    var v := Resolve(ids, false, ranges).value;
    AllResolvedExist(db, name, v, ns);
    EmittedEach(db, name, v);
    forall j | 0 <= j < |ns|
      ensures ToU32(Rank(ids, v[j])) == ns[j] && ToU32(v[j]) == v[j]
    {
      NumbersAgree(ids, ns[j], v[j]);
    }
  }

  lemma NumbersAgree(ids: set<int>, n: int, id: int)
    requires SmallIds(ids) && IdForSeq(ids, n) == Some(id)
    ensures ToU32(Rank(ids, id)) == n && ToU32(id) == id
  {
    RankBounds(ids, id);
    FewSmallIds(ids);
    SmallUnchanged(ids, id);
  }

  lemma AllResolvedExist(db: Db, name: string, v: seq<int>, ns: seq<int>)
    requires |v| == |ns| && forall j :: 0 <= j < |v| ==> IdForSeq(Ids(db, name), ns[j]) == Some(v[j])
    ensures AllExist(db, name, v)
  {
    forall id | id in v
      ensures id in Ids(db, name)
    {
      var j :| 0 <= j < |v| && v[j] == id;
      assert IdForSeq(Ids(db, name), ns[j]) == Some(id);
    }
  }

  // ------------------------------------------------------------------- flags

  const RECOGNISED := {"\\Seen", "\\Answered", "\\Flagged", "\\Deleted"}

  /** The flags as a client sees them, by name. */
  function FlagSet(f: Flags): set<string> {
    (if f.seen then {"\\Seen"} else {}) + (if f.answered then {"\\Answered"} else {})
    + (if f.flagged then {"\\Flagged"} else {}) + (if f.deleted then {"\\Deleted"} else {})
  }

  /** Adding flags is union with the recognised ones, removing them difference. */
  lemma FlagAlgebra(f: Flags, names: seq<string>, name: string)
    ensures name in FlagSet(Switched(f, names, true)) <==> name in FlagSet(f) || (name in names && name in RECOGNISED)
    ensures name in FlagSet(Switched(f, names, false)) <==> name in FlagSet(f) && name !in names
  {
  }

  /** The names FETCH gives to stored flags. */
  lemma FlagNames(f: Flags)
    ensures "\\Seen" in FlagSet(f) <==> f.seen
    ensures "\\Answered" in FlagSet(f) <==> f.answered
    ensures "\\Flagged" in FlagSet(f) <==> f.flagged
    ensures "\\Deleted" in FlagSet(f) <==> f.deleted
    ensures FlagSet(f) <= RECOGNISED
  {
  }

  /** Flags know their set: no two flag records have the same one. */
  lemma FlagSetInjective(f: Flags, g: Flags)
    requires FlagSet(f) == FlagSet(g)
    ensures f == g
  {
    FlagNames(f);
    FlagNames(g);
  }

  /** The recognised flags among `names`. */
  function Recognised(names: seq<string>): set<string> {
    set n | n in names && n in RECOGNISED
  }

  /**
   What an add or remove does to the mailbox: each selected mail gets the one flag
   record whose set is its old set with the recognised flags added or removed, and
   keeps the rest; every other mail is as it was.
   */
  lemma FlagAllIsAlgebra(db: Db, name: string, ids: seq<int>, names: seq<string>, on: bool)
    ensures var db' := FlagAll(db, name, ids, names, on);
      && db'.mailboxes == db.mailboxes && db'.queue == db.queue && db'.mails.Keys == db.mails.Keys
      && (forall k :: k in db.mails && !(k.mailbox == name && k.id in ids) ==> db'.mails[k] == db.mails[k])
      && (forall k, f :: k in db.mails && k.mailbox == name && k.id in ids ==>
            (db'.mails[k] == db.mails[k].(flags := f) <==>
              FlagSet(f) == if on then FlagSet(db.mails[k].flags) + Recognised(names)
                            else FlagSet(db.mails[k].flags) - Recognised(names)))
  {
    forall k, f | k in db.mails && k.mailbox == name && k.id in ids
      ensures FlagAll(db, name, ids, names, on).mails[k] == db.mails[k].(flags := f) <==>
        FlagSet(f) == if on then FlagSet(db.mails[k].flags) + Recognised(names)
                      else FlagSet(db.mails[k].flags) - Recognised(names)
    {
      SwitchedSet(db.mails[k].flags, names, on);
      if FlagSet(f) == FlagSet(Switched(db.mails[k].flags, names, on)) {
        FlagSetInjective(f, Switched(db.mails[k].flags, names, on));
      }
    }
  }

  lemma SwitchedSet(f: Flags, names: seq<string>, on: bool)
    ensures FlagSet(Switched(f, names, on)) == if on then FlagSet(f) + Recognised(names) else FlagSet(f) - Recognised(names)
  {
    forall n
      ensures n in FlagSet(Switched(f, names, on)) <==>
        if on then n in FlagSet(f) + Recognised(names) else n in FlagSet(f) - Recognised(names)
    {
      FlagAlgebra(f, names, n);
    }
  }

  /** Repeating an add or remove, or listing an id twice, changes nothing further. */
  lemma FlagIdempotent(db: Db, name: string, ids: seq<int>, names: seq<string>, on: bool)
    ensures var once := FlagAll(db, name, ids, names, on);
      && FlagAll(once, name, ids, names, on) == once
      && FlagAll(db, name, ids + ids, names, on) == once
  {
    var once := FlagAll(db, name, ids, names, on);
    assert FlagAll(once, name, ids, names, on).mails == once.mails;
    assert forall i :: i in ids + ids <==> i in ids;
    assert FlagAll(db, name, ids + ids, names, on).mails == once.mails;
  }

  // -------------------------------------------------------------------- copy

  /** `dest` has grown by n consecutive ids from its next one; what was there keeps its content. */
  ghost predicate Grown(db: Db, db': Db, dest: string, n: nat) {
    var next := NextAfter(Ids(db, dest));
    && db'.mailboxes == db.mailboxes && db'.queue == db.queue
    && (forall k: MailKey :: k in db'.mails <==> k in db.mails || (k.mailbox == dest && next <= k.id < next + n))
    && (forall k :: k in db.mails ==> SameContent(db'.mails[k], db.mails[k]))
  }

  predicate SameContent(a: Mail, b: Mail) {
    a.body == b.body && a.date == b.date
  }

  /** The mails appended are, in order, copies of what `name` has under `ids`. */
  ghost predicate Copies(db': Db, name: string, dest: string, next: int, ids: seq<int>) {
    forall j :: 0 <= j < |ids| ==> CopyOf(db', MailKey(name, ids[j]), MailKey(dest, next + j))
  }

  predicate CopyOf(db': Db, k: MailKey, copy: MailKey) {
    k in db'.mails && copy in db'.mails && db'.mails[copy].body == db'.mails[k].body
  }

  /** Each id names a mail when its turn comes: one that was there, or a copy made before it. */
  ghost predicate Selectable(db: Db, name: string, dest: string, ids: seq<int>) {
    forall j :: 0 <= j < |ids| ==> AtItsTurn(db, name, dest, j, ids[j])
  }

  ghost predicate AtItsTurn(db: Db, name: string, dest: string, j: nat, id: int) {
    var next := NextAfter(Ids(db, dest));
    MailKey(name, id) in db.mails || (name == dest && next <= id < next + j)
  }

  ghost predicate Copied(db: Db, out: (Db, Reply<()>), name: string, dest: string, ids: seq<int>) {
    && (out.1.Ok? <==> Selectable(db, name, dest, ids) && (ids == [] || dest in db.mailboxes))
    && (out.1.Ok? ==> Grown(db, out.0, dest, |ids|) && Copies(out.0, name, dest, NextAfter(Ids(db, dest)), ids))
  }

  /**
   Copying any ids succeeds exactly when each names a mail at its turn and the
   destination exists; the destination then has consecutive new ids from its next
   one, with the bodies the ids name, in order, and no earlier body has changed.
   */
  lemma {:induction false} CopySucceedsIff(db: Db, name: string, dest: string, ids: seq<int>, now: int)
    ensures Copied(db, CopyAll(db, name, dest, ids, now), name, dest, ids)
  {
    if ids != [] {
      var before, id := ids[..|ids| - 1], ids[|ids| - 1];
      assert ids == before + [id];
      CopySucceedsIff(db, name, dest, before, now);
      CopyAllLast(db, name, dest, before, id, now);
      CopiedOneMore(db, CopyAll(db, name, dest, before, now), name, dest, before, id, now);
    }
  }

  /**
   A copy that fails has copied the mails before the first id that names none at its
   turn, all of them and nothing else; or nothing at all, if the destination is missing.
   */
  ghost predicate CopyStopped(db: Db, db': Db, name: string, dest: string, ids: seq<int>, n: nat) {
    && n < |ids| && Selectable(db, name, dest, ids[..n])
    && (!AtItsTurn(db, name, dest, n, ids[n]) || dest !in db.mailboxes)
    && Grown(db, db', dest, n) && Copies(db', name, dest, NextAfter(Ids(db, dest)), ids[..n])
  }

  lemma {:induction false} FailedCopyStops(db: Db, name: string, dest: string, ids: seq<int>, now: int) returns (n: nat)
    requires CopyAll(db, name, dest, ids, now).1.Err?
    ensures CopyStopped(db, CopyAll(db, name, dest, ids, now).0, name, dest, ids, n)
  {
    var before, id := ids[..|ids| - 1], ids[|ids| - 1];
    assert ids == before + [id];
    CopyAllLast(db, name, dest, before, id, now);
    if CopyAll(db, name, dest, before, now).1.Err? {
      n := FailedCopyStops(db, name, dest, before, now);
      assert before[..n] == ids[..n];
    } else {
      n := |before|;
      CopySucceedsIff(db, name, dest, before, now);
      CopySucceedsIff(db, name, dest, ids, now);
      SelectableMore(db, name, dest, before, id);
      LastCopyFails(db, CopyAll(db, name, dest, before, now).0, name, dest, before, id, now);
    }
  }

  lemma LastCopyFails(db: Db, mid: Db, name: string, dest: string, ids: seq<int>, id: int, now: int)
    requires Selectable(db, name, dest, ids)
    requires Grown(db, mid, dest, |ids|) && Copies(mid, name, dest, NextAfter(Ids(db, dest)), ids)
    requires CopyOne(mid, name, dest, id, now).1.Err?
    requires !AtItsTurn(db, name, dest, |ids|, id) || dest !in db.mailboxes
    ensures CopyStopped(db, CopyOne(mid, name, dest, id, now).0, name, dest, ids + [id], |ids|)
  {
    assert (ids + [id])[..|ids|] == ids;
    assert CopyOne(mid, name, dest, id, now).0 == mid;
  }

  lemma CopyAllLast(db: Db, name: string, dest: string, ids: seq<int>, id: int, now: int)
    ensures var before := CopyAll(db, name, dest, ids, now);
      CopyAll(db, name, dest, ids + [id], now) ==
        if before.1.Err? then before else CopyOne(before.0, name, dest, id, now)
  {
    assert (ids + [id])[..|ids|] == ids;
  }

  lemma SelectableMore(db: Db, name: string, dest: string, ids: seq<int>, id: int)
    ensures Selectable(db, name, dest, ids + [id]) <==>
      Selectable(db, name, dest, ids) && AtItsTurn(db, name, dest, |ids|, id)
  {
    var more := ids + [id];
    assert more[|ids|] == id;
    assert forall j :: 0 <= j < |ids| ==> more[j] == ids[j];
  }

  lemma CopiedOneMore(db: Db, out: (Db, Reply<()>), name: string, dest: string, ids: seq<int>, id: int, now: int)
    requires Copied(db, out, name, dest, ids)
    ensures Copied(db, if out.1.Err? then out else CopyOne(out.0, name, dest, id, now), name, dest, ids + [id])
  {
    SelectableMore(db, name, dest, ids, id);
    if out.1.Ok? {
      assert MailKey(name, id) in out.0.mails <==> AtItsTurn(db, name, dest, |ids|, id);
      if AtItsTurn(db, name, dest, |ids|, id) && dest in db.mailboxes {
        CopyOneMore(db, out.0, name, dest, ids, id, now);
      }
    }
  }

  lemma CopyOneMore(db: Db, mid: Db, name: string, dest: string, ids: seq<int>, id: int, now: int)
    requires Grown(db, mid, dest, |ids|) && Copies(mid, name, dest, NextAfter(Ids(db, dest)), ids)
    requires MailKey(name, id) in mid.mails && dest in mid.mailboxes
    ensures var (after, r) := CopyOne(mid, name, dest, id, now);
      r.Ok? && Grown(db, after, dest, |ids + [id]|) && Copies(after, name, dest, NextAfter(Ids(db, dest)), ids + [id])
  {
    var after := CopyOne(mid, name, dest, id, now).0;
    NextAfterGrown(db, mid, dest, |ids|);
    CopyOneEffect(mid, name, dest, id, now);
    GrownOneMore(db, mid, after, dest, |ids|, mid.mails[MailKey(name, id)].body);
    CopiesOneMore(mid, after, name, dest, NextAfter(Ids(db, dest)), ids, id);
  }

  lemma NextAfterGrown(db: Db, mid: Db, dest: string, n: nat)
    requires Grown(db, mid, dest, n)
    ensures NextAfter(Ids(mid, dest)) == NextAfter(Ids(db, dest)) + n
  {
    var next := NextAfter(Ids(db, dest));
    assert forall i :: i in Ids(mid, dest) <==> i in Ids(db, dest) || next <= i < next + n;
    if n > 0 {
      assert next + n - 1 in Ids(mid, dest);
    } else {
      assert Ids(mid, dest) == Ids(db, dest);
    }
  }

  /** CopyOne adds one mail with the source's body and touches only flags besides. */
  lemma CopyOneEffect(mid: Db, name: string, dest: string, id: int, now: int)
    requires MailKey(name, id) in mid.mails && dest in mid.mailboxes
    ensures var (after, r) := CopyOne(mid, name, dest, id, now);
      && r.Ok? && AddsOne(mid, after, MailKey(dest, NextAfter(Ids(mid, dest))), mid.mails[MailKey(name, id)].body)
  {
    var new_ := MailKey(dest, NextAfter(Ids(mid, dest)));
    assert new_.id !in Ids(mid, dest);
  }

  ghost predicate AddsOne(mid: Db, after: Db, new_: MailKey, body: Bytes) {
    && after.mailboxes == mid.mailboxes && after.queue == mid.queue
    && new_ !in mid.mails && after.mails.Keys == mid.mails.Keys + {new_}
    && after.mails[new_].body == body
    && (forall k :: k in mid.mails ==> SameContent(after.mails[k], mid.mails[k]))
  }

  lemma GrownOneMore(db: Db, mid: Db, after: Db, dest: string, n: nat, body: Bytes)
    requires Grown(db, mid, dest, n) && AddsOne(mid, after, MailKey(dest, NextAfter(Ids(db, dest)) + n), body)
    ensures Grown(db, after, dest, n + 1)
  {
    forall k | k in db.mails
      ensures SameContent(after.mails[k], db.mails[k])
    {
      assert SameContent(mid.mails[k], db.mails[k]);
    }
  }

  lemma CopiesOneMore(mid: Db, after: Db, name: string, dest: string, next: int, ids: seq<int>, id: int)
    requires Copies(mid, name, dest, next, ids) && MailKey(name, id) in mid.mails
    requires AddsOne(mid, after, MailKey(dest, next + |ids|), mid.mails[MailKey(name, id)].body)
    ensures Copies(after, name, dest, next, ids + [id])
  {
    forall j | 0 <= j < |ids + [id]|
      ensures CopyOf(after, MailKey(name, (ids + [id])[j]), MailKey(dest, next + j))
    {
      if j < |ids| {
        assert CopyOf(mid, MailKey(name, ids[j]), MailKey(dest, next + j));
        assert SameContent(after.mails[MailKey(dest, next + j)], mid.mails[MailKey(dest, next + j)]);
        assert SameContent(after.mails[MailKey(name, ids[j])], mid.mails[MailKey(name, ids[j])]);
      } else {
        assert SameContent(after.mails[MailKey(name, id)], mid.mails[MailKey(name, id)]);
      }
    }
  }

  /**
   In particular, copying mails that exist fails only for want of the destination,
   and the new bodies are those the mails had before, so no copy is selected again,
   even when source and destination are the same mailbox.
   */
  lemma CopyAppends(db: Db, name: string, dest: string, ids: seq<int>, now: int)
    requires AllExist(db, name, ids)
    ensures var (db', r) := CopyAll(db, name, dest, ids, now);
      && (r.Ok? <==> ids == [] || dest in db.mailboxes)
      && (r.Ok? ==> Grown(db, db', dest, |ids|) && OldCopies(db, db', name, dest, ids))
  {
    CopySucceedsIff(db, name, dest, ids, now);
    assert forall j :: 0 <= j < |ids| ==> ids[j] in ids;
    var out := CopyAll(db, name, dest, ids, now);
    if out.1.Ok? {
      OldBodies(db, out.0, name, dest, ids);
    }
  }

  /** The new mails have the bodies the mails `ids` had before. */
  ghost predicate OldCopies(db: Db, db': Db, name: string, dest: string, ids: seq<int>) {
    var next := NextAfter(Ids(db, dest));
    forall j :: 0 <= j < |ids| ==> HasOldBody(db, db', MailKey(name, ids[j]), MailKey(dest, next + j))
  }

  predicate HasOldBody(db: Db, db': Db, k: MailKey, copy: MailKey) {
    k in db.mails && copy in db'.mails && db'.mails[copy].body == db.mails[k].body
  }

  lemma OldBodies(db: Db, db': Db, name: string, dest: string, ids: seq<int>)
    requires Grown(db, db', dest, |ids|) && Copies(db', name, dest, NextAfter(Ids(db, dest)), ids)
    requires AllExist(db, name, ids)
    ensures OldCopies(db, db', name, dest, ids)
  {
    var next := NextAfter(Ids(db, dest));
    forall j | 0 <= j < |ids|
      ensures HasOldBody(db, db', MailKey(name, ids[j]), MailKey(dest, next + j))
    {
      assert ids[j] in ids;
      assert CopyOf(db', MailKey(name, ids[j]), MailKey(dest, next + j));
      assert SameContent(db'.mails[MailKey(name, ids[j])], db.mails[MailKey(name, ids[j])]);
    }
  }

  /**
   A UID set may name ids that do not exist yet.  Copying a mailbox into itself by
   UID can then select a copy it has just made: naming a mail and the next free id
   copies the mail twice.
   */
  lemma CopyMayReselect(db: Db, name: string, id: int, now: int)
    requires MailKey(name, id) in db.mails && name in db.mailboxes
    ensures var next := NextAfter(Ids(db, name));
      var (db', r) := CopyAll(db, name, name, [id, next], now);
      && MailKey(name, next) !in db.mails && r.Ok?
      && HasOldBody(db, db', MailKey(name, id), MailKey(name, next))
      && HasOldBody(db, db', MailKey(name, id), MailKey(name, next + 1))
  {
    var next := NextAfter(Ids(db, name));
    CopySucceedsIff(db, name, name, [id, next], now);
    var db' := CopyAll(db, name, name, [id, next], now).0;
    assert next !in Ids(db, name);
    assert AtItsTurn(db, name, name, 0, id) && AtItsTurn(db, name, name, 1, next);
    ReselectedBody(db, db', name, id);
  }

  lemma ReselectedBody(db: Db, db': Db, name: string, id: int)
    requires MailKey(name, id) in db.mails
    requires var next := NextAfter(Ids(db, name)); Grown(db, db', name, 2) && Copies(db', name, name, next, [id, next])
    ensures var next := NextAfter(Ids(db, name));
      && HasOldBody(db, db', MailKey(name, id), MailKey(name, next))
      && HasOldBody(db, db', MailKey(name, id), MailKey(name, next + 1))
  {
    var next := NextAfter(Ids(db, name));
    assert CopyOf(db', MailKey(name, [id, next][0]), MailKey(name, next + 0));
    assert CopyOf(db', MailKey(name, [id, next][1]), MailKey(name, next + 1));
    assert SameContent(db'.mails[MailKey(name, id)], db.mails[MailKey(name, id)]);
  }

  // ------------------------------------------------------------- flags of copies

  /** The flags the j-th mail named has at its turn: those a copy before it left there, or its own. */
  ghost function FlagsAtTurn(db: Db, name: string, dest: string, ids: seq<int>, j: nat): Flags
    requires j < |ids| && Selectable(db, name, dest, ids)
    decreases j
  {
    var next := NextAfter(Ids(db, dest));
    assert AtItsTurn(db, name, dest, j, ids[j]);
    if next <= ids[j] < next + j then FlagsAtTurn(db, name, dest, ids, ids[j] - next)
    else db.mails[MailKey(name, ids[j])].flags
  }

  /** Copy j is new and, in another mailbox, unflagged; the flags go to the source's mail of that id, if any. */
  ghost predicate Flagged(db: Db, db': Db, name: string, dest: string, ids: seq<int>, now: int, j: nat)
    requires j < |ids| && Selectable(db, name, dest, ids)
  {
    var id := NextAfter(Ids(db, dest)) + j;
    && MailKey(dest, id) in db'.mails && db'.mails[MailKey(dest, id)].date == now
    && (name != dest ==> FlagSet(db'.mails[MailKey(dest, id)].flags) == {})
    && (MailKey(name, id) in db'.mails ==> db'.mails[MailKey(name, id)].flags == FlagsAtTurn(db, name, dest, ids, j))
  }

  /** No flags differ but those of the source's mails with the ids of the copies. */
  ghost predicate FlagsLand(db: Db, db': Db, name: string, dest: string, ids: seq<int>, now: int)
    requires Selectable(db, name, dest, ids)
  {
    var next := NextAfter(Ids(db, dest));
    && (forall k :: k in db.mails && k in db'.mails && !(k.mailbox == name && next <= k.id < next + |ids|) ==>
          db'.mails[k].flags == db.mails[k].flags)
    && (forall j :: 0 <= j < |ids| ==> Flagged(db, db', name, dest, ids, now, j))
  }

  /**
   Where the flags of any successful copy go, repeated and reselected ids included:
   the copies in another mailbox have none, and the source's own mails that happen to
   have the copies' ids are given them instead.
   */
  lemma {:induction false} CopyFlags(db: Db, name: string, dest: string, ids: seq<int>, now: int)
    requires Selectable(db, name, dest, ids) && (ids == [] || dest in db.mailboxes)
    ensures FlagsLand(db, CopyAll(db, name, dest, ids, now).0, name, dest, ids, now)
  {
    if ids != [] {
      var before, id := ids[..|ids| - 1], ids[|ids| - 1];
      assert ids == before + [id];
      SelectableMore(db, name, dest, before, id);
      CopyFlags(db, name, dest, before, now);
      CopySucceedsIff(db, name, dest, before, now);
      CopyAllLast(db, name, dest, before, id, now);
      var mid := CopyAll(db, name, dest, before, now).0;
      assert AtItsTurn(db, name, dest, |before|, id);
      CopyOneFlags(mid, name, dest, id, now);
      FlagsLandMore(db, mid, CopyOne(mid, name, dest, id, now).0, name, dest, before, id, now);
    }
  }

  /** From mid to after, mail `id` of dest has been added, and `flags` written to the source's mail of that id. */
  ghost predicate OneFlagged(mid: Db, after: Db, name: string, dest: string, id: int, flags: Flags, now: int) {
    var new_, hit := MailKey(dest, id), MailKey(name, id);
    && new_ !in mid.mails && after.mails.Keys == mid.mails.Keys + {new_} && after.mails[new_].date == now
    && (name != dest ==> FlagSet(after.mails[new_].flags) == {})
    && (hit in after.mails ==> after.mails[hit].flags == flags)
    && (forall k :: k in mid.mails && k != hit ==> after.mails[k].flags == mid.mails[k].flags)
    && (forall k :: k in mid.mails ==> after.mails[k].date == mid.mails[k].date)
  }

  lemma CopyOneFlags(mid: Db, name: string, dest: string, id: int, now: int)
    requires MailKey(name, id) in mid.mails && dest in mid.mailboxes
    ensures OneFlagged(mid, CopyOne(mid, name, dest, id, now).0, name, dest, NextAfter(Ids(mid, dest)),
      mid.mails[MailKey(name, id)].flags, now)
  {
    assert NextAfter(Ids(mid, dest)) !in Ids(mid, dest);
  }

  lemma FlagsLandMore(db: Db, mid: Db, after: Db, name: string, dest: string, ids: seq<int>, id: int, now: int)
    requires Selectable(db, name, dest, ids) && Selectable(db, name, dest, ids + [id]) && MailKey(name, id) in mid.mails
    requires Grown(db, mid, dest, |ids|) && FlagsLand(db, mid, name, dest, ids, now)
    requires OneFlagged(mid, after, name, dest, NextAfter(Ids(mid, dest)), mid.mails[MailKey(name, id)].flags, now)
    ensures FlagsLand(db, after, name, dest, ids + [id], now)
  {
    NextAfterGrown(db, mid, dest, |ids|);
    SelectedFlags(db, mid, name, dest, ids, id, now);
    OneFlaggedLands(db, mid, after, name, dest, ids, id, now);
  }

  lemma OneFlaggedLands(db: Db, mid: Db, after: Db, name: string, dest: string, ids: seq<int>, id: int, now: int)
    requires Selectable(db, name, dest, ids) && Selectable(db, name, dest, ids + [id])
    requires Grown(db, mid, dest, |ids|) && FlagsLand(db, mid, name, dest, ids, now)
    requires OneFlagged(mid, after, name, dest, NextAfter(Ids(db, dest)) + |ids|,
      FlagsAtTurn(db, name, dest, ids + [id], |ids|), now)
    ensures FlagsLand(db, after, name, dest, ids + [id], now)
  {
    forall j | 0 <= j < |ids + [id]|
      ensures Flagged(db, after, name, dest, ids + [id], now, j)
    {
      if j < |ids| {
        assert Flagged(db, mid, name, dest, ids, now, j);
        StaysFlagged(db, mid, after, name, dest, ids, id, now, j);
      }
    }
  }

  lemma StaysFlagged(db: Db, mid: Db, after: Db, name: string, dest: string, ids: seq<int>, id: int, now: int, j: nat)
    requires j < |ids| && Selectable(db, name, dest, ids) && Selectable(db, name, dest, ids + [id])
    requires Flagged(db, mid, name, dest, ids, now, j)
    requires OneFlagged(mid, after, name, dest, NextAfter(Ids(db, dest)) + |ids|,
      FlagsAtTurn(db, name, dest, ids + [id], |ids|), now)
    ensures Flagged(db, after, name, dest, ids + [id], now, j)
  {
    TurnsStay(db, name, dest, ids, id, j);
  }

  /** What a copy finds at its turn. */
  lemma SelectedFlags(db: Db, mid: Db, name: string, dest: string, ids: seq<int>, id: int, now: int)
    requires Selectable(db, name, dest, ids) && Selectable(db, name, dest, ids + [id])
    requires Grown(db, mid, dest, |ids|) && FlagsLand(db, mid, name, dest, ids, now)
    ensures MailKey(name, id) in mid.mails
    ensures mid.mails[MailKey(name, id)].flags == FlagsAtTurn(db, name, dest, ids + [id], |ids|)
  {
    var next := NextAfter(Ids(db, dest));
    assert (ids + [id])[|ids|] == id;
    assert AtItsTurn(db, name, dest, |ids|, id);
    if next <= id < next + |ids| {
      assert Flagged(db, mid, name, dest, ids, now, id - next);
      TurnsStay(db, name, dest, ids, id, id - next);
    }
  }

  lemma {:induction false} TurnsStay(db: Db, name: string, dest: string, ids: seq<int>, id: int, j: nat)
    requires j < |ids| && Selectable(db, name, dest, ids) && Selectable(db, name, dest, ids + [id])
    ensures FlagsAtTurn(db, name, dest, ids + [id], j) == FlagsAtTurn(db, name, dest, ids, j)
    decreases j
  {
    var next := NextAfter(Ids(db, dest));
    assert (ids + [id])[j] == ids[j];
    assert AtItsTurn(db, name, dest, j, ids[j]);
    if next <= ids[j] < next + j {
      TurnsStay(db, name, dest, ids, id, ids[j] - next);
    }
  }

  // -------------------------------------------------------------------- move

  /** The mails among `ids` that are in the mailbox. */
  ghost function Present(db: Db, name: string, ids: seq<int>): (s: set<int>)
    ensures forall i :: i in s <==> i in ids && MailKey(name, i) in db.mails
  {
    set i | i in ids && MailKey(name, i) in db.mails
  }

  /** Exactly the mails `moved` of `name` now lie in `dest`, under their ids, with all they had. */
  ghost predicate Transferred(db: Db, db': Db, name: string, dest: string, moved: set<int>) {
    && db'.mailboxes == db.mailboxes
    && (forall i :: i in moved ==> MailKey(name, i) in db.mails && MailKey(dest, i) !in db.mails)
    && (forall k: MailKey :: k in db'.mails <==>
          (k in db.mails && !(k.mailbox == name && k.id in moved)) || (k.mailbox == dest && k.id in moved))
    && (forall k :: k in db'.mails ==>
          db'.mails[k] == if k.mailbox == dest && k.id in moved then db.mails[MailKey(name, k.id)] else db.mails[k])
    && |db'.mails| == |db.mails|
  }

  function Carried(q: QueueKey, name: string, dest: string, moved: set<int>): QueueKey {
    if q.mailbox == name && q.id in moved then q.(mailbox := dest) else q
  }

  /** The queue rows of moved mails went with them, and no other row changed. */
  ghost predicate RowsCarried(db: Db, db': Db, name: string, dest: string, moved: set<int>) {
    && (forall q :: q in db.queue ==>
          Carried(q, name, dest, moved) in db'.queue && db'.queue[Carried(q, name, dest, moved)] == db.queue[q])
    && (forall q :: q in db'.queue ==> exists p :: p in db.queue && Carried(p, name, dest, moved) == q)
  }

  ghost predicate Arrived(db: Db, db': Db, name: string, dest: string, moved: set<int>) {
    Valid(db') && Transferred(db, db', name, dest, moved) && RowsCarried(db, db', name, dest, moved)
  }

  /** Mail id can go from `name` to `dest`. */
  predicate CanGo(db: Db, dest: string, id: int) {
    dest in db.mailboxes && MailKey(dest, id) !in db.mails
  }

  ghost predicate AllCanGo(db: Db, dest: string, moved: set<int>) {
    forall i :: i in moved ==> CanGo(db, dest, i)
  }

  lemma AllCanGoMore(db: Db, dest: string, moved: set<int>, id: int)
    ensures AllCanGo(db, dest, moved + {id}) <==> AllCanGo(db, dest, moved) && CanGo(db, dest, id)
  {
    assert id in moved + {id};
  }

  /**
   A move succeeds exactly when every mail it names that is present can go.  It
   then transfers exactly those mails: ids were resolved before the first move, so
   the renumbering of the source does not matter, nor do repeated ids.
   */
  lemma {:induction false} MoveTransfers(db: Db, name: string, dest: string, ids: seq<int>)
    requires Valid(db) && dest != name
    ensures Moved(db, MoveAll(db, name, dest, ids), name, dest, Present(db, name, ids))
  {
    if ids == [] {
      NoneMoved(db, name, dest);
    } else {
      var before, id := ids[..|ids| - 1], ids[|ids| - 1];
      assert ids == before + [id];
      MoveTransfers(db, name, dest, before);
      MoveAllLast(db, name, dest, before, id);
      PresentOneMore(db, name, before, id);
      MovedOneMore(db, MoveAll(db, name, dest, before), name, dest, Present(db, name, before), id);
    }
  }

  /** The outcome of moving the mails `moved`: success exactly when they all can go, and have gone. */
  ghost predicate Moved(db: Db, out: (Db, Reply<()>), name: string, dest: string, moved: set<int>) {
    && (out.1.Ok? <==> AllCanGo(db, dest, moved))
    && (out.1.Ok? ==> Arrived(db, out.0, name, dest, moved))
  }

  /**
   A move that fails has stopped at the first mail that is there and cannot go, and has
   transferred the mails before it, all of them and nothing else.
   */
  ghost predicate MoveStopped(db: Db, db': Db, name: string, dest: string, ids: seq<int>, n: nat) {
    && n < |ids| && MailKey(name, ids[n]) in db.mails && !CanGo(db, dest, ids[n])
    && AllCanGo(db, dest, Present(db, name, ids[..n]))
    && Arrived(db, db', name, dest, Present(db, name, ids[..n]))
  }

  lemma {:induction false} FailedMoveStops(db: Db, name: string, dest: string, ids: seq<int>) returns (n: nat)
    requires Valid(db) && dest != name && MoveAll(db, name, dest, ids).1.Err?
    ensures MoveStopped(db, MoveAll(db, name, dest, ids).0, name, dest, ids, n)
  {
    var before, id := ids[..|ids| - 1], ids[|ids| - 1];
    assert ids == before + [id];
    MoveAllLast(db, name, dest, before, id);
    MoveTransfers(db, name, dest, before);
    var first := MoveAll(db, name, dest, before);
    if first.1.Err? {
      n := FailedMoveStops(db, name, dest, before);
      assert before[..n] == ids[..n];
    } else {
      n := |before|;
      MoveOneMore(db, first.0, name, dest, Present(db, name, before), id);
      RefusedMoveOne(first.0, name, dest, id);
    }
  }

  /** A move of one mail that is refused changes nothing. */
  lemma RefusedMoveOne(db: Db, name: string, dest: string, id: int)
    ensures MoveOne(db, name, dest, id).1.Err? ==> MoveOne(db, name, dest, id).0 == db
  {
  }

  lemma MoveAllLast(db: Db, name: string, dest: string, ids: seq<int>, id: int)
    ensures var before := MoveAll(db, name, dest, ids);
      MoveAll(db, name, dest, ids + [id]) == if before.1.Err? then before else MoveOne(before.0, name, dest, id)
  {
    assert (ids + [id])[..|ids|] == ids;
  }

  lemma MovedOneMore(db: Db, out: (Db, Reply<()>), name: string, dest: string, moved: set<int>, id: int)
    requires Moved(db, out, name, dest, moved) && dest != name
    ensures Moved(db, if out.1.Err? then out else MoveOne(out.0, name, dest, id), name, dest,
      if MailKey(name, id) in db.mails then moved + {id} else moved)
  {
    AllCanGoMore(db, dest, moved, id);
    if out.1.Ok? {
      MoveOneMore(db, out.0, name, dest, moved, id);
      if id in moved {
        assert moved + {id} == moved;
      }
    }
  }

  lemma NoneMoved(db: Db, name: string, dest: string)
    requires Valid(db)
    ensures Present(db, name, []) == {} && Arrived(db, db, name, dest, {})
  {
    assert forall q :: q in db.queue ==> Carried(q, name, dest, {}) == q;
  }

  lemma PresentOneMore(db: Db, name: string, ids: seq<int>, id: int)
    ensures Present(db, name, ids + [id]) ==
      if MailKey(name, id) in db.mails then Present(db, name, ids) + {id} else Present(db, name, ids)
  {
    assert forall i :: i in ids + [id] <==> i in ids || i == id;
  }

  /** Deleting a row of a destination named "Outbox" after a move deletes nothing. */
  lemma DeleteAfterMoveIsIdle(db: Db, name: string, dest: string, id: int)
    requires Valid(db) && dest != name
    ensures var (db', r) := MailMove(db, name, id, dest);
      MoveOne(db, name, dest, id) == (db', r) && Valid(db')
  {
    Integrity.MoveValid(db, name, id, dest);
    var (db', r) := MailMove(db, name, id, dest);
    if r.Ok? && name == OUTBOX {
      assert MailKey(OUTBOX, id) !in db'.mails;
      assert QueueKey(OUTBOX, OUTBOX, id) !in db'.queue;
      assert db'.queue - {QueueKey(OUTBOX, OUTBOX, id)} == db'.queue;
    }
  }

  lemma MoveOneMore(db: Db, mid: Db, name: string, dest: string, moved: set<int>, id: int)
    requires Arrived(db, mid, name, dest, moved) && dest != name
    ensures var (after, r) := MoveOne(mid, name, dest, id);
      if MailKey(name, id) !in db.mails || id in moved then (after, r) == (mid, Ok(()))
      else
        && (r.Ok? <==> CanGo(db, dest, id))
        && (r.Ok? ==> Arrived(db, after, name, dest, moved + {id}))
  {
    DeleteAfterMoveIsIdle(mid, name, dest, id);
    Integrity.MoveRefused(mid, name, id, dest);
    var (after, r) := MailMove(mid, name, id, dest);
    if MailKey(name, id) in db.mails && id !in moved && r.Ok? {
      MoveOneTransfers(db, mid, after, name, dest, moved, id);
      Integrity.MoveNeverCollides(mid, name, id, dest);
      MoveOneCarries(db, mid, after, name, dest, moved, id);
    }
  }

  lemma MoveOneTransfers(db: Db, mid: Db, after: Db, name: string, dest: string, moved: set<int>, id: int)
    requires Transferred(db, mid, name, dest, moved) && dest != name
    requires MailKey(name, id) in db.mails && id !in moved && MailKey(dest, id) !in mid.mails
    requires after.mailboxes == mid.mailboxes
    requires after.mails == (mid.mails - {MailKey(name, id)})[MailKey(dest, id) := mid.mails[MailKey(name, id)]]
    ensures Transferred(db, after, name, dest, moved + {id})
  {
    var k, to := MailKey(name, id), MailKey(dest, id);
    assert after.mails.Keys == mid.mails.Keys - {k} + {to};
    assert |after.mails.Keys| == |mid.mails.Keys|;
  }

  lemma MoveOneCarries(db: Db, mid: Db, after: Db, name: string, dest: string, moved: set<int>, id: int)
    requires RowsCarried(db, mid, name, dest, moved) && dest != name && id !in moved
    requires !Collides(mid.queue, Change(name, dest, Some(id)))
    requires after.queue == CascadeQueue(mid.queue, Change(name, dest, Some(id)))
    ensures RowsCarried(db, after, name, dest, moved + {id})
  {
    var c := Change(name, dest, Some(id));
    Integrity.CascadeCarries(mid.queue, c);
    assert forall q: QueueKey :: NewKey(c, Carried(q, name, dest, moved)) == Carried(q, name, dest, moved + {id});
    forall q | q in after.queue
      ensures exists p :: p in db.queue && Carried(p, name, dest, moved + {id}) == q
    {
      var m :| m in mid.queue && NewKey(c, m) == q;
      var p :| p in db.queue && Carried(p, name, dest, moved) == m;
      assert Carried(p, name, dest, moved + {id}) == q;
    }
  }

  /** Moving a mailbox's mails to itself changes nothing. */
  lemma {:induction false} MoveToSelf(db: Db, name: string, ids: seq<int>)
    requires name != OUTBOX
    ensures MoveAll(db, name, name, ids) == (db, Ok(()))
  {
    if ids != [] {
      MoveToSelf(db, name, ids[..|ids| - 1]);
    }
  }

  /**
   A queued mail moved out of the Outbox takes its rows with it.  They still name
   the destination, but no longer a mail of the Outbox: a worker's MailSelect fails,
   and no deletion the worker or the move issues reaches them.
   */
  lemma MoveOutStrandsRows(db: Db, dest: string, ids: seq<int>, q: QueueKey)
    requires Valid(db) && dest != OUTBOX && MoveAll(db, OUTBOX, dest, ids).1.Ok?
    requires q in db.queue && q.mailbox == OUTBOX && q.id in ids
    ensures var db' := MoveAll(db, OUTBOX, dest, ids).0;
      && MailAt(db', OUTBOX, q.id).Err?
      && q.(mailbox := dest) in db'.queue
      && forall d :: q.(mailbox := dest) in QueueDelete(db', d, q.id).queue
  {
    MoveTransfers(db, OUTBOX, dest, ids);
    assert MailKey(OUTBOX, q.id) in db.mails;
    assert Carried(q, OUTBOX, dest, Present(db, OUTBOX, ids)) == q.(mailbox := dest);
  }

  /**
   UID MOVE of a bare `*` transfers the whole mailbox when it succeeds.  Commands that
   need every mail they name, as flag changes and copies do, always fail on it: it
   names 0 first.
   */
  lemma UidStarTakesAll(db: Db, name: string, dest: string)
    requires Valid(db) && dest != name && SmallIds(Ids(db, name))
    ensures var ids := Resolve(Ids(db, name), true, [Range(0, 0)]);
      && ids.Ok? && Moved(db, MoveAll(db, name, dest, ids.value), name, dest, Ids(db, name))
      && FirstMissing(db, name, ids.value, 0)
  {
    var have := Ids(db, name);
    UidStarIsRightIff(have);
    var ids := Resolve(have, true, [Range(0, 0)]).value;
    assert Present(db, name, ids) == have;
    MoveTransfers(db, name, dest, ids);
    StarNamesZero(have);
  }

  lemma StarNamesZero(have: set<int>)
    requires SmallIds(have)
    ensures var r := Resolve(have, true, [Range(0, 0)]); r.Ok? && r.value != [] && r.value[0] == 0
  {
    var top := NextAfter(have) - 1;
    OneRange(have, true, Range(0, 0));
    ResolveFromMeans(have, true, 0, top);
    MappedUids(have, Numbers(0, top));
    assert Numbers(0, top)[0] == 0;
  }

  // ------------------------------------------------- the same by sequence number

  /** The ids whose sequence numbers are among ns. */
  function Numbered(ids: set<int>, ns: seq<int>): set<int> {
    set id | id in ids && Rank(ids, id) in ns
  }

  /** An in-range set resolves to the ids so numbered, all of them in the mailbox. */
  lemma ResolvesToNumbered(db: Db, name: string, ranges: seq<Range>)
    requires SmallIds(Ids(db, name)) && InRange(Ids(db, name), ranges)
    ensures var ids := Ids(db, name);
      var r := Resolve(ids, false, ranges);
      && r.Ok? && AllExist(db, name, r.value)
      && forall id :: id in r.value <==> id in Numbered(ids, Denoted(ids, ranges))
  {
    var ids, ns := Ids(db, name), Denoted(Ids(db, name), ranges);
    InRangeResolves(ids, ranges);
    var v := Resolve(ids, false, ranges).value;
    AllResolvedExist(db, name, v, ns);
    SameNumbers(ids, ns, v);
  }

  lemma SameNumbers(ids: set<int>, ns: seq<int>, v: seq<int>)
    requires |v| == |ns| && forall j :: 0 <= j < |ns| ==> IdForSeq(ids, ns[j]) == Some(v[j])
    ensures forall id :: id in v <==> id in Numbered(ids, ns)
  {
    forall id
      ensures id in v <==> id in Numbered(ids, ns)
    {
      if id in v {
        var j :| 0 <= j < |v| && v[j] == id;
        assert IdForSeq(ids, ns[j]) == Some(id) && ns[j] in ns;
      }
      if id in Numbered(ids, ns) {
        var j :| 0 <= j < |ns| && ns[j] == Rank(ids, id);
        OnlyIdForSeq(ids, ns[j], id);
        assert v[j] == id;
      }
    }
  }

  /**
   MOVE of an in-range set, ranges overlapping or not: it succeeds exactly when all the
   mails it numbers can go, and transfers exactly those, as numbered before the command.
   */
  lemma MoveByNumber(db: Db, name: string, dest: string, ranges: seq<Range>)
    requires Valid(db) && dest != name && SmallIds(Ids(db, name)) && InRange(Ids(db, name), ranges)
    ensures var ids := Ids(db, name);
      var r := Resolve(ids, false, ranges);
      r.Ok? && Moved(db, MoveAll(db, name, dest, r.value), name, dest, Numbered(ids, Denoted(ids, ranges)))
  {
    var ids := Ids(db, name);
    ResolvesToNumbered(db, name, ranges);
    var v := Resolve(ids, false, ranges).value;
    MoveTransfers(db, name, dest, v);
    assert Present(db, name, v) == Numbered(ids, Denoted(ids, ranges));
  }

  /**
   COPY of an in-range set fails only for want of the destination; it appends one copy
   per number denoted, in order, of the mail that had the number before the command.
   */
  lemma CopyByNumber(db: Db, name: string, dest: string, ranges: seq<Range>, now: int)
    requires SmallIds(Ids(db, name)) && InRange(Ids(db, name), ranges)
    ensures var ids, ns := Ids(db, name), Denoted(Ids(db, name), ranges);
      var r := Resolve(ids, false, ranges);
      r.Ok? &&
      var (db', done) := CopyAll(db, name, dest, r.value, now);
      && (done.Ok? <==> ns == [] || dest in db.mailboxes)
      && (done.Ok? ==> Grown(db, db', dest, |ns|) && NumbersCopied(db, db', name, dest, ns))
  {
    var ids, ns := Ids(db, name), Denoted(Ids(db, name), ranges);
    ResolvesToNumbered(db, name, ranges);
    InRangeResolves(ids, ranges);
    var v := Resolve(ids, false, ranges).value;
    CopyAppends(db, name, dest, v, now);
    if CopyAll(db, name, dest, v, now).1.Ok? {
      CopiedByNumber(db, CopyAll(db, name, dest, v, now).0, name, dest, ns, v);
    }
  }

  /** The j-th new mail has the body of the mail that was number ns[j]. */
  ghost predicate NumbersCopied(db: Db, db': Db, name: string, dest: string, ns: seq<int>) {
    var next := NextAfter(Ids(db, dest));
    forall j :: 0 <= j < |ns| ==> NumberCopied(db, db', name, ns[j], MailKey(dest, next + j))
  }

  ghost predicate NumberCopied(db: Db, db': Db, name: string, n: int, copy: MailKey) {
    var id := IdForSeq(Ids(db, name), n);
    id.Some? && HasOldBody(db, db', MailKey(name, id.value), copy)
  }

  lemma CopiedByNumber(db: Db, db': Db, name: string, dest: string, ns: seq<int>, v: seq<int>)
    requires |v| == |ns| && forall j :: 0 <= j < |ns| ==> IdForSeq(Ids(db, name), ns[j]) == Some(v[j])
    requires OldCopies(db, db', name, dest, v)
    ensures NumbersCopied(db, db', name, dest, ns)
  {
    var next := NextAfter(Ids(db, dest));
    forall j | 0 <= j < |ns|
      ensures NumberCopied(db, db', name, ns[j], MailKey(dest, next + j))
    {
      assert HasOldBody(db, db', MailKey(name, v[j]), MailKey(dest, next + j));
    }
  }

  /**
   STORE of an in-range set names mails that exist, and changes the flags of those whose
   numbers it denotes, as a set, and nothing else.
   */
  lemma FlagByNumber(db: Db, name: string, ranges: seq<Range>, names: seq<string>, on: bool)
    requires SmallIds(Ids(db, name)) && InRange(Ids(db, name), ranges)
    ensures var ids, ns := Ids(db, name), Denoted(Ids(db, name), ranges);
      var r := Resolve(ids, false, ranges);
      r.Ok? && AllExist(db, name, r.value) &&
      var db' := FlagAll(db, name, r.value, names, on);
      && db'.mails.Keys == db.mails.Keys
      && forall k :: k in db.mails ==>
           if k.mailbox == name && Rank(ids, k.id) in ns then FlagsSwitched(db.mails[k], db'.mails[k], names, on)
           else db'.mails[k] == db.mails[k]
  {
    var ids := Ids(db, name);
    ResolvesToNumbered(db, name, ranges);
    var v := Resolve(ids, false, ranges).value;
    forall k | k in db.mails
      ensures FlagsSwitched(db.mails[k], db.mails[k].(flags := Switched(db.mails[k].flags, names, on)), names, on)
      ensures k.mailbox == name ==> (k.id in v <==> Rank(ids, k.id) in Denoted(ids, ranges))
    {
      SwitchedSet(db.mails[k].flags, names, on);
    }
  }

  /** Only the flags differ, by the recognised names. */
  predicate FlagsSwitched(m: Mail, m': Mail, names: seq<string>, on: bool) {
    && m' == m.(flags := m'.flags)
    && FlagSet(m'.flags) == if on then FlagSet(m.flags) + Recognised(names) else FlagSet(m.flags) - Recognised(names)
  }
}

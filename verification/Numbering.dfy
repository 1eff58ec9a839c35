/**
 The sequence-number / UID index of a mailbox: the `inboxes` view numbers a
 mailbox's rows 1, 2, ... by ascending id (sections 2.3.1.1 and 2.3.1.2 of
 RFC 3501), and expunging renumbers what is left (section 7.4.1).
 */
module Numbering {
  import opened Base
  import opened Tables

  function UpTo(ids: set<int>, id: int): set<int> {
    set i | i in ids && i <= id
  }

  /** The `seq` column of the view: how many ids of the mailbox are no greater. */
  function Rank(ids: set<int>, id: int): nat {
    |UpTo(ids, id)|
  }

  /** `SELECT id FROM inboxes WHERE mailbox = .. AND seq = n`. */
  ghost function IdForSeq(ids: set<int>, n: int): (r: Option<int>)
    ensures r.Some? ==> r.value in ids && Rank(ids, r.value) == n
    ensures r.None? ==> forall i :: i in ids ==> Rank(ids, i) != n
  {
    if i :| i in ids && Rank(ids, i) == n then Some(i) else None
  }

  /** `SELECT id FROM mails WHERE mailbox = .. ORDER BY id`. */
  function Sorted(ids: set<int>): (s: seq<int>)
    ensures |s| == |ids|
    ensures forall i :: i in s <==> i in ids
    decreases |ids|
  {
    if ids == {} then []
    else
      var m := Max(ids);
      var rest := Sorted(ids - {m});
      assert forall i :: i in rest <==> i in ids - {m};
      rest + [m]
  }

  // --------------------------------------------------------------- bijection

  lemma RankBounds(ids: set<int>, id: int)
    requires id in ids
    ensures 1 <= Rank(ids, id) <= |ids|
  {
    assert UpTo(ids, id) <= ids;
    Smaller(UpTo(ids, id), ids);
    assert {id} <= UpTo(ids, id);
    Smaller({id}, UpTo(ids, id));
  }

  lemma Smaller(a: set<int>, b: set<int>)
    requires a <= b
    ensures |a| <= |b|
    ensures a != b ==> |a| < |b|
  {
    assert b == a + (b - a);
    if a != b {
      assert b - a != {};
    }
  }

  lemma RankIncreases(ids: set<int>, i: int, j: int)
    requires i in ids && j in ids
    ensures i < j <==> Rank(ids, i) < Rank(ids, j)
  {
    if i < j {
      assert j in UpTo(ids, j) && j !in UpTo(ids, i);
      Smaller(UpTo(ids, i), UpTo(ids, j));
    } else if j < i {
      assert i in UpTo(ids, i) && i !in UpTo(ids, j);
      Smaller(UpTo(ids, j), UpTo(ids, i));
    }
  }

  /** Rank and position in the sorted listing are the same thing. */
  lemma {:induction false} SortedRank(ids: set<int>, n: int)
    requires 0 <= n < |ids|
    ensures Sorted(ids)[n] in ids && Rank(ids, Sorted(ids)[n]) == n + 1
    decreases |ids|
  {
    var m := Max(ids);
    var rest := ids - {m};
    if n == |rest| {
      assert UpTo(ids, m) == ids;
    } else {
      SortedRank(rest, n);
      var id := Sorted(rest)[n];
      assert Sorted(ids)[n] == id;
      assert UpTo(ids, id) == UpTo(rest, id);
    }
  }

  /**
   MailIDForSeq and the seq of MailSelect are mutually inverse, strictly
   increasing bijections between 1..MailCount and the ids, and nothing lies
   outside.
   */
  lemma IndexIsBijection(ids: set<int>)
    ensures forall n :: 1 <= n <= |ids| <==> IdForSeq(ids, n).Some?
    ensures forall n :: 1 <= n <= |ids| ==>
      IdForSeq(ids, n).value in ids && Rank(ids, IdForSeq(ids, n).value) == n
    ensures forall id :: id in ids ==> 1 <= Rank(ids, id) <= |ids| && IdForSeq(ids, Rank(ids, id)) == Some(id)
    ensures forall m, n :: 1 <= m < n <= |ids| ==> IdForSeq(ids, m).value < IdForSeq(ids, n).value
  {
    forall n
      ensures 1 <= n <= |ids| <==> IdForSeq(ids, n).Some?
    {
      if 1 <= n <= |ids| {
        SortedRank(ids, n - 1);
      }
      if IdForSeq(ids, n).Some? {
        RankBounds(ids, IdForSeq(ids, n).value);
      }
    }
    forall id | id in ids
      ensures 1 <= Rank(ids, id) <= |ids| && IdForSeq(ids, Rank(ids, id)) == Some(id)
    {
      RankBounds(ids, id);
      var found := IdForSeq(ids, Rank(ids, id)).value;
      RankIncreases(ids, id, found);
      RankIncreases(ids, found, id);
    }
    forall m, n | 1 <= m < n <= |ids|
      ensures IdForSeq(ids, m).value < IdForSeq(ids, n).value
    {
      RankIncreases(ids, IdForSeq(ids, m).value, IdForSeq(ids, n).value);
    }
  }

  lemma NumberHasRow(ids: set<int>, n: int)
    requires 1 <= n <= |ids|
    ensures IdForSeq(ids, n).Some?
  {
    SortedRank(ids, n - 1);
  }

  /** MailSearch lists MailIDForSeq of 1, 2, ..., MailCount. */
  lemma SearchIsIndex(ids: set<int>, n: int)
    requires 1 <= n <= |ids|
    ensures IdForSeq(ids, n) == Some(Sorted(ids)[n - 1])
  {
    SortedRank(ids, n - 1);
    OnlyIdForSeq(ids, n, Sorted(ids)[n - 1]);
  }

  lemma OnlyIdForSeq(ids: set<int>, n: int, id: int)
    requires id in ids && Rank(ids, id) == n
    ensures IdForSeq(ids, n) == Some(id)
  {
    var found := IdForSeq(ids, n);
    assert found.Some?;
    RankIncreases(ids, id, found.value);
    RankIncreases(ids, found.value, id);
  }

  // ------------------------------------------------------------------ expunge

  /** The mails MailUnseen counts. */
  function UnseenIds(db: Db, mailbox: string): (ids: set<int>)
    ensures forall i :: i in ids <==> MailKey(mailbox, i) in db.mails && !db.mails[MailKey(mailbox, i)].flags.seen
  {
    set k | k in db.mails && k.mailbox == mailbox && !db.mails[k].flags.seen :: k.id
  }

  /** The ids an expunge of the mailbox removes. */
  function GoingIds(db: Db, mailbox: string): (ids: set<int>)
    ensures forall i :: i in ids <==> MailKey(mailbox, i) in db.mails && db.mails[MailKey(mailbox, i)].flags.deleted
  {
    set k | k in db.mails && Goes(db, mailbox, k) :: k.id
  }

  /**
   Expunge keeps each survivor's id, body, date and flags, lowers its sequence
   number by the number of removed mails with a smaller id, and lowers the count
   and the unseen count by the numbers removed; other mailboxes are untouched.
   */
  lemma ExpungeRenumbers(db: Db, mailbox: string)
    ensures var ids, ids' := Ids(db, mailbox), Ids(MailExpunge(db, mailbox), mailbox);
      && |ids'| == |ids| - |GoingIds(db, mailbox)|
      && (forall id :: id in ids' <==> id in ids && id !in GoingIds(db, mailbox))
      && (forall id :: id in ids' ==> Rank(ids', id) == Rank(ids, id) - |Below(GoingIds(db, mailbox), id)|)
    ensures |UnseenIds(MailExpunge(db, mailbox), mailbox)| ==
      |UnseenIds(db, mailbox)| - |GoingIds(db, mailbox) * UnseenIds(db, mailbox)|
    ensures forall k :: k in MailExpunge(db, mailbox).mails <==>
      k in db.mails && !(k.mailbox == mailbox && db.mails[k].flags.deleted)
    ensures forall k :: k in MailExpunge(db, mailbox).mails ==> MailExpunge(db, mailbox).mails[k] == db.mails[k]
  {
    var ids, ids', going := Ids(db, mailbox), Ids(MailExpunge(db, mailbox), mailbox), GoingIds(db, mailbox);
    ExpungeIds(db, mailbox);
    Removed(ids, going);
    forall id | id in ids'
      ensures Rank(ids', id) == Rank(ids, id) - |Below(going, id)|
    {
      RanksFall(ids, going, id);
    }
    Removed(UnseenIds(db, mailbox), going * UnseenIds(db, mailbox));
  }

  function Below(s: set<int>, id: int): set<int> {
    set i | i in s && i < id
  }

  lemma ExpungeIds(db: Db, mailbox: string)
    ensures Ids(MailExpunge(db, mailbox), mailbox) == Ids(db, mailbox) - GoingIds(db, mailbox)
    ensures GoingIds(db, mailbox) <= Ids(db, mailbox)
    ensures UnseenIds(MailExpunge(db, mailbox), mailbox) ==
      UnseenIds(db, mailbox) - GoingIds(db, mailbox) * UnseenIds(db, mailbox)
  {
    var db' := MailExpunge(db, mailbox);
    assert forall i :: i in GoingIds(db, mailbox) <==> Goes(db, mailbox, MailKey(mailbox, i));
    forall i
      ensures i in UnseenIds(db', mailbox) <==> i in UnseenIds(db, mailbox) && i !in GoingIds(db, mailbox)
    {
      var k := MailKey(mailbox, i);
      assert i in UnseenIds(db', mailbox) <==> k in db'.mails && !db'.mails[k].flags.seen;
      assert i in UnseenIds(db, mailbox) <==> k in db.mails && !db.mails[k].flags.seen;
    }
  }

  lemma RanksFall(ids: set<int>, going: set<int>, id: int)
    requires going <= ids && id in ids - going
    ensures Rank(ids - going, id) == Rank(ids, id) - |Below(going, id)|
  {
    assert UpTo(ids - going, id) == UpTo(ids, id) - Below(going, id);
    Removed(UpTo(ids, id), Below(going, id));
  }

  lemma Removed(a: set<int>, b: set<int>)
    requires b <= a
    ensures |a - b| == |a| - |b|
  {
    assert a == (a - b) + b;
  }
}

/**
 What a sequence set resolves to.  Bounds are unsigned 32-bit, resolved ids are
 truncated to signed 32-bit, and an open end is bounded by the largest UID.
 */
module SeqSets {
  import opened Base
  import opened Tables
  import opened Numbering

  const U32 := 0x1_0000_0000
  const LAST := 0xFFFF_FFFF

  type u32 = n: int | 0 <= n < 0x1_0000_0000

  function ToU32(n: int): u32 {
    n % U32
  }

  function ToI32(n: int): int {
    if n % U32 < 0x8000_0000 then n % U32 else n % U32 - U32
  }

  /** `start:stop`; stop 0 stands for `*`, and `*` alone is 0:0. */
  datatype Range = Range(start: u32, stop: u32)

  /** An open end becomes MailNextID - 1, in either mode. */
  function StopOf(ids: set<int>, r: Range): u32 {
    if r.stop == 0 then ToU32(NextAfter(ids) - 1) else r.stop
  }

  // ------------------------------------------------- what the loops compute

  ghost function IdFor(ids: set<int>, uid: bool, n: int): Option<int> {
    if uid then Some(n) else IdForSeq(ids, n)
  }

  /** Past the last 32-bit number the counter is 0, which has no row; by UID the loop goes round for ever. */
  function PastLast(uid: bool): Error {
    if uid then Endless else NoRows
  }

  /** From n up to stop. */
  ghost function ResolveFrom(ids: set<int>, uid: bool, n: u32, stop: u32): Reply<seq<int>>
    decreases stop - n
  {
    if n > stop then Ok([])
    else if IdFor(ids, uid, n).None? || n == LAST then Err(PastLast(uid))
    else
      var rest := ResolveFrom(ids, uid, n + 1, stop);
      if rest.Ok? then Ok([ToI32(IdFor(ids, uid, n).value)] + rest.value) else rest
  }

  ghost function Resolve(ids: set<int>, uid: bool, ranges: seq<Range>): Reply<seq<int>> {
    if ranges == [] then Ok([])
    else
      var first := ResolveFrom(ids, uid, ranges[0].start, StopOf(ids, ranges[0]));
      if first.Err? then first
      else
        var rest := Resolve(ids, uid, ranges[1..]);
        if rest.Ok? then Ok(first.value + rest.value) else rest
  }

  // -------------------------------------------------------- what they mean

  /** a, a + 1, ..., b. */
  function Numbers(a: int, b: int): (ns: seq<int>)
    ensures |ns| == (if a > b then 0 else b - a + 1) && forall j :: 0 <= j < |ns| ==> ns[j] == a + j
    ensures forall n :: n in ns <==> a <= n <= b
    decreases b - a + 1
  {
    if a > b then [] else [a] + Numbers(a + 1, b)
  }

  /** The numbers a set denotes, range by range in the order given. */
  function Denoted(ids: set<int>, ranges: seq<Range>): seq<int> {
    if ranges == [] then [] else Numbers(ranges[0].start, StopOf(ids, ranges[0])) + Denoted(ids, ranges[1..])
  }

  /** A set denotes what its parts denote, one after the other. */
  lemma {:induction false} DenotedJoins(ids: set<int>, first: seq<Range>, later: seq<Range>)
    ensures Denoted(ids, first + later) == Denoted(ids, first) + Denoted(ids, later)
  {
    if first == [] {
      assert first + later == later;
    } else {
      DenotedJoins(ids, first[1..], later);
      DenotedFirst(ids, first[0], first[1..]);
      DenotedFirst(ids, first[0], first[1..] + later);
      assert first == [first[0]] + first[1..];
      assert first + later == [first[0]] + (first[1..] + later);
      Associates(Denoted(ids, [first[0]]), Denoted(ids, first[1..]), Denoted(ids, later));
    }
  }

  lemma DenotedFirst(ids: set<int>, r: Range, later: seq<Range>)
    ensures Denoted(ids, [r] + later) == Denoted(ids, [r]) + Denoted(ids, later)
  {
    assert ([r] + later)[1..] == later;
    assert Denoted(ids, [r][1..]) == [];
  }

  /** One range denotes its numbers in ascending order; an open end is the largest UID, 0 in an empty mailbox. */
  lemma DenotedOne(ids: set<int>, r: Range)
    requires forall i :: i in ids ==> 1 <= i < LAST
    ensures Denoted(ids, [r]) == Numbers(r.start, if r.stop != 0 then r.stop else if ids == {} then 0 else Max(ids))
  {
    assert [r][1..] == [];
    if ids != {} {
      assert NextAfter(ids) - 1 in ids;
    }
  }

  /** Truncation keeps a number's residue, to 32 bits without a sign and with one. */
  lemma TruncationMeans(n: int)
    ensures (n - ToU32(n)) % U32 == 0 && (n - ToI32(n)) % U32 == 0
    ensures 0 <= ToU32(n) < U32 && -0x8000_0000 <= ToI32(n) < 0x8000_0000
  {
  }

  ghost predicate Found(ids: set<int>, uid: bool, n: int) {
    n != LAST && IdFor(ids, uid, n).Some?
  }

  ghost predicate AllFound(ids: set<int>, uid: bool, ns: seq<int>) {
    forall n :: n in ns ==> Found(ids, uid, n)
  }

  ghost function Mapped(ids: set<int>, uid: bool, ns: seq<int>): (r: seq<int>)
    requires AllFound(ids, uid, ns)
    ensures |r| == |ns|
  {
    seq(|ns|, j requires 0 <= j < |ns| => assert ns[j] in ns; ToI32(IdFor(ids, uid, ns[j]).value))
  }

  lemma {:induction false} ResolveFromMeans(ids: set<int>, uid: bool, n: u32, stop: u32)
    ensures var r := ResolveFrom(ids, uid, n, stop);
      && (r.Ok? <==> AllFound(ids, uid, Numbers(n, stop)))
      && (r.Err? ==> r.error == PastLast(uid))
      && (r.Ok? ==> r.value == Mapped(ids, uid, Numbers(n, stop)))
    decreases stop - n
  {
    if n <= stop {
      var ns := Numbers(n, stop);
      assert n in ns;
      if Found(ids, uid, n) {
        ResolveFromMeans(ids, uid, n + 1, stop);
        var rest := Numbers(n + 1, stop);
        assert ns == [n] + rest;
        assert forall k :: k in ns <==> k == n || k in rest;
      }
    }
  }

  /**
   The loops return the ranges' numbers mapped through the index, in order; by
   sequence they fail exactly when some number has no row, and by UID they never end
   exactly when some range reaches the last 32-bit number.
   */
  lemma {:induction false} ResolveMeans(ids: set<int>, uid: bool, ranges: seq<Range>)
    ensures var r := Resolve(ids, uid, ranges);
      && (r.Ok? <==> AllFound(ids, uid, Denoted(ids, ranges)))
      && (r.Err? ==> r.error == PastLast(uid))
      && (uid ==> (r.Err? <==> LAST in Denoted(ids, ranges)))
      && (r.Ok? ==> r.value == Mapped(ids, uid, Denoted(ids, ranges)))
  {
    if ranges != [] {
      ResolveFromMeans(ids, uid, ranges[0].start, StopOf(ids, ranges[0]));
      ResolveMeans(ids, uid, ranges[1..]);
      MappedConcat(ids, uid, Numbers(ranges[0].start, StopOf(ids, ranges[0])), Denoted(ids, ranges[1..]));
    }
  }

  lemma MappedConcat(ids: set<int>, uid: bool, a: seq<int>, b: seq<int>)
    ensures AllFound(ids, uid, a + b) <==> AllFound(ids, uid, a) && AllFound(ids, uid, b)
    ensures AllFound(ids, uid, a + b) ==> Mapped(ids, uid, a + b) == Mapped(ids, uid, a) + Mapped(ids, uid, b)
  {
    assert forall k :: k in a + b <==> k in a || k in b;
  }

  // --------------------------------------------------------------- open ends

  /** The mailbox's ids are 1, 2, ..., count: none was ever removed below the largest. */
  ghost predicate Dense(ids: set<int>) {
    forall i :: i in ids <==> 1 <= i <= |ids|
  }

  /** The numbers 1, 2, ..., n. */
  function OneTo(n: nat): (s: set<int>)
    ensures |s| == n && forall i :: i in s <==> 1 <= i <= n
  {
    if n == 0 then {} else OneTo(n - 1) + {n}
  }

  /** The largest UID is at least the number of mails, and equal to it only for dense ids. */
  lemma DenseIffMaxIsCount(ids: set<int>)
    requires forall i :: i in ids ==> i >= 1
    ensures |ids| <= NextAfter(ids) - 1
    ensures Dense(ids) <==> NextAfter(ids) - 1 == |ids|
  {
    var top := NextAfter(ids) - 1;
    assert ids <= OneTo(top);
    Smaller(ids, OneTo(top));
    if Dense(ids) && top >= 1 {
      assert top in ids;
    }
  }

  /** What `start:*` asks for in sequence mode: the mails from number start to the last. */
  ghost function Intended(ids: set<int>, start: u32): Reply<seq<int>>
    requires |ids| < LAST
  {
    ResolveFrom(ids, false, start, |ids|)
  }

  /**
   In sequence mode an open-ended range is bounded by the largest UID instead of
   the number of mails.  It resolves as intended exactly when it starts beyond the
   largest UID or the mailbox's ids are dense; otherwise it fails.
   */
  lemma OpenEndIsRightIff(ids: set<int>, start: u32)
    requires start >= 1 && (forall i :: i in ids ==> 1 <= i < LAST) && |ids| < LAST
    ensures Resolve(ids, false, [Range(start, 0)]) == Intended(ids, start) <==>
      start >= NextAfter(ids) || Dense(ids)
  {
    var top := NextAfter(ids) - 1;
    OpenResolves(ids, start, top);
    assert Dense(ids) <==> top == |ids| by { DenseIffMaxIsCount(ids); }
    assert |ids| <= top by { DenseIffMaxIsCount(ids); }
    OpenRange(ids, start, top);
  }

  lemma OpenResolves(ids: set<int>, start: u32, top: int)
    requires (forall i :: i in ids ==> 1 <= i < LAST) && top == NextAfter(ids) - 1
    ensures 0 <= top < LAST
    ensures Resolve(ids, false, [Range(start, 0)]) == ResolveFrom(ids, false, start, top)
  {
    OpenStop(ids, start);
    OneRange(ids, false, Range(start, 0));
  }

  lemma OpenStop(ids: set<int>, start: u32)
    requires forall i :: i in ids ==> 1 <= i < LAST
    ensures StopOf(ids, Range(start, 0)) == NextAfter(ids) - 1
    ensures 0 <= NextAfter(ids) - 1 < LAST
  {
  }

  lemma OpenRange(ids: set<int>, start: u32, top: u32)
    requires start >= 1 && |ids| <= top < LAST
    ensures ResolveFrom(ids, false, start, top) == Intended(ids, start) <==> start > top || top == |ids|
  {
    if start <= top && |ids| < top {
      OpenEndFails(ids, start, top);
    }
  }

  lemma OneRange(ids: set<int>, uid: bool, r: Range)
    ensures Resolve(ids, uid, [r]) == ResolveFrom(ids, uid, r.start, StopOf(ids, r))
  {
    assert [r][1..] == [];
    var first := ResolveFrom(ids, uid, r.start, StopOf(ids, r));
    if first.Ok? {
      assert first.value + [] == first.value;
    }
  }

  lemma OpenEndFails(ids: set<int>, start: u32, top: u32)
    requires 1 <= start <= top && |ids| < top < LAST
    ensures ResolveFrom(ids, false, start, top).Err? && Intended(ids, start).Ok?
  {
    IndexIsBijection(ids);
    ResolveFromMeans(ids, false, start, top);
    ResolveFromMeans(ids, false, start, |ids|);
    assert top in Numbers(start, top);
    forall n | n in Numbers(start, |ids|)
      ensures Found(ids, false, n)
    {
      assert 1 <= n <= |ids|;
    }
  }

  /**
   A bare `*` by UID resolves to every number from 0 to the largest UID.  It should
   select the last mail; it selects that one alone exactly when there is no other.
   */
  lemma UidStarIsRightIff(ids: set<int>)
    requires forall i :: i in ids ==> 1 <= i < 0x8000_0000
    ensures var r := Resolve(ids, true, [Range(0, 0)]);
      && r.Ok? && (forall i :: i in r.value <==> 0 <= i < NextAfter(ids))
      && ids <= (set i | i in r.value)
      && ((forall i :: i in ids && i in r.value ==> i == NextAfter(ids) - 1) <==> |ids| <= 1)
  {
    var top := NextAfter(ids) - 1;
    OneRange(ids, true, Range(0, 0));
    ResolveFromMeans(ids, true, 0, top);
    MappedUids(ids, Numbers(0, top));
    if |ids| <= 1 {
      OneAtMost(ids);
    } else {
      OneAtLeast(ids, top);
    }
  }

  lemma MappedUids(ids: set<int>, ns: seq<int>)
    requires forall n :: n in ns ==> 0 <= n < 0x8000_0000
    ensures AllFound(ids, true, ns) && Mapped(ids, true, ns) == ns
  {
    forall j | 0 <= j < |ns|
      ensures Mapped(ids, true, ns)[j] == ns[j]
    {
      assert ns[j] in ns;
    }
  }

  lemma OneAtMost(ids: set<int>)
    requires |ids| <= 1
    ensures forall i :: i in ids ==> i == NextAfter(ids) - 1
  {
    forall i | i in ids
      ensures i == NextAfter(ids) - 1
    {
      assert ids == {i} by {
        Smaller({i}, ids);
      }
    }
  }

  lemma OneAtLeast(ids: set<int>, top: int)
    requires |ids| > 1
    ensures exists i :: i in ids && i != top
  {
    if forall i :: i in ids ==> i == top {
      Smaller(ids, {top});
    }
  }

  /** A bare `*` in sequence mode starts at number 0 and so never resolves. */
  lemma StarNeverResolves(ids: set<int>)
    ensures Resolve(ids, false, [Range(0, 0)]) == Err(NoRows)
  {
    IndexIsBijection(ids);
    assert IdForSeq(ids, 0) == None;
  }
}

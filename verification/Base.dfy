/** Types shared by every component: bytes, optional values and results. */
module Base {
  newtype byte = x: int | 0 <= x < 256

  type Bytes = seq<byte>

  datatype Option<+T> = None | Some(value: T)

  /** The largest member of a non-empty finite set, as SQL's MAX computes it. */
  function Max(s: set<int>): (m: int)
    requires s != {}
    ensures IsMax(s, m)
  {
    MaxExists(s);
    var m :| IsMax(s, m);
    m
  }

  predicate IsMax(s: set<int>, m: int) {
    m in s && forall x :: x in s ==> x <= m
  }

  lemma {:induction false} MaxExists(s: set<int>)
    requires s != {}
    ensures exists m :: IsMax(s, m)
  {
    if forall x :: x !in s {
      assert false;
    }
    var y :| y in s;
    var rest := s - {y};
    assert forall x :: x in s <==> x == y || x in rest;
    if rest != {} {
      MaxExists(rest);
      var m :| IsMax(rest, m);
      assert IsMax(s, if m < y then y else m);
    } else {
      assert IsMax(s, y);
    }
  }

  /** `IFNULL(MAX(id)+1, 1)`: the id the next inserted mail receives. */
  function NextAfter(ids: set<int>): (n: int)
    ensures n !in ids && forall x :: x in ids ==> x < n
    ensures n == 1 || n - 1 in ids
  {
    if ids == {} then 1 else Max(ids) + 1
  }

  lemma Associates<T>(a: seq<T>, b: seq<T>, c: seq<T>)
    ensures (a + b) + c == a + (b + c)
  {
  }

  /** Some number not in use. */
  ghost function FreshId(used: set<nat>): (g: nat)
    ensures g !in used
  {
    NextAfter(set n: nat | n in used :: n as int)
  }
}

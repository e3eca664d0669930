/** Types shared by every module of the model. */
module Prelude {

  datatype Option<+T> = None | Some(value: T)

  datatype Result<+T> = Success(value: T) | Failure

  /** The elements of a sequence, as a set. */
  function Elements<T(!new)>(s: seq<T>): set<T> {
    set x | x in s
  }

  function Min(a: nat, b: nat): nat {
    if a < b then a else b
  }

  function Max(a: nat, b: nat): nat {
    if a < b then b else a
  }

  predicate Ascending(s: seq<nat>) {
    forall i, j :: 0 <= i < j < |s| ==> s[i] < s[j]
  }

  /** Redis sorted sets order blocks by score, and the score of a block is the block. */
  predicate IsMaximum(x: nat, s: set<nat>) {
    x in s && forall y :: y in s ==> y <= x
  }

  lemma {:induction false} MaximumExists(s: set<nat>) returns (m: nat)
    requires s != {}
    ensures IsMaximum(m, s)
    decreases |s|
  {
    var x :| x in s;
    if s == {x} {
      m := x;
    } else {
      var rest := s - {x};
      assert rest != {};
      var n := MaximumExists(rest);
      m := Max(x, n);
      assert forall y :: y in s ==> y == x || y in rest;
    }
  }

  lemma {:induction false} MinimumExists(s: set<nat>) returns (m: nat)
    requires s != {}
    ensures m in s && forall y :: y in s ==> m <= y
    decreases |s|
  {
    var x :| x in s;
    if s == {x} {
      m := x;
    } else {
      var rest := s - {x};
      assert rest != {};
      var n := MinimumExists(rest);
      m := Min(x, n);
      assert forall y :: y in s ==> y == x || y in rest;
    }
  }

  lemma {:induction false} SubsetCardinality<T>(a: set<T>, b: set<T>)
    requires a <= b
    ensures |a| <= |b|
    ensures |a| == |b| ==> a == b
  {
    assert b == a + (b - a);
    assert |b| == |a| + |b - a|;
  }
}

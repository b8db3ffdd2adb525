/** Option and Result types used throughout the model. */
module Wrappers {

  /** A value that may be absent (a JSON field left out, a `findOne` with no hit). */
  datatype Option<+T> = None | Some(value: T) {
    function GetOr(default: T): T {
      match this
      case Some(v) => v
      case None => default
    }
  }

  /** The outcome of a handler: a success value or the error it answers with. */
  datatype Result<+T, +E> = Ok(value: T) | Err(error: E)
}

/** Identifiers and instants shared by every collection. */
module Ids {
  /** A MongoDB ObjectId. */
  type Id = nat

  /** A `Date`, as milliseconds since the epoch. */
  type Time = int

  /** A finite set of integers holding `w` has a largest element. */
  lemma {:induction false} MaxExists(s: set<int>, w: int)
    requires w in s
    ensures exists m :: m in s && forall x :: x in s ==> x <= m
    decreases s
  {
    var rest := s - {w};
    if y :| y in rest {
      MaxExists(rest, y);
      var m :| m in rest && forall x :: x in rest ==> x <= m;
      assert s == rest + {w};
      var top := if m < w then w else m;
      assert top in s && forall x :: x in s ==> x <= top;
    } else {
      forall x | x in s
        ensures x <= w
      {
        assert x !in rest;
      }
    }
  }

  /** A set of integers with some element has a largest element. */
  lemma MaxOf(s: set<int>)
    requires exists x :: x in s
    ensures exists m :: m in s && forall x :: x in s ==> x <= m
  {
    var w :| w in s;
    MaxExists(s, w);
  }

  /** A finite set of integers holding `w` has a smallest element. */
  lemma {:induction false} MinExists(s: set<int>, w: int)
    requires w in s
    ensures exists m :: m in s && forall x :: x in s ==> m <= x
    decreases s
  {
    var rest := s - {w};
    if y :| y in rest {
      MinExists(rest, y);
      var m :| m in rest && forall x :: x in rest ==> m <= x;
      assert s == rest + {w};
      var low := if w < m then w else m;
      assert low in s && forall x :: x in s ==> low <= x;
    } else {
      forall x | x in s
        ensures w <= x
      {
        assert x !in rest;
      }
    }
  }

  /**
   * The document a `findOne` returns among several that match: the first in natural
   * order, which for ids handed out by FreshId is the smallest.
   */
  function FirstId(s: set<Id>): (r: Id)
    requires exists k :: k in s
    ensures r in s && forall k :: k in s ==> r <= k
  {
    var w :| w in s;
    MinExists(s, w);
    var m :| m in s && forall x :: x in s ==> m <= x;
    m
  }

  /** An ObjectId not yet used in a collection: one above every key in `keys`. */
  function FreshId(keys: set<Id>): (r: Id)
    ensures forall k :: k in keys ==> k < r
  {
    if !exists k :: k in keys then 0
    else
      MaxOf(keys);
      var m :| m in keys && forall j :: j in keys ==> j <= m;
      m + 1
  }
}

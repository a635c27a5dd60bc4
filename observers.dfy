/** The observer registry of one collection. Observer ids are counter values,
    and JavaScript enumerates such integer-like keys in ascending numeric
    order, so the registry is an ascending sequence and notifications go out
    in that order. */
module Observers {
  import opened Values
  import opened Protocol

  predicate Ascending(s: seq<nat>) {
    forall i, j :: 0 <= i < j < |s| ==> s[i] < s[j]
  }

  /** `_observers[name][id] = observer`. */
  function Insert(s: seq<nat>, x: nat): (r: seq<nat>)
    requires Ascending(s)
    ensures Ascending(r)
    ensures forall y :: y in r <==> y in s || y == x
  {
    if s == [] then [x]
    else if x < s[0] then [x] + s
    else if x == s[0] then s
    else
      var t := Insert(s[1..], x);
      assert forall i | 0 <= i < |t| :: t[i] in t;
      [s[0]] + t
  }

  /** `delete _observers[name][id]`. */
  function Remove(s: seq<nat>, x: nat): (r: seq<nat>)
    requires Ascending(s)
    ensures Ascending(r)
    ensures forall y :: y in r <==> y in s && y != x
  {
    if s == [] then []
    else if s[0] == x then
      assert forall y | y in s[1..] :: y != x by {
        forall y | y in s[1..] ensures y != x {
          var i :| 0 <= i < |s[1..]| && s[1..][i] == y;
          assert s[i + 1] == y;
        }
      }
      s[1..]
    else
      var t := Remove(s[1..], x);
      assert forall i | 0 <= i < |t| :: t[i] in t;
      [s[0]] + t
  }

  /** A fresh id is larger than every registered one, so registering it
      appends. */
  lemma {:induction false} InsertLargest(s: seq<nat>, x: nat)
    requires Ascending(s) && forall y | y in s :: y < x
    ensures Insert(s, x) == s + [x]
  {
    if s != [] {
      assert s[0] in s;
      assert forall y | y in s[1..] :: y in s;
      InsertLargest(s[1..], x);
      assert [s[0]] + (s[1..] + [x]) == s + [x];
    }
  }

  /** Stopping an observer undoes its registration. */
  lemma {:induction false} RemoveUndoesInsert(s: seq<nat>, x: nat)
    requires Ascending(s) && x !in s
    ensures Remove(Insert(s, x), x) == s
  {
    if s != [] && x > s[0] {
      RemoveUndoesInsert(s[1..], x);
      assert [s[0]] + s[1..] == s;
    }
  }

  /** One notification per registered observer, in registry order. */
  function Broadcast(observers: seq<nat>, n: Notice): (r: seq<Notification>)
    ensures |r| == |observers|
    ensures forall i | 0 <= i < |r| :: r[i] == Notification(observers[i], n)
  {
    if observers == [] then []
    else Broadcast(observers[..|observers| - 1], n) + [Notification(observers[|observers| - 1], n)]
  }
}

/** Values shared by every part of the model: optional values, the decoded
    field values a server sends, and two small facts about sequences. */
module Values {

  datatype Option<+T> = None | Some(value: T) {
    function GetOr(default: T): T {
      match this
      case Some(v) => v
      case None => default
    }
  }

  /** A decoded field value. The extended types of the wire codec (dates,
      binary) are not distinguished; numbers are integers. */
  datatype Value =
    | Null
    | Bool(b: bool)
    | Num(n: int)
    | Str(s: string)
    | Arr(items: seq<Value>)
    | Obj(entries: map<string, Value>)

  /** JavaScript truthiness of an optional string: absent and "" are false. */
  predicate Truthy(s: Option<string>) {
    s.Some? && s.value != ""
  }

  function SetOf<T>(s: seq<T>): set<T> {
    set x | x in s
  }

  predicate Distinct<T(==)>(s: seq<T>) {
    forall i, j :: 0 <= i < j < |s| ==> s[i] != s[j]
  }

  lemma SetOfPrepend<T>(x: T, s: seq<T>) ensures SetOf([x] + s) == {x} + SetOf(s)
  { assert forall y :: y in [x] + s <==> y == x || y in s; }

  lemma SetOfAppend<T>(s: seq<T>, x: T)
    ensures SetOf(s + [x]) == SetOf(s) + {x}
  {
    assert forall y :: y in s + [x] <==> y in s || y == x;
  }

  /** Removing the keys of a growing list one at a time. */
  lemma MapWithoutStep<K, V>(m: map<K, V>, s: seq<K>, x: K)
    ensures m - SetOf(s + [x]) == (m - SetOf(s)) - {x}
  {
    SetOfAppend(s, x);
  }

  lemma SetWithoutStep<T>(a: set<T>, s: seq<T>, x: T)
    ensures a - SetOf(s + [x]) == (a - SetOf(s)) - {x}
  {
    SetOfAppend(s, x);
  }

  /** A duplicate-free sequence has as many members as elements. */
  lemma {:induction false} DistinctCard<T>(s: seq<T>)
    requires Distinct(s)
    ensures |SetOf(s)| == |s|
  {
    if s != [] {
      assert SetOf(s) == {s[0]} + SetOf(s[1..]);
      assert s[0] !in SetOf(s[1..]);
      DistinctCard(s[1..]);
    }
  }

  /** A duplicate-free sequence of the members of a one-element set is
      that element alone. */
  lemma SingletonOrder<T>(s: seq<T>, x: T)
    requires SetOf(s) == {x} && Distinct(s)
    ensures s == [x]
  {
    DistinctCard(s);
    assert s[0] in SetOf(s);
  }
}

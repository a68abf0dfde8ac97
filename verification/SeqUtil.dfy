/** Options, the lesser and the greater of two numbers, and small facts about sequences. */
module SeqUtil {

  datatype Option<T> = None | Some(value: T)

  function Min(a: int, b: int): int { if a <= b then a else b }

  function Max(a: int, b: int): int { if a >= b then a else b }

  function InsertAt<T>(s: seq<T>, i: nat, x: T): (r: seq<T>)
    requires i <= |s|
    ensures |r| == |s| + 1 && r[i] == x
    ensures forall j :: 0 <= j < i ==> r[j] == s[j]
    ensures forall j :: i < j < |r| ==> r[j] == s[j - 1]
  {
    s[..i] + [x] + s[i..]
  }

  function RemoveAt<T>(s: seq<T>, i: nat): (r: seq<T>)
    requires i < |s|
    ensures |r| == |s| - 1
    ensures forall j :: 0 <= j < i ==> r[j] == s[j]
    ensures forall j :: i <= j < |r| ==> r[j] == s[j + 1]
  {
    s[..i] + s[i + 1..]
  }

  predicate Distinct<T(==)>(s: seq<T>) {
    forall i, j :: 0 <= i < j < |s| ==> s[i] != s[j]
  }

  function IndexOf<T(==)>(s: seq<T>, x: T): (i: nat)
    requires x in s
    ensures i < |s| && s[i] == x
  {
    if s[0] == x then 0 else 1 + IndexOf(s[1..], x)
  }

  function Without<T(==)>(s: seq<T>, x: T): (r: seq<T>)
    requires x in s
    ensures |r| == |s| - 1
  {
    RemoveAt(s, IndexOf(s, x))
  }

  lemma WithoutKeeps<T>(s: seq<T>, x: T)
    requires x in s && Distinct(s)
    ensures Distinct(Without(s, x))
    ensures forall y :: y in Without(s, x) <==> y in s && y != x
  {
    var i := IndexOf(s, x);
    var r := Without(s, x);
    forall y | y in s && y != x
      ensures y in r
    {
      var j :| 0 <= j < |s| && s[j] == y;
      assert j < i ==> r[j] == y;
      assert j > i ==> r[j - 1] == y;
    }
  }

  // Keys in strictly rising order, and in weakly rising order.
  ghost predicate Rising(s: seq<nat>, key: map<nat, int>) {
    && (forall x :: x in s ==> x in key)
    && forall i, j :: 0 <= i < j < |s| ==> key[s[i]] < key[s[j]]
  }

  ghost predicate Ordered(s: seq<nat>, key: map<nat, int>) {
    && (forall x :: x in s ==> x in key)
    && forall i, j :: 0 <= i < j < |s| ==> key[s[i]] <= key[s[j]]
  }

  lemma RisingDistinct(s: seq<nat>, key: map<nat, int>)
    requires Rising(s, key)
    ensures Distinct(s)
  {
  }

  lemma WithoutRising(s: seq<nat>, x: nat, key: map<nat, int>)
    requires x in s && Rising(s, key)
    ensures Rising(Without(s, x), key)
  {
  }

  lemma WithoutOrdered(s: seq<nat>, x: nat, key: map<nat, int>)
    requires x in s && Ordered(s, key)
    ensures Ordered(Without(s, x), key)
  {
  }

  lemma Appended<T>(s: seq<T>, x: T)
    requires Distinct(s) && x !in s
    ensures Distinct(s + [x])
  {
  }

  lemma Regrouped<T>(a: seq<T>, b: seq<T>, c: seq<T>)
    ensures (a + b) + c == a + (b + c)
  {
  }
}

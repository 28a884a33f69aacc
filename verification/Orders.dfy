/**
  Sets of identifiers listed in ascending order, as the program's sorted() does wherever a set
  leaves memory: in snapshots, in elicitation plans and in compiled artifacts.
 */
module Orders {

  predicate Ascending(s: seq<nat>) {
    forall i, j :: 0 <= i < j < |s| ==> s[i] < s[j]
  }

  function Elements<T>(s: seq<T>): set<T> {
    set x | x in s
  }

  ghost predicate IsLeast(m: nat, s: set<nat>) {
    m in s && forall x :: x in s ==> m <= x
  }

  lemma {:induction false} SetHasLeast(s: set<nat>) returns (m: nat)
    requires s != {}
    ensures IsLeast(m, s)
  {
    var k :| k in s;
    if s == {k} {
      m := k;
    } else {
      var n := SetHasLeast(s - {k});
      m := if k < n then k else n;
      forall x | x in s
        ensures m <= x
      {
        assert x == k || x in s - {k};
      }
    }
  }

  lemma SomeLeast(s: set<nat>)
    requires s != {}
    ensures exists m :: IsLeast(m, s)
  {
    var m := SetHasLeast(s);
  }

  function Least(s: set<nat>): (m: nat)
    requires s != {}
    ensures IsLeast(m, s)
  {
    SomeLeast(s);
    var m :| m in s && forall x :: x in s ==> m <= x;
    m
  }

  lemma PrependLeast(m: nat, rest: seq<nat>, s: set<nat>)
    requires IsLeast(m, s) && Ascending(rest) && Elements(rest) == s - {m}
    ensures Ascending([m] + rest) && Elements([m] + rest) == s
  {
    forall i | 0 <= i < |rest|
      ensures m < rest[i]
    {
      assert rest[i] in Elements(rest);
    }
    assert Elements([m] + rest) == {m} + Elements(rest);
  }

  function Sorted(s: set<nat>): (r: seq<nat>)
    ensures Ascending(r) && Elements(r) == s
  {
    if s == {} then [] else
      var m := Least(s);
      var rest := Sorted(s - {m});
      PrependLeast(m, rest, s);
      [m] + rest
  }

  lemma HeadIsLeast(a: seq<nat>)
    requires Ascending(a) && a != []
    ensures IsLeast(a[0], Elements(a))
    ensures Ascending(a[1..]) && Elements(a[1..]) == Elements(a) - {a[0]}
  {
    assert a == [a[0]] + a[1..];
    forall x | x in Elements(a)
      ensures a[0] <= x && (x in Elements(a[1..]) <==> x != a[0])
    {}
  }

  /** The ascending listing of a set is unique. */
  lemma {:induction false} AscendingIsUnique(a: seq<nat>, b: seq<nat>)
    requires Ascending(a) && Ascending(b) && Elements(a) == Elements(b)
    ensures a == b
  {
    assert forall i :: 0 <= i < |a| ==> a[i] in Elements(a);
    assert forall i :: 0 <= i < |b| ==> b[i] in Elements(b);
    if a != [] && b != [] {
      HeadIsLeast(a);
      HeadIsLeast(b);
      AscendingIsUnique(a[1..], b[1..]);
      assert a == [a[0]] + a[1..] && b == [b[0]] + b[1..];
    }
  }

  /** Listing again what is already listed changes nothing. */
  lemma SortedOfAscending(a: seq<nat>)
    requires Ascending(a)
    ensures Sorted(Elements(a)) == a
  {
    AscendingIsUnique(Sorted(Elements(a)), a);
  }

  function Insert(x: nat, s: seq<nat>): (r: seq<nat>)
    ensures Elements(r) == {x} + Elements(s) && |r| == |s| + 1
  {
    if s == [] || x <= s[0] then
      assert Elements([x] + s) == {x} + Elements(s);
      [x] + s
    else
      var rest := Insert(x, s[1..]);
      assert s == [s[0]] + s[1..];
      assert Elements(s) == {s[0]} + Elements(s[1..]);
      assert Elements([s[0]] + rest) == {s[0]} + Elements(rest);
      [s[0]] + rest
  }

  /** A list in ascending order, repetitions kept. */
  function SortedList(s: seq<nat>): (r: seq<nat>)
    ensures Elements(r) == Elements(s) && |r| == |s|
  {
    if s == [] then [] else
      assert Elements(s) == {s[0]} + Elements(s[1..]) by {
        assert s == [s[0]] + s[1..];
      }
      Insert(s[0], SortedList(s[1..]))
  }
}

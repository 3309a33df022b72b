/** The text order the ranking code uses for ties (`compareText`), and sorting by it. */
module Texts {

  /** `a < b` on strings: character by character, a proper prefix first. */
  predicate Less(a: string, b: string) {
    if b == [] then false
    else if a == [] then true
    else if a[0] != b[0] then a[0] < b[0]
    else Less(a[1..], b[1..])
  }

  lemma {:induction false} Trichotomy(a: string, b: string)
    ensures a == b || Less(a, b) || Less(b, a)
    ensures !(Less(a, b) && Less(b, a))
    ensures a == b ==> !Less(a, b)
  {
    if a != [] && b != [] && a[0] == b[0] {
      Trichotomy(a[1..], b[1..]);
      assert a == [a[0]] + a[1..] && b == [b[0]] + b[1..];
    }
  }

  lemma {:induction false} Transitive(a: string, b: string, c: string)
    requires Less(a, b) && Less(b, c)
    ensures Less(a, c)
  {
    if a != [] && b != [] && a[0] == b[0] && b[0] == c[0] {
      Transitive(a[1..], b[1..], c[1..]);
    }
  }

  ghost predicate Sorted(s: seq<string>) {
    forall i, j :: 0 <= i < j < |s| ==> Less(s[i], s[j])
  }

  /** `[...keys].sort(compareText)`: the keys in order, each once. */
  method SortedKeys(keys: set<string>) returns (s: seq<string>)
    ensures Sorted(s)
    ensures forall x :: x in s <==> x in keys
  {
    s := [];
    var left := keys;
    while left != {}
      invariant left <= keys
      invariant Sorted(s)
      invariant forall x :: x in s <==> x in keys - left
    {
      var k :| k in left;
      s := Insert(s, k);
      left := left - {k};
    }
  }

  method Insert(s: seq<string>, k: string) returns (r: seq<string>)
    requires Sorted(s) && k !in s
    ensures Sorted(r)
    ensures forall x :: x in r <==> x == k || x in s
  {
    var i := 0;
    while i < |s| && Less(s[i], k)
      invariant 0 <= i <= |s|
      invariant forall j :: 0 <= j < i ==> Less(s[j], k)
    {
      i := i + 1;
    }
    r := s[..i] + [k] + s[i..];
    forall j | i <= j < |s| ensures Less(k, s[j]) {
      Trichotomy(s[i], k);
      if i < j { Transitive(k, s[i], s[j]); }
    }
  }

  lemma PrefixGrows<T>(s: seq<T>, i: nat)
    requires i < |s|
    ensures s[..i + 1] == s[..i] + [s[i]]
    ensures multiset(s[..i + 1]) == multiset(s[..i]) + multiset{s[i]}
  {
    assert s[..i + 1] == s[..i] + [s[i]];
  }

  /** The order `sort` gives a set of keys. */
  ghost predicate Enumerates(order: seq<string>, keys: set<string>) {
    Sorted(order) && forall o :: o in order <==> o in keys
  }

  lemma {:induction false} EnumerationUnique(a: seq<string>, b: seq<string>, keys: set<string>)
    requires Enumerates(a, keys) && Enumerates(b, keys)
    ensures a == b
  {
    EnumerationEmpty(a, keys);
    EnumerationEmpty(b, keys);
    if a != [] {
      FirstIsLeast(a, b, keys);
      FirstIsLeast(b, a, keys);
      Trichotomy(a[0], b[0]);
      EnumerationTail(a, keys);
      EnumerationTail(b, keys);
      EnumerationUnique(a[1..], b[1..], keys - {a[0]});
      assert a == [a[0]] + a[1..] && b == [b[0]] + b[1..];
    }
  }

  lemma EnumerationEmpty(a: seq<string>, keys: set<string>)
    requires Enumerates(a, keys)
    ensures a == [] <==> keys == {}
  {
    if a != [] { assert a[0] in a; }
  }

  lemma FirstIsLeast(a: seq<string>, b: seq<string>, keys: set<string>)
    requires Enumerates(a, keys) && Enumerates(b, keys) && a != [] && b != []
    ensures a[0] == b[0] || Less(b[0], a[0])
  {
    assert a[0] in keys;
    var j :| 0 <= j < |b| && b[j] == a[0];
  }

  lemma EnumerationTail(a: seq<string>, keys: set<string>)
    requires Enumerates(a, keys) && a != []
    ensures Enumerates(a[1..], keys - {a[0]})
  {
    forall o ensures o in a[1..] <==> o in keys - {a[0]} {
      if o in a[1..] {
        var j :| 0 <= j < |a[1..]| && a[1..][j] == o;
        assert Less(a[0], a[j + 1]);
        Trichotomy(a[0], o);
        assert a[j + 1] in a;
      }
      if o in keys - {a[0]} {
        var j :| 0 <= j < |a| && a[j] == o;
        assert a[1..][j - 1] == o;
      }
    }
  }

  /** Every set of keys has its order. */
  ghost function Arrange(keys: set<string>): (order: seq<string>)
    ensures Enumerates(order, keys)
  {
    if keys == {} then []
    else
      var k := Least(keys);
      [k] + Arrange(keys - {k})
  }

  ghost function Least(keys: set<string>): (k: string)
    requires keys != {}
    ensures k in keys && forall j :: j in keys && j != k ==> Less(k, j)
  {
    var x :| x in keys;
    if keys - {x} == {} then
      assert forall j :: j in keys && j != x ==> j in keys - {x};
      x
    else
      var y := Least(keys - {x});
      Trichotomy(x, y);
      LeastOfTwo(keys, x, y);
      if Less(x, y) then x else y
  }

  lemma LeastOfTwo(keys: set<string>, x: string, y: string)
    requires x in keys && y in keys - {x} && forall j :: j in keys - {x} && j != y ==> Less(y, j)
    ensures var k := if Less(x, y) then x else y;
      forall j :: j in keys && j != k ==> Less(k, j)
  {
    Trichotomy(x, y);
    forall j | j in keys && j != x && j != y && Less(x, y) ensures Less(x, j) {
      assert j in keys - {x};
      Transitive(x, y, j);
    }
    forall j | j in keys && j != x && j != y && Less(y, x) ensures Less(y, j) { assert j in keys - {x}; }
  }
}

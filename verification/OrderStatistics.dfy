/** Order statistics behind the leader's commit rule. */
module OrderStatistics {

  /** Insertion of one value into an ascending sequence. */
  function Insert(s: seq<nat>, x: nat): (r: seq<nat>)
    ensures |r| == |s| + 1
    ensures multiset(r) == multiset(s) + multiset{x}
  {
    if s == [] then [x]
    else if x <= s[0] then [x] + s
    else
      assert s == [s[0]] + s[1..];
      [s[0]] + Insert(s[1..], x)
  }

  function Sort(s: seq<nat>): (r: seq<nat>)
    ensures |r| == |s|
    ensures multiset(r) == multiset(s)
  {
    if s == [] then []
    else
      assert s == [s[0]] + s[1..];
      Insert(Sort(s[1..]), s[0])
  }

  ghost predicate Ascending(s: seq<nat>) {
    forall i, j :: 0 <= i < j < |s| ==> s[i] <= s[j]
  }

  lemma {:induction false} InsertAscending(s: seq<nat>, x: nat)
    requires Ascending(s)
    ensures Ascending(Insert(s, x))
  {
    if s != [] && x > s[0] {
      InsertAscending(s[1..], x);
      var r := Insert(s[1..], x);
      forall j | 0 <= j < |r| ensures s[0] <= r[j] {
        assert r[j] in multiset(r);
        assert r[j] == x || r[j] in s[1..];
      }
    }
  }

  lemma {:induction false} SortAscending(s: seq<nat>)
    ensures Ascending(Sort(s))
  {
    if s != [] {
      SortAscending(s[1..]);
      InsertAscending(Sort(s[1..]), s[0]);
    }
  }

  lemma SameWithoutLast(a: seq<nat>, b: seq<nat>, m: nat)
    requires a != [] && b != [] && a[|a| - 1] == b[|b| - 1] == m && multiset(a) == multiset(b)
    ensures multiset(a[..|a| - 1]) == multiset(b[..|b| - 1])
  {
    assert a == a[..|a| - 1] + [m];
    assert b == b[..|b| - 1] + [m];
    assert multiset(a[..|a| - 1]) == multiset(a) - multiset{m};
    assert multiset(b[..|b| - 1]) == multiset(b) - multiset{m};
  }

  /** An ascending arrangement of a bag of values is unique, so the order in which a hash map
      yields its values cannot influence the sorted result. */
  lemma {:induction false} AscendingUnique(a: seq<nat>, b: seq<nat>)
    requires Ascending(a) && Ascending(b) && multiset(a) == multiset(b)
    ensures a == b
  {
    assert |a| == |multiset(a)| == |multiset(b)| == |b|;
    if a != [] {
      var m := a[|a| - 1];
      assert m in multiset(b);
      var n := b[|b| - 1];
      assert n in multiset(a);
      assert m == n;
      assert a == a[..|a| - 1] + [m];
      assert b == b[..|b| - 1] + [n];
      SameWithoutLast(a, b, m);
      AscendingUnique(a[..|a| - 1], b[..|b| - 1]);
    }
  }

  function CountAtLeast(s: seq<nat>, x: nat): (c: nat)
    ensures c <= |s|
  {
    if s == [] then 0 else (if s[0] >= x then 1 else 0) + CountAtLeast(s[1..], x)
  }

  lemma {:induction false} CountInsert(s: seq<nat>, x: nat, y: nat)
    ensures CountAtLeast(Insert(s, y), x) == CountAtLeast(s, x) + if y >= x then 1 else 0
  {
    if s != [] && y > s[0] {
      CountInsert(s[1..], x, y);
    }
  }

  lemma {:induction false} CountSort(s: seq<nat>, x: nat)
    ensures CountAtLeast(Sort(s), x) == CountAtLeast(s, x)
  {
    if s != [] {
      CountSort(s[1..], x);
      CountInsert(Sort(s[1..]), x, s[0]);
    }
  }

  lemma {:induction false} CountAppend(s: seq<nat>, y: nat, x: nat)
    ensures CountAtLeast(s + [y], x) == CountAtLeast(s, x) + if y >= x then 1 else 0
  {
    if s != [] {
      assert (s + [y])[1..] == s[1..] + [y];
      CountAppend(s[1..], y, x);
    }
  }

  /** In an ascending sequence, the values at position k and above are exactly enough to count
      those reaching s[k]; anything larger than s[k] is reached only strictly above k. */
  lemma {:induction false} CountAscending(s: seq<nat>, k: nat, x: nat)
    requires Ascending(s) && k < |s|
    ensures x <= s[k] ==> CountAtLeast(s, x) >= |s| - k
    ensures x > s[k] ==> CountAtLeast(s, x) <= |s| - k - 1
  {
    if k == 0 {
      if x <= s[0] {
        CountAll(s, x);
      } else {
        assert CountAtLeast(s, x) == CountAtLeast(s[1..], x);
      }
    } else {
      CountAscending(s[1..], k - 1, x);
    }
  }

  lemma {:induction false} CountAll(s: seq<nat>, x: nat)
    requires forall i :: 0 <= i < |s| ==> x <= s[i]
    ensures CountAtLeast(s, x) == |s|
  {
    if s != [] {
      CountAll(s[1..], x);
    }
  }

  predicate IsLeast(k: nat, s: set<nat>) {
    k in s && forall j :: j in s ==> k <= j
  }

  lemma {:induction false} LeastExists(s: set<nat>)
    requires s != {}
    ensures exists k :: IsLeast(k, s)
  {
    var x :| x in s;
    var rest := s - {x};
    if rest == {} {
      assert forall j :: j in s ==> j == x || j in rest;
      assert IsLeast(x, s);
    } else {
      LeastExists(rest);
      var k :| IsLeast(k, rest);
      LeastOf(s, x, k);
      assert IsLeast(x, s) || IsLeast(k, s);
    }
  }

  lemma LeastOf(s: set<nat>, x: nat, k: nat)
    requires x in s && IsLeast(k, s - {x})
    ensures IsLeast(if k <= x then k else x, s)
  {
    forall j | j in s ensures (if k <= x then k else x) <= j {
      assert j == x || j in s - {x};
    }
  }

  /** The least key of a non-empty set of keys. */
  function Least(s: set<nat>): (k: nat)
    requires s != {}
    ensures k in s && forall j :: j in s ==> k <= j
  {
    LeastExists(s);
    var k :| IsLeast(k, s);
    k
  }

  /** The values of a hash map over the given keys, in ascending key order. */
  function ValuesOver(m: map<nat, nat>, keys: set<nat>): (r: seq<nat>)
    requires keys <= m.Keys
    ensures |r| == |keys|
    decreases |keys|
  {
    if keys == {} then []
    else
      var k := Least(keys);
      [m[k]] + ValuesOver(m, keys - {k})
  }

  function ValuesOf(m: map<nat, nat>): (r: seq<nat>)
    ensures |r| == |m.Keys|
  {
    ValuesOver(m, m.Keys)
  }

  /** Taking any key out takes exactly its value out of the bag of values. */
  lemma {:induction false} ValuesRemove(m: map<nat, nat>, keys: set<nat>, k: nat)
    requires k in keys && keys <= m.Keys
    ensures multiset(ValuesOver(m, keys)) == multiset(ValuesOver(m, keys - {k})) + multiset{m[k]}
    decreases |keys|
  {
    hide ValuesOver;
    var l := Least(keys);
    var rest := keys - {l};
    ValuesFirst(m, keys, l);
    if l != k {
      ValuesRemove(m, rest, k);
      var less := keys - {k};
      assert less - {l} == rest - {k};
      ValuesFirst(m, less, l);
    }
  }

  /** The least key's value comes first. */
  lemma ValuesFirst(m: map<nat, nat>, keys: set<nat>, l: nat)
    requires keys <= m.Keys && l in keys && forall j :: j in keys ==> l <= j
    ensures multiset(ValuesOver(m, keys)) == multiset{m[l]} + multiset(ValuesOver(m, keys - {l}))
  {
    assert Least(keys) == l;
    assert ValuesOver(m, keys) == [m[l]] + ValuesOver(m, keys - {l});
  }

  function Reaching(m: map<nat, nat>, keys: set<nat>, x: nat): set<nat>
    requires keys <= m.Keys
  {
    set k | k in keys && m[k] >= x
  }

  /** Counting values that reach x is counting the keys whose value reaches x. */
  lemma {:induction false} ValuesCount(m: map<nat, nat>, keys: set<nat>, x: nat)
    requires keys <= m.Keys
    ensures CountAtLeast(ValuesOver(m, keys), x) == |Reaching(m, keys, x)|
    decreases |keys|
  {
    if keys != {} {
      var l := Least(keys);
      var rest := keys - {l};
      ValuesCount(m, rest, x);
      assert ValuesOver(m, keys) == [m[l]] + ValuesOver(m, rest);
      if m[l] >= x {
        assert Reaching(m, keys, x) == Reaching(m, rest, x) + {l};
      } else {
        assert Reaching(m, keys, x) == Reaching(m, rest, x);
      }
    }
  }
}

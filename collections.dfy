/** Sequence and map helpers shared by the store: the list comprehensions of
    the server are filters over the values of a dictionary in insertion order. */
module Collections {

  /** No element occurs twice. */
  predicate Distinct<T(==)>(s: seq<T>) {
    forall i, j :: 0 <= i < j < |s| ==> s[i] != s[j]
  }

  lemma DistinctAppend<T>(s: seq<T>, x: T)
    requires Distinct(s) && x !in s
    ensures Distinct(s + [x])
  {
  }

  /** `r` is obtained from `s` by deleting elements, keeping the order of the rest. */
  predicate IsSubsequence<T(==)>(r: seq<T>, s: seq<T>)
    decreases |s|
  {
    if r == [] then true
    else if s == [] then false
    else if r[0] == s[0] then IsSubsequence(r[1..], s[1..])
    else IsSubsequence(r, s[1..])
  }

  /** `[x for x in s if p(x)]`. */
  function Filter<T(==)>(s: seq<T>, p: T -> bool): (r: seq<T>)
    ensures |r| <= |s|
    ensures forall i :: 0 <= i < |r| ==> r[i] in s && p(r[i])
    ensures forall i :: 0 <= i < |s| && p(s[i]) ==> s[i] in r
  {
    if s == [] then []
    else if p(s[0]) then [s[0]] + Filter(s[1..], p)
    else Filter(s[1..], p)
  }

  lemma {:induction false} FilterIsSubsequence<T>(s: seq<T>, p: T -> bool)
    ensures IsSubsequence(Filter(s, p), s)
  {
    if s != [] {
      FilterIsSubsequence(s[1..], p);
      if !p(s[0]) {
        SubsequenceOfTail(Filter(s[1..], p), s);
      }
    }
  }

  lemma {:induction false} SubsequenceOfTail<T>(r: seq<T>, s: seq<T>)
    requires s != [] && IsSubsequence(r, s[1..])
    ensures IsSubsequence(r, s)
    decreases |r| + |s|
  {
    if r != [] && r[0] == s[0] {
      SubsequenceDropFirst(r, s[1..]);
    }
  }

  lemma {:induction false} SubsequenceDropFirst<T>(r: seq<T>, s: seq<T>)
    requires r != [] && IsSubsequence(r, s)
    ensures IsSubsequence(r[1..], s)
    decreases |r| + |s|
  {
    if r[0] == s[0] {
      SubsequenceOfTail(r[1..], s);
    } else {
      SubsequenceDropFirst(r, s[1..]);
      SubsequenceOfTail(r[1..], s);
    }
  }

  /** The values of `m` in the order given by the key sequence `ks`
      (`d.values()` when `ks` is the insertion order of dictionary `d`). */
  function ValuesInOrder<K, V>(ks: seq<K>, m: map<K, V>): (r: seq<V>)
    requires forall k :: k in ks ==> k in m
    ensures |r| == |ks|
    ensures forall i :: 0 <= i < |ks| ==> r[i] == m[ks[i]]
  {
    if ks == [] then [] else [m[ks[0]]] + ValuesInOrder(ks[1..], m)
  }

  lemma ValuesInOrderAreValues<K, V>(ks: seq<K>, m: map<K, V>)
    requires forall k :: k in ks <==> k in m
    ensures forall v :: v in ValuesInOrder(ks, m) <==> v in m.Values
  {
    var r := ValuesInOrder(ks, m);
    forall v | v in m.Values ensures v in r {
      var k :| k in m && m[k] == v;
      var i :| 0 <= i < |ks| && ks[i] == k;
      assert r[i] == v;
    }
  }

  /** The keys among `ks` whose value satisfies `p`. */
  ghost function KeysWhere<K, V>(ks: seq<K>, m: map<K, V>, p: V -> bool): set<K> {
    set k | k in ks && k in m && p(m[k])
  }

  /** The keys of `m` whose value satisfies `p`. */
  ghost function KeysSatisfying<K, V>(m: map<K, V>, p: V -> bool): set<K> {
    set k | k in m && p(m[k])
  }

  /** Filtering the values of distinct keys keeps one value per key that satisfies `p`. */
  lemma {:induction false} FilterCountsKeys<K, V>(ks: seq<K>, m: map<K, V>, p: V -> bool)
    requires Distinct(ks) && forall k :: k in ks ==> k in m
    ensures |Filter(ValuesInOrder(ks, m), p)| == |KeysWhere(ks, m, p)|
  {
    if ks != [] {
      var rest := ks[1..];
      assert Distinct(rest) by {
        forall i, j | 0 <= i < j < |rest| ensures rest[i] != rest[j] {
          assert rest[i] == ks[i + 1] && rest[j] == ks[j + 1];
        }
      }
      FilterCountsKeys(rest, m, p);
      var vs := ValuesInOrder(ks, m);
      assert vs[0] == m[ks[0]] && vs[1..] == ValuesInOrder(rest, m);
      assert ks[0] !in rest by {
        forall i | 0 <= i < |rest| ensures rest[i] != ks[0] {
          assert rest[i] == ks[i + 1];
        }
      }
      var head: set<K> := if p(m[ks[0]]) then {ks[0]} else {};
      assert KeysWhere(ks, m, p) == head + KeysWhere(rest, m, p) by {
        assert forall k :: k in ks <==> k == ks[0] || k in rest;
      }
      assert head !! KeysWhere(rest, m, p);
    }
  }

  /** Filtering the values of a map, taken in an order that lists every key
      once, keeps exactly the values that satisfy `p`, in that order, one per key. */
  lemma FilterOfValues<K, V>(ks: seq<K>, m: map<K, V>, p: V -> bool)
    requires Distinct(ks) && forall k :: k in ks <==> k in m
    ensures forall v :: v in Filter(ValuesInOrder(ks, m), p) <==> v in m.Values && p(v)
    ensures IsSubsequence(Filter(ValuesInOrder(ks, m), p), ValuesInOrder(ks, m))
    ensures |Filter(ValuesInOrder(ks, m), p)| == |KeysSatisfying(m, p)|
  {
    var vs := ValuesInOrder(ks, m);
    ValuesInOrderAreValues(ks, m);
    forall v | v in m.Values && p(v) ensures v in Filter(vs, p) {
      var i :| 0 <= i < |vs| && vs[i] == v;
    }
    FilterIsSubsequence(vs, p);
    FilterCountsKeys(ks, m, p);
    assert KeysWhere(ks, m, p) == KeysSatisfying(m, p);
  }

  /** Some string is not among finitely many: one longer than all of them. */
  lemma FreshStringExists(used: set<string>)
    ensures exists s: string :: s !in used
  {
    var n := MaxLength(used);
    var s: string := seq(n + 1, _ => 'x');
    assert s !in used;
  }

  ghost function MaxLength(strings: set<string>): (n: nat)
    ensures forall s :: s in strings ==> |s| <= n
    decreases strings
  {
    if strings == {} then 0
    else
      var s :| s in strings;
      var m := MaxLength(strings - {s});
      if |s| > m then |s| else m
  }
}

/**
 JavaScript's insertion-ordered `Map`, the array helpers the services use, and sums over a map's rows.
 */
module JsCollections {

  datatype Option<+T> = None | Some(value: T)

  /** A JavaScript `Map`: `keys` lists the keys in insertion order, `vals` holds the values. */
  datatype JsMap<K(==, !new), V> = JsMap(keys: seq<K>, vals: map<K, V>) {

    ghost predicate Valid() {
      && (forall i, j :: 0 <= i < j < |keys| ==> keys[i] != keys[j])
      && (forall k :: k in vals <==> k in keys)
    }

    function Get(k: K): Option<V> {
      if k in vals then Some(vals[k]) else None
    }

    /** Overwriting a key keeps its position; a new key goes to the end. */
    function Set(k: K, v: V): (m: JsMap<K, V>)
      ensures m.vals == vals[k := v]
      ensures Valid() ==> m.Valid()
    {
      if k in vals then JsMap(keys, vals[k := v]) else JsMap(keys + [k], vals[k := v])
    }

    function Delete(k: K): (m: JsMap<K, V>)
      ensures m.vals == vals - {k}
      ensures Valid() ==> m.Valid()
    {
      WithoutKeeps(keys, k);
      JsMap(Without(keys, k), vals - {k})
    }

    function Values(): (s: seq<V>)
      requires Valid()
      ensures |s| == |keys|
      ensures forall i :: 0 <= i < |s| ==> s[i] == vals[keys[i]]
    {
      seq(|keys|, i requires 0 <= i < |keys| => vals[keys[i]])
    }
  }

  function Empty<K(!new), V>(): (m: JsMap<K, V>)
    ensures m.Valid() && m.vals == map[]
  {
    JsMap([], map[])
  }

  function Without<T(==)>(s: seq<T>, x: T): seq<T> {
    if s == [] then []
    else if s[0] == x then Without(s[1..], x)
    else [s[0]] + Without(s[1..], x)
  }

  /** `Without` drops `x`, keeps everything else, and introduces no repetition. */
  lemma {:induction false} WithoutKeeps<T(!new)>(s: seq<T>, x: T)
    ensures forall y :: y in Without(s, x) <==> y in s && y != x
    ensures Distinct(s) ==> Distinct(Without(s, x))
  {
    if s != [] {
      WithoutKeeps(s[1..], x);
      assert s == [s[0]] + s[1..];
      var rest := Without(s[1..], x);
      if Distinct(s) {
        assert s[0] !in rest;
        assert forall j :: 1 <= j < |[s[0]] + rest| ==> ([s[0]] + rest)[j] == rest[j - 1];
      }
    }
  }

  ghost predicate Distinct<T(!new)>(s: seq<T>) {
    forall i, j :: 0 <= i < j < |s| ==> s[i] != s[j]
  }

  function Filter<T(!new)>(s: seq<T>, p: T -> bool): (r: seq<T>)
    ensures forall x :: x in r <==> x in s && p(x)
    ensures |r| <= |s|
  {
    if s == [] then []
    else
      assert s == [s[0]] + s[1..];
      (if p(s[0]) then [s[0]] else []) + Filter(s[1..], p)
  }

  lemma {:induction false} FilterEmpty<T(!new)>(s: seq<T>, p: T -> bool)
    requires forall x :: x in s ==> !p(x)
    ensures Filter(s, p) == []
  {
    if s != [] {
      assert s[0] in s && forall x :: x in s[1..] ==> x in s;
      FilterEmpty(s[1..], p);
    }
  }

  lemma {:induction false} FilterDistinct<T(!new)>(s: seq<T>, p: T -> bool)
    requires Distinct(s)
    ensures Distinct(Filter(s, p))
  {
    if s != [] {
      FilterDistinct(s[1..], p);
      assert s[0] !in s[1..];
    }
  }

  /** A predicate and its negation split a sequence between them. */
  lemma {:induction false} FilterComplement<T(!new)>(s: seq<T>, p: T -> bool, q: T -> bool)
    requires forall x :: q(x) <==> !p(x)
    ensures |Filter(s, p)| + |Filter(s, q)| == |s|
  {
    if s != [] {
      FilterComplement(s[1..], p, q);
    }
  }

  lemma {:induction false} FilterConcat<T(!new)>(a: seq<T>, b: seq<T>, p: T -> bool)
    ensures Filter(a + b, p) == Filter(a, p) + Filter(b, p)
  {
    if a == [] {
      assert a + b == b;
    } else {
      assert (a + b)[1..] == a[1..] + b;
      FilterConcat(a[1..], b, p);
    }
  }

  lemma FilterOneMore<T(!new)>(s: seq<T>, x: T, p: T -> bool)
    ensures Filter(s + [x], p) == Filter(s, p) + if p(x) then [x] else []
  {
    FilterConcat(s, [x], p);
    assert Filter([x][1..], p) == [];
  }

  /** `array.findIndex` and `array.find`: the first element that satisfies `p`. */
  function FindFirst<T(!new)>(s: seq<T>, p: T -> bool): (r: Option<T>)
    ensures r.Some? ==> r.value in s && p(r.value)
    ensures r.None? <==> forall x :: x in s ==> !p(x)
  {
    if s == [] then None
    else if p(s[0]) then Some(s[0])
    else
      assert s == [s[0]] + s[1..];
      FindFirst(s[1..], p)
  }

  /** Nothing before it satisfies `p`. */
  lemma {:induction false} FindFirstIsFirst<T(!new)>(s: seq<T>, p: T -> bool)
    ensures FindFirst(s, p).Some? ==>
      exists i :: 0 <= i < |s| && s[i] == FindFirst(s, p).value && forall j :: 0 <= j < i ==> !p(s[j])
  {
    if s != [] && !p(s[0]) && FindFirst(s, p).Some? {
      FindFirstIsFirst(s[1..], p);
      var i :| 0 <= i < |s| - 1 && s[1..][i] == FindFirst(s, p).value && forall j :: 0 <= j < i ==> !p(s[1..][j]);
      assert s[i + 1] == FindFirst(s, p).value && forall j :: 0 <= j < i + 1 ==> !p(s[j]) by {
        forall j | 0 <= j < i + 1
          ensures !p(s[j])
        {
          assert j > 0 ==> s[j] == s[1..][j - 1];
        }
      }
    } else if s != [] && p(s[0]) {
      assert s[0] == FindFirst(s, p).value;
    }
  }

  function Min(a: int, b: int): int {
    if a <= b then a else b
  }

  /** `s.slice(0, limit)` and `s.slice(limit)` cut at the same place, for negative limits too. */
  function SliceCut(n: nat, limit: int): (k: nat)
    ensures k <= n
  {
    if limit >= 0 then Min(limit, n) else if n + limit >= 0 then n + limit else 0
  }

  /** The sum of `w` over the rows of a map, in key order. */
  function SumRows<K, V>(keys: seq<K>, vals: map<K, V>, w: V -> nat): nat
    requires forall k :: k in keys ==> k in vals
  {
    if keys == [] then 0
    else SumRows(keys[..|keys| - 1], vals, w) + w(vals[keys[|keys| - 1]])
  }

  lemma {:induction false} SumRowsFrame<K, V>(keys: seq<K>, vals: map<K, V>, vals': map<K, V>, w: V -> nat)
    requires forall k :: k in keys ==> k in vals && k in vals' && vals[k] == vals'[k]
    ensures SumRows(keys, vals, w) == SumRows(keys, vals', w)
  {
    if keys != [] {
      SumRowsFrame(keys[..|keys| - 1], vals, vals', w);
    }
  }

  /** Setting one row moves the sum by exactly the difference of the two rows. */
  lemma {:induction false} SumRowsSet<K(!new), V>(m: JsMap<K, V>, k: K, v: V, w: V -> nat)
    requires m.Valid()
    ensures
      var before := if k in m.vals then w(m.vals[k]) else 0;
      SumRows(m.Set(k, v).keys, m.Set(k, v).vals, w) + before == SumRows(m.keys, m.vals, w) + w(v)
  {
    var m' := m.Set(k, v);
    if k in m.vals {
      SumRowsPoint(m.keys, m.vals, k, v, w);
    } else {
      assert m'.keys[..|m'.keys| - 1] == m.keys;
      SumRowsFrame(m.keys, m.vals, m'.vals, w);
    }
  }

  lemma {:induction false} SumRowsPoint<K(!new), V>(keys: seq<K>, vals: map<K, V>, k: K, v: V, w: V -> nat)
    requires Distinct(keys) && k in keys
    requires forall x :: x in keys ==> x in vals
    ensures SumRows(keys, vals[k := v], w) + w(vals[k]) == SumRows(keys, vals, w) + w(v)
  {
    var n := |keys| - 1;
    assert keys == keys[..n] + [keys[n]];
    if keys[n] == k {
      SumRowsFrame(keys[..n], vals, vals[k := v], w);
    } else {
      SumRowsPoint(keys[..n], vals, k, v, w);
    }
  }

  /** One step of a conservation argument: a queue before, what enters, what leaves, the queue after. */
  lemma Splice<T>(q: seq<T>, e: seq<T>, p: seq<T>, q1: seq<T>, rest: seq<T>, prest: seq<T>, end: seq<T>)
    requires q + e == p + q1 && q1 + rest == prest + end
    ensures q + (e + rest) == (p + prest) + end
  {
    assert q + (e + rest) == (p + q1) + rest;
    assert (p + prest) + end == p + (q1 + rest);
  }
}

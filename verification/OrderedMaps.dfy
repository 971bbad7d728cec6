/** A JavaScript `Map`: lookup plus insertion order. The gateway builds its
    caches on that order: deleting and re-setting a key makes it the newest one,
    and evicting `keys().next()` removes the least recently touched one. */
module OrderedMaps {

  datatype Option<+T> = None | Some(value: T)

  ghost predicate Distinct<K>(s: seq<K>)
  {
    forall i, j :: 0 <= i < j < |s| ==> s[i] != s[j]
  }

  /** The elements of `s` other than `k`, in order. */
  function Without<K(==)>(s: seq<K>, k: K): (r: seq<K>)
    ensures |r| <= |s|
    ensures forall x :: x in r ==> x in s && x != k
    ensures forall x :: x in s && x != k ==> x in r
    ensures k !in s ==> r == s
  {
    if s == [] then [] else
    var rest := Without(s[1..], k);
    if s[0] == k then rest else [s[0]] + rest
  }

  lemma {:induction false} WithoutDistinct<K>(s: seq<K>, k: K)
    requires Distinct(s)
    ensures Distinct(Without(s, k))
    ensures k in s ==> |Without(s, k)| == |s| - 1
  {
    if s == [] {
    } else {
      var rest := Without(s[1..], k);
      WithoutDistinct(s[1..], k);
      assert s[0] !in s[1..];
      assert s[0] !in rest;
      assert Without(s, k) == if s[0] == k then rest else [s[0]] + rest;
    }
  }

  lemma {:induction false} WithoutConcat<K>(a: seq<K>, b: seq<K>, k: K)
    ensures Without(a + b, k) == Without(a, k) + Without(b, k)
  {
    if a == [] {
      assert a + b == b;
    } else {
      assert (a + b)[1..] == a[1..] + b;
      WithoutConcat(a[1..], b, k);
    }
  }

  /** The last `n` elements, or all of them when there are fewer. */
  function TakeLast<K>(s: seq<K>, n: nat): (r: seq<K>)
    ensures |r| == if |s| < n then |s| else n
    ensures forall x :: x in r ==> x in s
    ensures Distinct(s) ==> Distinct(r)
  {
    if |s| <= n then s else s[|s| - n..]
  }

  datatype OrderedMap<K(==), V> = OrderedMap(keys: seq<K>, vals: map<K, V>) {
    ghost predicate Valid() {
      && Distinct(keys)
      && (forall k :: k in keys ==> k in vals)
      && (forall k :: k in vals ==> k in keys)
    }

    predicate Has(k: K) { k in vals }

    /** Map.prototype.delete */
    function Delete(k: K): OrderedMap<K, V>
    {
      OrderedMap(Without(keys, k), vals - {k})
    }

    /** Map.prototype.set: a key that is already present keeps its place. */
    function Set(k: K, v: V): OrderedMap<K, V>
    {
      OrderedMap(if k in vals then keys else keys + [k], vals[k := v])
    }

    /** delete followed by set: `k` becomes the newest key. */
    function Touch(k: K, v: V): OrderedMap<K, V>
    {
      Delete(k).Set(k, v)
    }

    /** delete(keys().next().value) */
    function DropOldest(): OrderedMap<K, V>
      requires keys != []
    {
      OrderedMap(keys[1..], vals - {keys[0]})
    }

    /** Evict oldest keys until at most `limit` remain. */
    function Trim(limit: nat): OrderedMap<K, V>
      decreases |keys|
    {
      if |keys| <= limit then this else DropOldest().Trim(limit)
    }
  }

  function Empty<K(==), V>(): OrderedMap<K, V>
  {
    OrderedMap([], map[])
  }

  lemma DeleteKeepsValid<K, V>(m: OrderedMap<K, V>, k: K)
    requires m.Valid()
    ensures m.Delete(k).Valid()
    ensures |m.Delete(k).keys| == if k in m.vals then |m.keys| - 1 else |m.keys|
  {
    WithoutDistinct(m.keys, k);
  }

  lemma TouchMovesToEnd<K, V>(m: OrderedMap<K, V>, k: K, v: V)
    requires m.Valid()
    ensures m.Touch(k, v).Valid()
    ensures m.Touch(k, v).keys == Without(m.keys, k) + [k]
    ensures m.Touch(k, v).vals == m.vals[k := v]
  {
    DeleteKeepsValid(m, k);
    AddKeepsValid(m.Delete(k), k, v);
    assert (m.vals - {k})[k := v] == m.vals[k := v];
  }

  lemma AddKeepsValid<K, V>(m: OrderedMap<K, V>, k: K, v: V)
    requires m.Valid() && k !in m.vals
    ensures m.Set(k, v).Valid() && m.Set(k, v).keys == m.keys + [k]
  {
    assert k !in m.keys;
  }

  /** Trimming keeps the newest keys and their values. */
  lemma {:induction false} TrimKeepsNewest<K, V>(m: OrderedMap<K, V>, limit: nat)
    requires m.Valid()
    ensures m.Trim(limit).Valid()
    ensures m.Trim(limit).keys == TakeLast(m.keys, limit)
    ensures forall k :: k in m.Trim(limit).vals ==> k in m.vals && m.Trim(limit).vals[k] == m.vals[k]
    decreases |m.keys|
  {
    if |m.keys| > limit {
      var less := m.DropOldest();
      assert less.Valid() by {
        assert m.keys[0] !in m.keys[1..];
      }
      TrimKeepsNewest(less, limit);
    }
  }

  /** The eviction loop `while (size > limit) delete(keys().next().value)`. */
  method EvictOldest<K(==), V>(m: OrderedMap<K, V>, limit: nat) returns (r: OrderedMap<K, V>)
    ensures r == m.Trim(limit)
  {
    r := m;
    while |r.keys| > limit
      invariant r.Trim(limit) == m.Trim(limit)
      decreases |r.keys|
    {
      r := r.DropOldest();
    }
  }

  // ---- Least recently used ----

  /** The keys of a touch history, each once, by last use. */
  ghost function Recency<K>(history: seq<K>): (r: seq<K>)
    ensures Distinct(r)
    ensures forall k :: k in r ==> k in history
    ensures forall k :: k in history ==> k in r
  {
    if history == [] then [] else
    var last := history[|history| - 1];
    assert history == history[..|history| - 1] + [last];
    WithoutDistinct(Recency(history[..|history| - 1]), last);
    Without(Recency(history[..|history| - 1]), last) + [last]
  }

  /** What a cache of `capacity` keys holds after touching a history of keys
      one by one, evicting after each touch. */
  function LruKeys<K(==)>(history: seq<K>, capacity: nat): (r: seq<K>)
    ensures |r| <= capacity
  {
    if history == [] then [] else
    var last := history[|history| - 1];
    TakeLast(Without(LruKeys(history[..|history| - 1], capacity), last) + [last], capacity)
  }

  /** Truncating before a touch does not change what the touch keeps. */
  lemma TouchTruncated<K>(a: seq<K>, b: seq<K>, k: K)
    requires Distinct(a + b)
    requires b != []
    ensures TakeLast(Without(b, k) + [k], |b|) == TakeLast(Without(a + b, k) + [k], |b|)
  {
    WithoutConcat(a, b, k);
    BlockDistinct(a, b);
    WithoutDistinct(b, k);
    TakeLastOfTail(Without(a, k), Without(b, k), k, |b|);
  }

  lemma BlockDistinct<K>(a: seq<K>, b: seq<K>)
    requires Distinct(a + b)
    ensures Distinct(a) && Distinct(b)
    ensures forall x :: x in a ==> x !in b
  {
    forall i, j | 0 <= i < |a| && 0 <= j < |b| ensures a[i] != b[j] {
      assert (a + b)[i] == a[i] && (a + b)[|a| + j] == b[j];
    }
    assert forall i :: 0 <= i < |b| ==> b[i] == (a + b)[|a| + i];
    assert forall i :: 0 <= i < |a| ==> a[i] == (a + b)[i];
  }

  lemma TakeLastOfTail<K>(a: seq<K>, b: seq<K>, k: K, n: nat)
    requires n <= |b| + 1
    ensures TakeLast(a + b + [k], n) == TakeLast(b + [k], n)
  {
    assert a + b + [k] == a + (b + [k]);
  }

  /** Incremental eviction keeps exactly the most recently used keys. */
  lemma {:induction false} LruKeepsMostRecent<K>(history: seq<K>, capacity: nat)
    requires capacity > 0
    ensures LruKeys(history, capacity) == TakeLast(Recency(history), capacity)
  {
    if history == [] {
    } else {
      var init, last := history[..|history| - 1], history[|history| - 1];
      LruKeepsMostRecent(init, capacity);
      var r := Recency(init);
      if |r| > capacity {
        assert r == r[..|r| - capacity] + r[|r| - capacity..];
        TouchTruncated(r[..|r| - capacity], r[|r| - capacity..], last);
      }
    }
  }

  /** The distinct keys touched after the last touch of `k`. */
  ghost function Since<K>(history: seq<K>, k: K): set<K>
  {
    if history == [] || history[|history| - 1] == k then {}
    else Since(history[..|history| - 1], k) + {history[|history| - 1]}
  }

  ghost function Elements<K>(s: seq<K>): set<K> { set k | k in s }

  lemma {:induction false} DistinctCardinality<K>(s: seq<K>)
    requires Distinct(s)
    ensures |Elements(s)| == |s|
  {
    if s == [] {
    } else {
      var init, last := s[..|s| - 1], s[|s| - 1];
      DistinctCardinality(init);
      assert s == init + [last];
      assert Elements(s) == Elements(init) + {last};
      assert last !in init;
    }
  }

  lemma {:induction false} SubsetCardinality<T>(a: set<T>, b: set<T>)
    requires a <= b
    ensures |a| <= |b|
  {
    if a == {} {
    } else {
      var x :| x in a;
      SubsetCardinality(a - {x}, b - {x});
    }
  }

  /** In recency order, what follows `k` is what was touched since `k`. */
  lemma {:induction false} RecencySuffix<K>(history: seq<K>, k: K) returns (before: seq<K>, after: seq<K>)
    requires k in history
    ensures Recency(history) == before + [k] + after
    ensures Elements(after) == Since(history, k)
  {
    var init, last := history[..|history| - 1], history[|history| - 1];
    assert history == init + [last];
    if last == k {
      before, after := Without(Recency(init), k), [];
    } else {
      var p, q := RecencySuffix(init, k);
      WithoutMiddle(p, k, q, last);
      before, after := Without(p, last), Without(q, last) + [last];
      assert before + [k] + after == before + [k] + Without(q, last) + [last];
    }
  }

  lemma WithoutMiddle<K>(p: seq<K>, k: K, q: seq<K>, x: K)
    requires x != k
    ensures Without(p + [k] + q, x) == Without(p, x) + [k] + Without(q, x)
  {
    WithoutConcat(p + [k], q, x);
    WithoutConcat(p, [k], x);
    assert [k][1..] == [];
  }

  /** A touched key is missing from the cache exactly when at least `capacity`
      other keys have been touched since. */
  lemma EvictedExactlyWhenCrowdedOut<K>(history: seq<K>, k: K, capacity: nat)
    requires capacity > 0 && k in history
    ensures k in LruKeys(history, capacity) <==> |Since(history, k)| < capacity
  {
    LruKeepsMostRecent(history, capacity);
    var before, after := RecencySuffix(history, k);
    InLastIff(before, k, after, capacity);
    assert Distinct(after) by { BlockDistinct(before + [k], after); }
    DistinctCardinality(after);
  }

  lemma InLastIff<K>(before: seq<K>, k: K, after: seq<K>, n: nat)
    requires Distinct(before + [k] + after)
    ensures k in TakeLast(before + [k] + after, n) <==> |after| < n
  {
    var r := before + [k] + after;
    var kept := TakeLast(r, n);
    if |after| < n {
      assert r[|before|] == k;
      assert |r| > n ==> kept[|before| - (|r| - n)] == r[|before|];
    } else {
      forall i | 0 <= i < |kept| ensures kept[i] != k {
        assert kept[i] == r[|r| - n + i];
        assert r[|before|] == k;
      }
    }
  }
}

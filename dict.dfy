/**
 * A Go map with string keys, as an association list. Keys are unique in
 * every map the recorder builds, and `range` visits the entries in list
 * order, which is the order in which the keys were first assigned.
 */
module Dict {
  import opened Wrappers

  type Dict<V> = seq<(string, V)>

  predicate HasKey<V>(d: Dict<V>, k: string) {
    exists i :: 0 <= i < |d| && d[i].0 == k
  }

  predicate DistinctKeys<V>(d: Dict<V>) {
    forall i, j :: 0 <= i < j < |d| ==> d[i].0 != d[j].0
  }

  /** `v, ok := d[k]`. */
  function Lookup<V>(d: Dict<V>, k: string): (r: Option<V>)
    ensures r.Some? <==> HasKey(d, k)
    ensures r.Some? ==> exists i :: 0 <= i < |d| && d[i] == (k, r.value)
  {
    if d == [] then None
    else if d[0].0 == k then Some(d[0].1)
    else
      HasKeyTail(d, k);
      Lookup(d[1..], k)
  }

  /**
   * Past a first entry with another key, `k` is in the list exactly when it is
   * in the tail. Dafny proves it unaided; it is stated separately so that
   * `Lookup`'s recursive case can refer to it.
   */
  lemma HasKeyTail<V>(d: Dict<V>, k: string)
    requires d != [] && d[0].0 != k
    ensures HasKey(d, k) <==> HasKey(d[1..], k)
  {
  }

  /** `d[k]` with Go's zero value for a missing key. */
  function GetOr<V>(d: Dict<V>, k: string, zero: V): (r: V)
    ensures HasKey(d, k) ==> exists i :: 0 <= i < |d| && d[i] == (k, r)
    ensures !HasKey(d, k) ==> r == zero
  {
    match Lookup(d, k)
    case Some(v) => v
    case None => zero
  }

  /**
   * `d[k] = v`: the entry for `k` is overwritten in place, or a new entry is
   * added after the others when `k` is absent.
   */
  function Put<V>(d: Dict<V>, k: string, v: V): (r: Dict<V>)
    ensures |d| <= |r| <= |d| + 1
  {
    if d == [] then [(k, v)]
    else if d[0].0 == k then [(k, v)] + d[1..]
    else [d[0]] + Put(d[1..], k, v)
  }

  /**
   * Assignment keeps every key where it was and leaves the entries of other
   * keys alone; a new key can only be the last entry.
   */
  lemma {:induction false} PutInPlace<V>(d: Dict<V>, k: string, v: V)
    ensures forall i :: 0 <= i < |d| ==>
      Put(d, k, v)[i].0 == d[i].0 && (d[i].0 != k ==> Put(d, k, v)[i] == d[i])
    ensures |Put(d, k, v)| == |d| + 1 ==> Put(d, k, v)[|d|] == (k, v)
  {
    if d != [] && d[0].0 != k {
      PutInPlace(d[1..], k, v);
      var r := Put(d, k, v);
      forall i | 0 <= i < |d| ensures r[i].0 == d[i].0 && (d[i].0 != k ==> r[i] == d[i]) {
        if i > 0 {
          assert r[i] == Put(d[1..], k, v)[i - 1] && d[i] == d[1..][i - 1];
        }
      }
    }
  }

  /** After `d[k] = v`, reading `k` gives `v` and every other key reads as before. */
  lemma {:induction false} PutLookup<V>(d: Dict<V>, k: string, v: V, k': string)
    ensures Lookup(Put(d, k, v), k') == if k' == k then Some(v) else Lookup(d, k')
  {
    if d != [] && d[0].0 != k {
      PutLookup(d[1..], k, v, k');
    }
  }

  /** Assigning a key the map does not hold adds one entry after all the others. */
  lemma {:induction false} PutAbsent<V>(d: Dict<V>, k: string, v: V)
    requires !HasKey(d, k)
    ensures Put(d, k, v) == d + [(k, v)]
  {
    if d != [] {
      HasKeyTail(d, k);
      PutAbsent(d[1..], k, v);
    }
  }

  /** The keys of `Put(d, k, v)` are those of `d` plus `k`. */
  lemma {:induction false} PutKeys<V>(d: Dict<V>, k: string, v: V, x: string)
    ensures HasKey(Put(d, k, v), x) <==> x == k || HasKey(d, x)
  {
    PutLookup(d, k, v, x);
  }

  /** Assignment keeps keys unique. */
  lemma {:induction false} PutDistinct<V>(d: Dict<V>, k: string, v: V)
    requires DistinctKeys(d)
    ensures DistinctKeys(Put(d, k, v))
  {
    if d != [] && d[0].0 != k {
      PutDistinct(d[1..], k, v);
      var rest := Put(d[1..], k, v);
      PutKeys(d[1..], k, v, d[0].0);
      assert !HasKey(d[1..], d[0].0) by {
        forall i | 0 <= i < |d[1..]| ensures d[1..][i].0 != d[0].0 {
          assert d[1..][i] == d[i + 1];
        }
      }
      var r := [d[0]] + rest;
      forall i, j | 0 <= i < j < |r| ensures r[i].0 != r[j].0 {
        if i == 0 {
          assert rest[j - 1].0 == r[j].0;
        }
      }
    }
  }
}

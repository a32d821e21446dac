/**
 * `TranslationCache` of translator.js (and its copy in content-bundle.js): a JavaScript `Map`
 * bounded to `maxSize` entries. `set` first drops the first-inserted key whenever the map is
 * full, whether or not the key being set is already present; `get` and `has` never reorder,
 * and `Map.set` on a present key keeps that key's position. Eviction is therefore FIFO by
 * first insertion, not LRU.
 */
module Cache {
  import opened Wrappers
  import opened Seqs

  /** The contents of the `Map`: its keys oldest first, and the value stored under each. */
  datatype CacheState = CacheState(order: seq<string>, store: map<string, string>)

  predicate Distinct(s: seq<string>) {
    forall i, j :: 0 <= i < j < |s| ==> s[i] != s[j]
  }

  ghost predicate WellFormed(c: CacheState) {
    Distinct(c.order) && forall k :: k in c.store <==> k in c.order
  }

  const DefaultMaxSize := 100

  /** The size the map never exceeds: `maxSize`, or 1 when `maxSize` is below 1 (the entry just set always stays). */
  function Bound(maxSize: int): nat {
    if maxSize >= 1 then maxSize else 1
  }

  function Empty(): (c: CacheState)
    ensures WellFormed(c) && |c.order| == 0
  {
    CacheState([], map[])
  }

  /** The first part of `set`: delete the first key of a map whose size is at least `maxSize`. */
  function EvictIfFull(c: CacheState, maxSize: int): (e: CacheState)
    requires WellFormed(c)
    ensures WellFormed(e)
    ensures forall k :: k in e.store ==> k in c.store && e.store[k] == c.store[k]
    ensures forall k :: k in c.store && (|c.order| < maxSize || k != c.order[0]) ==> k in e.store
    ensures |c.order| >= maxSize && |c.order| > 0 ==> c.order[0] !in e.store && |e.order| == |c.order| - 1
    ensures |c.order| < maxSize ==> e == c
  {
    if |c.order| >= maxSize && |c.order| > 0 then
      var e := CacheState(c.order[1..], c.store - {c.order[0]});
      assert forall k :: k in c.order[1..] <==> k in c.order && k != c.order[0];
      e
    else c
  }

  lemma AppendDistinct(s: seq<string>, x: string)
    requires Distinct(s) && x !in s
    ensures Distinct(s + [x])
  {
  }

  /** The cache after `set(key, value)`. */
  function Inserted(c: CacheState, maxSize: int, key: string, value: string): (r: CacheState)
    requires WellFormed(c)
    ensures WellFormed(r)
    ensures key in r.store && r.store[key] == value
    // nothing but `key` is added or changed
    ensures forall k :: k in r.store && k != key ==> k in c.store && r.store[k] == c.store[k]
    // when full, the first-inserted key is gone unless it is the key being set
    ensures |c.order| >= maxSize && |c.order| > 0 && c.order[0] != key ==> c.order[0] !in r.store
    // every other key survives
    ensures forall k :: k in c.store && k != key && (|c.order| < maxSize || k != c.order[0]) ==> k in r.store
    ensures |c.order| <= Bound(maxSize) ==> |r.order| <= Bound(maxSize)
  {
    var e := EvictIfFull(c, maxSize);
    if key in e.store then CacheState(e.order, e.store[key := value])
    else
      AppendDistinct(e.order, key);
      CacheState(e.order + [key], e.store[key := value])
  }

  /** Setting a key that is already present into a full cache still evicts: the size drops by one unless that key was the oldest, which moves to the newest position. */
  lemma {:induction false} ReinsertWhenFull(c: CacheState, maxSize: int, key: string, value: string)
    requires WellFormed(c) && maxSize >= 1 && |c.order| == maxSize && key in c.store
    ensures key != c.order[0] ==> |Inserted(c, maxSize, key, value).order| == maxSize - 1
    ensures key == c.order[0] ==> Inserted(c, maxSize, key, value).order == c.order[1..] + [key]
  {
    if key != c.order[0] {
      var i :| 0 <= i < |c.order| && c.order[i] == key;
      assert c.order[1..][i - 1] == key;
    } else {
      assert key !in c.order[1..];
    }
  }

  /** Setting a key into a cache below capacity appends it only when it is new; an existing key keeps its place. */
  lemma {:induction false} SetBelowCapacity(c: CacheState, maxSize: int, key: string, value: string)
    requires WellFormed(c) && |c.order| < maxSize
    ensures Inserted(c, maxSize, key, value).order == if key in c.store then c.order else c.order + [key]
  {
  }

  /** A run of `set` calls, in order. */
  function InsertedAll(c: CacheState, maxSize: int, entries: seq<(string, string)>): (r: CacheState)
    requires WellFormed(c)
    ensures WellFormed(r)
    decreases |entries|
  {
    if entries == [] then c
    else InsertedAll(Inserted(c, maxSize, entries[0].0, entries[0].1), maxSize, entries[1..])
  }

  function KeysOf(entries: seq<(string, string)>): (r: seq<string>)
    ensures |r| == |entries| && forall i :: 0 <= i < |entries| ==> r[i] == entries[i].0
  {
    seq(|entries|, i requires 0 <= i < |entries| => entries[i].0)
  }

  lemma InsertFresh(c: CacheState, maxSize: int, key: string, value: string)
    requires WellFormed(c) && maxSize >= 1 && |c.order| <= maxSize && key !in c.store
    ensures Inserted(c, maxSize, key, value).order == Newest(c.order + [key], maxSize)
  {
    if |c.order| == maxSize {
      assert c.order[1..] + [key] == (c.order + [key])[1..];
    }
  }

  lemma FreshTail(entries: seq<(string, string)>, c': CacheState, c: CacheState)
    requires |entries| > 0 && Distinct(KeysOf(entries))
    requires forall i :: 0 <= i < |entries| ==> entries[i].0 !in c.store
    requires forall k :: k in c'.store ==> k in c.store || k == entries[0].0
    ensures Distinct(KeysOf(entries[1..]))
    ensures forall i :: 0 <= i < |entries[1..]| ==> entries[1..][i].0 !in c'.store
  {
    var rest := entries[1..];
    assert KeysOf(rest) == KeysOf(entries)[1..];
    forall i | 0 <= i < |rest| ensures rest[i].0 !in c'.store {
      assert rest[i].0 == KeysOf(entries)[i + 1] && entries[0].0 == KeysOf(entries)[0];
    }
  }

  /** One `set` of a fresh key, as the induction step of `FifoKeepsNewest` needs it. */
  lemma FifoStep(c: CacheState, maxSize: int, entries: seq<(string, string)>)
    requires WellFormed(c) && maxSize >= 1 && |c.order| <= maxSize && |entries| > 0
    requires Distinct(KeysOf(entries))
    requires forall i :: 0 <= i < |entries| ==> entries[i].0 !in c.store
    ensures var c' := Inserted(c, maxSize, entries[0].0, entries[0].1);
      && |c'.order| <= maxSize
      && Distinct(KeysOf(entries[1..]))
      && (forall i :: 0 <= i < |entries| - 1 ==> entries[1..][i].0 !in c'.store)
      && Newest(c'.order + KeysOf(entries[1..]), maxSize) == Newest(c.order + KeysOf(entries), maxSize)
  {
    var k := entries[0].0;
    var c' := Inserted(c, maxSize, k, entries[0].1);
    InsertFresh(c, maxSize, k, entries[0].1);
    FreshTail(entries, c', c);
    var ks, tail := KeysOf(entries), KeysOf(entries[1..]);
    assert ks == [k] + tail;
    NewestOfNewest(c.order, k, tail, ks, maxSize);
  }

  /**
   * FIFO eviction: after a run of `set` calls on new, distinct keys, the cache holds exactly
   * the `maxSize` most recently inserted keys, oldest first.
   */
  lemma {:induction false} FifoKeepsNewest(c: CacheState, maxSize: int, entries: seq<(string, string)>)
    requires WellFormed(c) && maxSize >= 1 && |c.order| <= maxSize
    requires Distinct(KeysOf(entries))
    requires forall i :: 0 <= i < |entries| ==> entries[i].0 !in c.store
    ensures InsertedAll(c, maxSize, entries).order == Newest(c.order + KeysOf(entries), maxSize)
    decreases |entries|
  {
    if entries == [] {
      assert c.order + KeysOf(entries) == c.order;
    } else {
      FifoStep(c, maxSize, entries);
      FifoKeepsNewest(Inserted(c, maxSize, entries[0].0, entries[0].1), maxSize, entries[1..]);
    }
  }

  /** The cache object: a `Map` whose iteration order is `order`. */
  class TranslationCache {
    var order: seq<string>
    var store: map<string, string>
    const maxSize: int

    ghost predicate Valid()
      reads this
    {
      WellFormed(State()) && |order| <= Bound(maxSize)
    }

    function State(): CacheState
      reads this
    {
      CacheState(order, store)
    }

    constructor (maxSize: int)
      ensures Valid() && State() == Empty() && this.maxSize == maxSize
    {
      order, store := [], map[];
      this.maxSize := maxSize;
    }

    /** `get(key)`: `None` stands for `undefined`. */
    method Get(key: string) returns (r: Option<string>)
      ensures r.Some? <==> key in store
      ensures r.Some? ==> r.value == store[key]
    {
      r := if key in store then Some(store[key]) else None;
    }

    method Has(key: string) returns (b: bool)
      ensures b <==> key in store
    {
      b := key in store;
    }

    method Set(key: string, value: string)
      requires Valid()
      modifies this
      ensures Valid()
      ensures State() == Inserted(old(State()), maxSize, key, value)
    {
      if |order| >= maxSize && |order| > 0 {
        var firstKey := order[0];
        order := order[1..];
        store := store - {firstKey};
      }
      if key !in store {
        order := order + [key];
      }
      store := store[key := value];
    }

    method Clear()
      requires Valid()
      modifies this
      ensures Valid() && State() == Empty()
    {
      order, store := [], map[];
    }

    /** `getSize()`: the number of entries. */
    method GetSize() returns (n: nat)
      requires Valid()
      ensures n == |order| && n <= Bound(maxSize)
    {
      n := |order|;
    }
  }
}

/**
 * The get-or-load cache: a bounded map with least-recently-used eviction,
 * filled by a loader on a miss. The table is kept as a sequence of
 * (key, value) entries ordered from least to most recently used; a lookup
 * hit and an insertion both make their entry the most recently used.
 */
module Caching {
  import opened Wrappers

  /** No key occurs in two entries. */
  predicate DistinctKeys<K(==), V>(entries: seq<(K, V)>) {
    forall i, j | 0 <= i < j < |entries| :: entries[i].0 != entries[j].0
  }

  /** The position of `key`'s entry, if it has one. */
  function IndexOf<K(==), V>(entries: seq<(K, V)>, key: K): (r: Option<nat>)
    ensures r.Some? ==> r.value < |entries| && entries[r.value].0 == key
    ensures r.None? ==> forall i | 0 <= i < |entries| :: entries[i].0 != key
  {
    if entries == [] then None
    else if entries[0].0 == key then Some(0)
    else match IndexOf(entries[1..], key)
      case None => None
      case Some(i) => Some(i + 1)
  }

  /** The value stored for `key`: the table seen as a map. */
  function Get<K(==), V>(entries: seq<(K, V)>, key: K): Option<V> {
    match IndexOf(entries, key)
    case None => None
    case Some(i) => Some(entries[i].1)
  }

  /** `get_refresh`: move entry `i` to the most recently used end. */
  function Touch<K, V>(entries: seq<(K, V)>, i: nat): seq<(K, V)>
    requires i < |entries|
  {
    entries[..i] + entries[i + 1..] + [entries[i]]
  }

  /**
   * `LruCache::insert` of a key that is not in the table: append it as the
   * most recently used entry, then drop the least recently used entry if
   * the table has grown past its capacity.
   */
  function Insert<K, V>(entries: seq<(K, V)>, capacity: nat, key: K, value: V): seq<(K, V)> {
    var grown := entries + [(key, value)];
    if |grown| > capacity then grown[1..] else grown
  }

  /**
   * What `try_get` does to a table and to the log of loader calls: a hit
   * refreshes the entry and loads nothing; a miss logs one load of `key`
   * and inserts what was loaded when it is a success.
   */
  ghost predicate TryGetEffect<K, V, E>(before: seq<(K, V)>, beforeLoads: seq<K>, capacity: nat, key: K,
                                           loaded: Result<V, E>, after: seq<(K, V)>, afterLoads: seq<K>)
  {
    match IndexOf(before, key)
    case Some(i) => after == Touch(before, i) && afterLoads == beforeLoads
    case None =>
      afterLoads == beforeLoads + [key] &&
      after == if loaded.Ok? then Insert(before, capacity, key, loaded.value) else before
  }

  /**
   * After `try_get` on a table of positive capacity the key has an entry
   * whenever it had one before or its load succeeded, and a hit keeps the
   * value it found: the next lookup of the key is a hit.
   */
  lemma TryGetStores<K, V, E>(before: seq<(K, V)>, beforeLoads: seq<K>, capacity: nat, key: K,
                              loaded: Result<V, E>, after: seq<(K, V)>, afterLoads: seq<K>)
    requires DistinctKeys(before) && |before| <= capacity && capacity > 0
    requires TryGetEffect(before, beforeLoads, capacity, key, loaded, after, afterLoads)
    ensures Get(before, key).Some? ==> Get(after, key) == Get(before, key)
    ensures Get(before, key).None? && loaded.Ok? ==> Get(after, key) == Some(loaded.value)
    ensures Get(before, key).None? && loaded.Err? ==> Get(after, key) == None
  {
    match IndexOf(before, key)
    case Some(i) =>
      TouchKeepsContents(before, i, key);
    case None =>
      if loaded.Ok? {
        InsertSpec(before, capacity, key, loaded.value, key);
      }
  }

  /** Every entry holds what the loader gives for its key. */
  ghost predicate Coherent<K, V, E>(entries: seq<(K, V)>, load: K -> Result<V, E>) {
    forall i | 0 <= i < |entries| :: load(entries[i].0) == Ok(entries[i].1)
  }

  /** The value an entry holds is the one `Get` finds, in a table with distinct keys. */
  lemma GetEntry<K, V>(entries: seq<(K, V)>, i: nat)
    requires DistinctKeys(entries) && i < |entries|
    ensures Get(entries, entries[i].0) == Some(entries[i].1)
  {
  }

  /** A key no entry holds maps to nothing. */
  lemma GetMissing<K, V>(entries: seq<(K, V)>, key: K)
    requires forall i | 0 <= i < |entries| :: entries[i].0 != key
    ensures Get(entries, key) == None
  {
  }

  /** `Get` finds a key exactly when some entry holds it, and then that entry's value. */
  lemma GetSpec<K, V>(entries: seq<(K, V)>, key: K)
    requires DistinctKeys(entries)
    ensures Get(entries, key).Some? <==> exists i :: 0 <= i < |entries| && entries[i].0 == key
    ensures forall i | 0 <= i < |entries| && entries[i].0 == key :: Get(entries, key) == Some(entries[i].1)
  {
    forall i | 0 <= i < |entries| && entries[i].0 == key
      ensures Get(entries, key) == Some(entries[i].1)
    {
      GetEntry(entries, i);
    }
  }

  /**
   * A refresh changes recency only: the table still has distinct keys, and
   * maps every key to what it did before; the refreshed key is now the most
   * recently used.
   */
  lemma TouchKeepsContents<K, V>(entries: seq<(K, V)>, i: nat, key: K)
    requires DistinctKeys(entries) && i < |entries|
    ensures DistinctKeys(Touch(entries, i))
    ensures Get(Touch(entries, i), key) == Get(entries, key)
    ensures Touch(entries, i)[|entries| - 1] == entries[i]
  {
    var t := Touch(entries, i);
    assert |t| == |entries|;
    // t is entries with entry i moved to the end; the rest keep their order
    assert forall j | 0 <= j < |t| :: t[j] == entries[if j < i then j else if j < |t| - 1 then j + 1 else i];
    forall a, b | 0 <= a < b < |t|
      ensures t[a].0 != t[b].0
    {
      var sa := if a < i then a else if a < |t| - 1 then a + 1 else i;
      var sb := if b < i then b else if b < |t| - 1 then b + 1 else i;
      assert sa != sb;
      if sa < sb {
        assert entries[sa].0 != entries[sb].0;
      } else {
        assert entries[sb].0 != entries[sa].0;
      }
    }
    var present := exists j :: 0 <= j < |entries| && entries[j].0 == key;
    GetSpec(entries, key);
    GetSpec(t, key);
    if present {
      var j :| 0 <= j < |entries| && entries[j].0 == key;
      var tj := if j < i then j else if j > i then j - 1 else |t| - 1;
      assert t[tj] == entries[j];
    } else {
      forall j | 0 <= j < |t|
        ensures t[j].0 != key
      {
        assert t[j] == entries[if j < i then j else if j < |t| - 1 then j + 1 else i];
      }
      GetMissing(t, key);
    }
  }

  /**
   * Inserting a new key keeps the table within its capacity and its keys
   * distinct; afterwards the key maps to the inserted value (unless the
   * capacity is zero), and every other key keeps its value, except the least
   * recently used entry, which is evicted exactly when the table was full.
   */
  lemma InsertSpec<K, V>(entries: seq<(K, V)>, capacity: nat, key: K, value: V, other: K)
    requires DistinctKeys(entries) && |entries| <= capacity && Get(entries, key) == None
    ensures |Insert(entries, capacity, key, value)| <= capacity
    ensures DistinctKeys(Insert(entries, capacity, key, value))
    ensures capacity > 0 ==> Get(Insert(entries, capacity, key, value), key) == Some(value)
    ensures other != key ==>
      Get(Insert(entries, capacity, key, value), other) ==
        if |entries| == capacity && capacity > 0 && entries[0].0 == other then None else Get(entries, other)
  {
    var grown := entries + [(key, value)];
    var r := Insert(entries, capacity, key, value);
    GetSpec(entries, key);
    assert forall i | 0 <= i < |entries| :: entries[i].0 != key;
    assert DistinctKeys(grown) by {
      forall a, b | 0 <= a < b < |grown|
        ensures grown[a].0 != grown[b].0
      {
        if b < |entries| {
          assert grown[a] == entries[a] && grown[b] == entries[b];
        }
      }
    }
    assert DistinctKeys(r);
    GetSpec(grown, other);
    GetSpec(r, other);
    GetSpec(entries, other);
    if capacity > 0 {
      GetEntry(r, |r| - 1);
    }
    if other != key {
      if exists j :: 0 <= j < |entries| && entries[j].0 == other {
        var j :| 0 <= j < |entries| && entries[j].0 == other;
        assert grown[j] == entries[j];
        if r != grown && j > 0 {
          assert r[j - 1] == grown[j];
        }
      } else {
        forall j | 0 <= j < |r|
          ensures r[j].0 != other
        {
          if r == grown {
            assert j == |entries| || r[j] == entries[j];
          } else {
            assert r[j] == grown[j + 1];
          }
        }
      }
    }
  }

  /** Touching and inserting keep every entry's value the loader's. */
  lemma CoherentKept<K, V, E>(entries: seq<(K, V)>, capacity: nat, i: nat, key: K, value: V, load: K -> Result<V, E>)
    requires Coherent(entries, load) && i < |entries| && load(key) == Ok(value)
    ensures Coherent(Touch(entries, i), load)
    ensures Coherent(Insert(entries, capacity, key, value), load)
  {
    var t := Touch(entries, i);
    assert forall j | 0 <= j < |t| :: t[j] == entries[if j < i then j else if j < |t| - 1 then j + 1 else i];
  }

  /**
   * `Cache`: an LRU table of at most `capacity` entries. `loads` records, in
   * order, the keys the loader has been called with.
   */
  class Cache<K(==), V> {
    const capacity: nat
    var entries: seq<(K, V)>
    ghost var loads: seq<K>

    ghost predicate Valid()
      reads this
    {
      |entries| <= capacity && DistinctKeys(entries)
    }

    /** `Cache::new`: an empty table of the given capacity. */
    constructor (capacity: nat)
      ensures Valid()
      ensures this.capacity == capacity && entries == [] && loads == []
    {
      this.capacity := capacity;
      entries := [];
      loads := [];
    }

    /** `Cache::clear`: drop every entry. */
    method Clear()
      requires Valid()
      modifies this
      ensures Valid()
      ensures entries == [] && loads == old(loads)
    {
      entries := [];
    }

    /** `LruCache::get_mut`: the stored value, the entry refreshed on a hit. */
    method Lookup(key: K) returns (hit: Option<V>)
      requires Valid()
      modifies this
      ensures Valid() && loads == old(loads)
      ensures hit == Get(old(entries), key)
      ensures entries == match IndexOf(old(entries), key)
        case None => old(entries)
        case Some(i) => Touch(old(entries), i)
    {
      var found := IndexOf(entries, key);
      if found.Some? {
        hit := Some(entries[found.value].1);
        TouchKeepsContents(entries, found.value, key);
        entries := Touch(entries, found.value);
      } else {
        hit := None;
      }
    }

    /** `LruCache::insert` of a key the table does not hold. */
    method Store(key: K, value: V)
      requires Valid() && Get(entries, key) == None
      modifies this
      ensures Valid() && loads == old(loads)
      ensures entries == Insert(old(entries), capacity, key, value)
    {
      InsertSpec(entries, capacity, key, value, key);
      entries := Insert(entries, capacity, key, value);
    }

    /**
     * `Cache::try_get`: on a hit, the stored value, without calling the
     * loader; on a miss, one call of the loader with the key, whose value is
     * stored only if it succeeded. A table that held only loader results
     * still does, and then the result is what the loader gives for the key.
     */
    method TryGet<E>(key: K, load: K -> Result<V, E>) returns (r: Result<V, E>)
      requires Valid()
      modifies this
      ensures Valid()
      ensures Get(old(entries), key).Some? ==> r == Ok(Get(old(entries), key).value)
      ensures Get(old(entries), key).None? ==> r == load(key)
      ensures TryGetEffect(old(entries), old(loads), capacity, key, load(key), entries, loads)
      ensures Coherent(old(entries), load) ==> r == load(key) && Coherent(entries, load)
    {
      ghost var before := entries;
      var hit := Lookup(key);
      if hit.Some? {
        ghost var i := IndexOf(before, key).value;
        assert load(before[i].0) == load(key);
        if Coherent(before, load) {
          CoherentKept(before, capacity, i, key, hit.value, load);
        }
        return Ok(hit.value);
      }
      loads := loads + [key];
      r := load(key);
      if r.Ok? {
        Store(key, r.value);
        if Coherent(before, load) {
          InsertCoherent(before, capacity, key, r.value, load);
        }
      }
    }
  }

  lemma InsertCoherent<K, V, E>(entries: seq<(K, V)>, capacity: nat, key: K, value: V, load: K -> Result<V, E>)
    requires Coherent(entries, load) && load(key) == Ok(value)
    ensures Coherent(Insert(entries, capacity, key, value), load)
  {
  }
}

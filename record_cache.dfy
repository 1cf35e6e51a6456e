/*
 * `RecordCache`: a loading cache from (group, referrer) keys to loaders.
 * A miss loads the group through the database controller and keeps the
 * result. The cache's size and age eviction are not modelled: nothing
 * leaves the map except by invalidation.
 */
module RecordCaches {
  import opened JavaLang
  import opened CacheLoaders
  import opened CacheGroups

  /** `CacheKey`: equal exactly when the group is the same constant and the referrers are equal. */
  datatype CacheKey = CacheKey(groupType: CacheGroupType, referrer: Referrer)

  /** What a lookup of `key` finds: the stored loader, or a fresh load on a miss. */
  function Lookup<T>(cache: map<CacheKey, CacheLoader<T>>, db: Database<T>, key: CacheKey): CacheLoader<T> {
    if key in cache then cache[key] else Retrieve(key.groupType, db, key.referrer)
  }

  /** The keys `invalidateWithRelatives` drops: the group's own key and one per relative. */
  function RelativeKeys(groupType: CacheGroupType, referrer: Referrer): set<CacheKey> {
    {CacheKey(groupType, referrer)} + KeysIn(Relatives(groupType), referrer)
  }

  /** The keys of `rels` for one referrer. */
  function KeysIn(rels: seq<CacheGroupType>, referrer: Referrer): set<CacheKey> {
    set rel | rel in rels :: CacheKey(rel, referrer)
  }

  lemma KeysInAppend(rels: seq<CacheGroupType>, rel: CacheGroupType, referrer: Referrer)
    ensures KeysIn(rels + [rel], referrer) == KeysIn(rels, referrer) + {CacheKey(rel, referrer)}
  {
    assert forall r :: r in rels + [rel] <==> r in rels || r == rel;
  }

  /** A loader with `value` added to its collection payload; a loader without one unchanged. */
  function Infused<T>(l: CacheLoader<T>, value: T): CacheLoader<T> {
    if l.payloadCollection.Some? then l.(payloadCollection := Some(l.payloadCollection.value + [value])) else l
  }

  /** The loader at `key` with `value` added, when it is present and passes the collection test. */
  function InfuseAt<T>(cache: map<CacheKey, CacheLoader<T>>, key: CacheKey, value: T, isCollection: CacheLoader<T> -> bool): map<CacheKey, CacheLoader<T>> {
    if key in cache && isCollection(cache[key]) then cache[key := Infused(cache[key], value)] else cache
  }

  /** `InfuseAt` applied to each key in turn. */
  function InfusedAll<T>(cache: map<CacheKey, CacheLoader<T>>, keys: seq<CacheKey>, value: T, isCollection: CacheLoader<T> -> bool): map<CacheKey, CacheLoader<T>>
    decreases |keys|
  {
    if keys == [] then cache else InfusedAll(InfuseAt(cache, keys[0], value, isCollection), keys[1..], value, isCollection)
  }

  /** The key itself, then the same referrer's key in each relative group, in order. */
  function InfuseKeys(groupType: CacheGroupType, referrer: Referrer): seq<CacheKey> {
    [CacheKey(groupType, referrer)] + RelativeKeySeq(Relatives(groupType), referrer)
  }

  function RelativeKeySeq(rels: seq<CacheGroupType>, referrer: Referrer): (r: seq<CacheKey>)
    ensures |r| == |rels| && forall j :: 0 <= j < |rels| ==> r[j] == CacheKey(rels[j], referrer)
  {
    if rels == [] then [] else [CacheKey(rels[0], referrer)] + RelativeKeySeq(rels[1..], referrer)
  }

  /**
   * `instanceof Collection` applied to a stored value: the cache stores
   * `CacheLoader` objects, and a `CacheLoader` is not a `Collection`.
   */
  predicate IsCollectionObject<T>(stored: CacheLoader<T>) {
    false
  }

  /** The intended test: the stored loader holds a collection. */
  predicate HoldsCollection<T>(stored: CacheLoader<T>) {
    stored.isCollection && stored.payloadCollection.Some?
  }

  /** With a test that never passes, infusing changes nothing. */
  lemma {:induction false} InfuseAsWrittenIsNoOp<T>(cache: map<CacheKey, CacheLoader<T>>, keys: seq<CacheKey>, value: T)
    ensures InfusedAll(cache, keys, value, IsCollectionObject) == cache
    decreases |keys|
  {
    if keys != [] {
      assert InfuseAt(cache, keys[0], value, IsCollectionObject) == cache;
      InfuseAsWrittenIsNoOp(cache, keys[1..], value);
    }
  }

  class RecordCache<T> {
    const db: Database<T>
    var cache: map<CacheKey, CacheLoader<T>>

    constructor (db: Database<T>)
      ensures this.db == db && cache == map[]
    {
      this.db := db;
      cache := map[];
    }

    /** `cache.get`: the stored loader, or on a miss the group's load, which is then stored. */
    method Get(key: CacheKey) returns (l: CacheLoader<T>)
      modifies this
      ensures l == old(Lookup(cache, db, key))
      ensures cache == old(cache)[key := l]
    {
      if key in cache {
        l := cache[key];
      } else {
        l := Retrieve(key.groupType, db, key.referrer);
        cache := cache[key := l];
      }
    }

    /** `insert`: stores `value` under the key, replacing what was there. */
    method Insert(groupType: CacheGroupType, referrer: Referrer, value: CacheLoader<T>)
      modifies this
      ensures cache == old(cache)[CacheKey(groupType, referrer) := value]
    {
      cache := cache[CacheKey(groupType, referrer) := value];
    }

    /** `invalidate`: drops the one key. */
    method Invalidate(groupType: CacheGroupType, referrer: Referrer)
      modifies this
      ensures cache == old(cache) - {CacheKey(groupType, referrer)}
    {
      cache := cache - {CacheKey(groupType, referrer)};
    }

    /** `invalidateWithRelatives`: drops the key, then the same referrer's key in every relative group. */
    method InvalidateWithRelatives(groupType: CacheGroupType, referrer: Referrer)
      modifies this
      ensures cache == old(cache) - RelativeKeys(groupType, referrer)
    {
      Invalidate(groupType, referrer);
      var rels := Relatives(groupType);
      var i := 0;
      while i < |rels|
        invariant 0 <= i <= |rels|
        invariant cache == old(cache) - ({CacheKey(groupType, referrer)} + KeysIn(rels[..i], referrer))
      {
        Invalidate(rels[i], referrer);
        assert rels[..i + 1] == rels[..i] + [rels[i]];
        KeysInAppend(rels[..i], rels[i], referrer);
        i := i + 1;
      }
      assert rels[..i] == rels;
    }

    /** `request`: the collection payload of the key's loader, loading it on a miss. */
    method Request(groupType: CacheGroupType, referrer: Referrer) returns (r: Option<seq<T>>)
      modifies this
      ensures var l := old(Lookup(cache, db, CacheKey(groupType, referrer)));
              r == l.payloadCollection && cache == old(cache)[CacheKey(groupType, referrer) := l]
    {
      var l := Get(CacheKey(groupType, referrer));
      r := l.payloadCollection;
    }

    /** `requestSingleton`: the single-record payload of the key's loader, loading it on a miss. */
    method RequestSingleton(groupType: CacheGroupType, referrer: Referrer) returns (r: Option<T>)
      modifies this
      ensures var l := old(Lookup(cache, db, CacheKey(groupType, referrer)));
              r == l.payloadSingleton && cache == old(cache)[CacheKey(groupType, referrer) := l]
    {
      var l := Get(CacheKey(groupType, referrer));
      r := l.payloadSingleton;
    }

    /** The loop of `infuseIfCollectionPresent` over the key and its relatives, with the given collection test. */
    method InfuseEach(keys: seq<CacheKey>, value: T, isCollection: CacheLoader<T> -> bool)
      modifies this
      ensures cache == InfusedAll(old(cache), keys, value, isCollection)
    {
      var i := 0;
      while i < |keys|
        invariant 0 <= i <= |keys|
        invariant InfusedAll(old(cache), keys, value, isCollection) == InfusedAll(cache, keys[i..], value, isCollection)
      {
        assert keys[i..][1..] == keys[i + 1..];
        cache := InfuseAt(cache, keys[i], value, isCollection);
        i := i + 1;
      }
    }

    /**
     * `infuseIfCollectionPresent` as written: it returns when the key is
     * absent, and otherwise tests whether each stored object is a
     * `Collection`; the stored objects are loaders, so nothing is added.
     */
    method InfuseIfCollectionPresentAsWritten(groupType: CacheGroupType, referrer: Referrer, value: T)
      modifies this
      ensures cache == old(cache)
    {
      if CacheKey(groupType, referrer) !in cache {
        return;
      }
      InfuseEach(InfuseKeys(groupType, referrer), value, IsCollectionObject);
      InfuseAsWrittenIsNoOp(old(cache), InfuseKeys(groupType, referrer), value);
    }

    /**
     * `infuseIfCollectionPresent` as evidently intended: when the key is
     * present, `value` is added to its collection and to the collection of
     * every present relative; absent keys are not loaded.
     */
    method InfuseIfCollectionPresent(groupType: CacheGroupType, referrer: Referrer, value: T)
      modifies this
      ensures CacheKey(groupType, referrer) !in old(cache) ==> cache == old(cache)
      ensures CacheKey(groupType, referrer) in old(cache) ==>
                cache == InfusedAll(old(cache), InfuseKeys(groupType, referrer), value, HoldsCollection)
    {
      if CacheKey(groupType, referrer) !in cache {
        return;
      }
      InfuseEach(InfuseKeys(groupType, referrer), value, HoldsCollection);
    }
  }

  // ---------------------------------------------------------------------------
  // What later requests see

  /** After `insert`, a request for the same key returns the inserted loader's payload. */
  lemma LookupAfterInsert<T>(cache: map<CacheKey, CacheLoader<T>>, db: Database<T>, key: CacheKey, value: CacheLoader<T>)
    ensures Lookup(cache[key := value], db, key) == value
  {
  }

  /** After `invalidate`, a request for that key loads afresh, and every other key is found as before. */
  lemma LookupAfterInvalidate<T>(cache: map<CacheKey, CacheLoader<T>>, db: Database<T>, key: CacheKey, other: CacheKey)
    requires other != key
    ensures Lookup(cache - {key}, db, key) == Retrieve(key.groupType, db, key.referrer)
    ensures Lookup(cache - {key}, db, other) == Lookup(cache, db, other)
  {
  }

  /** A lookup stores what it finds, so asking twice gives the same loader both times. */
  lemma LookupIsStable<T>(cache: map<CacheKey, CacheLoader<T>>, db: Database<T>, key: CacheKey)
    ensures Lookup(cache[key := Lookup(cache, db, key)], db, key) == Lookup(cache, db, key)
  {
  }

  /**
   * Invalidating an active group also drops its unfiltered relative: the
   * relative is loaded afresh on its next request.
   */
  lemma InvalidatingActiveDropsRelative<T>(cache: map<CacheKey, CacheLoader<T>>, db: Database<T>, g: CacheGroupType, referrer: Referrer, rel: CacheGroupType)
    requires rel in Relatives(g)
    ensures CacheKey(rel, referrer) !in cache - RelativeKeys(g, referrer)
    ensures Lookup(cache - RelativeKeys(g, referrer), db, CacheKey(rel, referrer)) == Retrieve(rel, db, referrer)
  {
    assert CacheKey(rel, referrer) in RelativeKeys(g, referrer);
  }

  /** A key outside the group and its relatives is untouched by `invalidateWithRelatives`. */
  lemma OtherKeysSurvive<T>(cache: map<CacheKey, CacheLoader<T>>, key: CacheKey, g: CacheGroupType, referrer: Referrer)
    requires key in cache
    requires key.referrer != referrer || (key.groupType != g && key.groupType !in Relatives(g))
    ensures key in cache - RelativeKeys(g, referrer) && (cache - RelativeKeys(g, referrer))[key] == cache[key]
  {
  }

  /** Corrected: a present collection group receives the new record at its end. */
  lemma InfusedCollectionGrows<T>(cache: map<CacheKey, CacheLoader<T>>, key: CacheKey, value: T, c: seq<T>)
    requires key in cache && cache[key] == Collection(c)
    ensures InfuseAt(cache, key, value, HoldsCollection)[key].payloadCollection == Some(c + [value])
  {
  }
}

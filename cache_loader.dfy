/*
 * `CacheLoader`: what the record cache stores for one key, either a single
 * record (possibly `null`) or a collection of records, tagged with its kind.
 */
module CacheLoaders {
  import opened JavaLang

  datatype CacheLoader<T> = CacheLoader(isCollection: bool, payloadSingleton: Option<T>, payloadCollection: Option<seq<T>>)

  /** `CacheLoader.singleton`: one record, no collection. */
  function Singleton<T>(payload: Option<T>): (r: CacheLoader<T>)
    ensures !r.isCollection && r.payloadSingleton == payload && r.payloadCollection == None
  {
    CacheLoader(false, payload, None)
  }

  /** `CacheLoader.collection`: a collection, no single record. */
  function Collection<T>(payload: seq<T>): (r: CacheLoader<T>)
    ensures r.isCollection && r.payloadCollection == Some(payload) && r.payloadSingleton == None
  {
    CacheLoader(true, None, Some(payload))
  }

  /** The two factories never build the same loader, whatever their payloads. */
  lemma FactoriesDistinct<T>(x: Option<T>, c: seq<T>)
    ensures Singleton(x) != Collection(c)
  {
  }
}

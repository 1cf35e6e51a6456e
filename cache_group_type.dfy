/*
 * `CacheGroupType`: the eleven kinds of cached record groups. Each group
 * names the database query that loads it, and the active ban and mute
 * groups name, as relatives, the unfiltered groups that must be dropped
 * with them.
 */
module CacheGroups {
  import opened JavaLang
  import opened ApiData
  import opened CacheLoaders

  datatype CacheGroupType =
    | BAN_BY_UUID | BAN_BY_ADDR | ACTIVE_BAN_BY_UUID | ACTIVE_BAN_BY_ADDR
    | KICK
    | MUTE_BY_UUID | MUTE_BY_ADDR | ACTIVE_MUTE_BY_UUID | ACTIVE_MUTE_BY_ADDR
    | COMMENT
    | PLAYER

  /** What a group is keyed by: a player's UUID or an address string. */
  datatype Referrer = PlayerId(uuid: Uuid) | Address(address: string)

  datatype Table = BANS | MUTES | KICKS | COMMENTS

  /** A collection query of the database controller: a table, the key column, and a status filter. */
  datatype Query = Query(table: Table, byAddress: bool, status: Option<PunishmentStatus>)

  /**
   * The database controller, as far as the cache and the admin manager use
   * it: the collection queries (with optional lookup options) and the
   * player-record lookup. It is a parameter: JDBC is not modelled.
   */
  datatype Database<T> = Database(records: (Query, Referrer, Option<LookupOptions>) -> seq<T>,
                                   playerRecord: Referrer -> Option<T>)

  /** The query behind each collection group. */
  function GroupQuery(g: CacheGroupType): Query
    requires g != PLAYER
  {
    match g
    case BAN_BY_UUID => Query(BANS, false, None)
    case BAN_BY_ADDR => Query(BANS, true, None)
    case ACTIVE_BAN_BY_UUID => Query(BANS, false, Some(ACTIVE))
    case ACTIVE_BAN_BY_ADDR => Query(BANS, true, Some(ACTIVE))
    case KICK => Query(KICKS, false, None)
    case MUTE_BY_UUID => Query(MUTES, false, None)
    case MUTE_BY_ADDR => Query(MUTES, true, None)
    case ACTIVE_MUTE_BY_UUID => Query(MUTES, false, Some(ACTIVE))
    case ACTIVE_MUTE_BY_ADDR => Query(MUTES, true, Some(ACTIVE))
    case COMMENT => Query(COMMENTS, false, None)
  }

  /** `getRelatives`: the groups given to the constructor after the loader. */
  function Relatives(g: CacheGroupType): seq<CacheGroupType> {
    match g
    case ACTIVE_BAN_BY_UUID => [BAN_BY_UUID]
    case ACTIVE_BAN_BY_ADDR => [BAN_BY_ADDR]
    case ACTIVE_MUTE_BY_UUID => [MUTE_BY_UUID]
    case ACTIVE_MUTE_BY_ADDR => [MUTE_BY_ADDR]
    case _ => []
  }

  /** `retrieve`: the player group loads one record, every other group a collection with no lookup options. */
  function Retrieve<T>(g: CacheGroupType, db: Database<T>, referrer: Referrer): CacheLoader<T> {
    if g == PLAYER then Singleton(db.playerRecord(referrer))
    else Collection(db.records(GroupQuery(g), referrer, None))
  }

  /** Only the player group loads a single record. */
  lemma OnlyPlayerIsSingleton<T>(g: CacheGroupType, db: Database<T>, referrer: Referrer)
    ensures Retrieve(g, db, referrer).isCollection <==> g != PLAYER
  {
  }

  /** A group with a status filter filters for ACTIVE records. */
  lemma FiltersAreActive(g: CacheGroupType)
    requires g != PLAYER && GroupQuery(g).status.Some?
    ensures GroupQuery(g).status == Some(ACTIVE)
  {
  }

  /**
   * A group has relatives exactly when it is status-filtered, and each
   * relative runs the same query without the filter, so it holds every
   * record the group holds.
   */
  lemma RelativesDropTheFilter(g: CacheGroupType)
    ensures |Relatives(g)| > 0 <==> g != PLAYER && GroupQuery(g).status.Some?
    ensures forall rel :: rel in Relatives(g) ==>
              rel != PLAYER && g != PLAYER && GroupQuery(rel) == GroupQuery(g).(status := None)
  {
  }

  /** The relative relation is not symmetric: the unfiltered group lists no relatives. */
  lemma RelativesNotSymmetric()
    ensures BAN_BY_UUID in Relatives(ACTIVE_BAN_BY_UUID) && ACTIVE_BAN_BY_UUID !in Relatives(BAN_BY_UUID)
    ensures MUTE_BY_ADDR in Relatives(ACTIVE_MUTE_BY_ADDR) && ACTIVE_MUTE_BY_ADDR !in Relatives(MUTE_BY_ADDR)
  {
  }

  /** No two collection groups run the same query. */
  lemma QueriesDistinct(g1: CacheGroupType, g2: CacheGroupType)
    requires g1 != PLAYER && g2 != PLAYER && g1 != g2
    ensures GroupQuery(g1) != GroupQuery(g2)
  {
  }
}

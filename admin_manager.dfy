/*
 * `AdminManagerImpl`: the lookups a plugin makes through the API, and the
 * unban and unmute operations built on them.
 *
 * Lookups without lookup options read the record cache; lookups with
 * options, and the status lookups, go straight to the database. Active-record
 * lookups pick the first record that applies in a context. Unbanning (and
 * unmuting) ends each applicable active record and hands it to the
 * committer, counting the commits that did not throw.
 *
 * The platform's context tester and the committer's success are parameters;
 * the database is the `Database` parameter of each cache.
 */
module AdminManagers {
  import opened JavaLang
  import opened ApiData
  import opened ScopedRecords
  import opened PlayerRecords
  import opened CommentKickRecords
  import opened CacheLoaders
  import opened CacheGroups
  import opened RecordCaches
  import Committers

  /** `ContextTester.testContext(record, context)`; a null context is `None`. */
  type ContextTest = (Punishment, Option<string>) -> bool

  /** Bans and mutes: the two kinds of punishment the manager lifts. */
  datatype Kind = Bans | Mutes

  function KindTable(k: Kind): Table {
    match k
    case Bans => BANS
    case Mutes => MUTES
  }

  /** The cache group of a kind's active records, by UUID or by address. */
  function ActiveGroup(k: Kind, byAddress: bool): (g: CacheGroupType)
    ensures g != PLAYER && GroupQuery(g) == Query(KindTable(k), byAddress, Some(ACTIVE))
  {
    match k
    case Bans => if byAddress then ACTIVE_BAN_BY_ADDR else ACTIVE_BAN_BY_UUID
    case Mutes => if byAddress then ACTIVE_MUTE_BY_ADDR else ACTIVE_MUTE_BY_UUID
  }

  // ---------------------------------------------------------------------------
  // firstMatchContext

  /** A record applies when it is global and globals (or no context) were asked for, or when the tester accepts it. */
  predicate Applies(p: Punishment, inContext: Option<string>, includeGlobals: bool, test: ContextTest) {
    (!HasContext(p) && (includeGlobals || inContext.None?)) || test(p, inContext)
  }

  /** The first record that applies, if any. */
  function FirstMatch(records: seq<Punishment>, inContext: Option<string>, includeGlobals: bool, test: ContextTest): (r: Option<Punishment>)
    ensures r.Some? ==> r.value in records && Applies(r.value, inContext, includeGlobals, test)
    ensures r.None? <==> forall i :: 0 <= i < |records| ==> !Applies(records[i], inContext, includeGlobals, test)
  {
    if records == [] then None
    else if Applies(records[0], inContext, includeGlobals, test) then Some(records[0])
    else FirstMatch(records[1..], inContext, includeGlobals, test)
  }

  /** The record found is the earliest one that applies: every record before it does not. */
  lemma {:induction false} FirstMatchIsEarliest(records: seq<Punishment>, inContext: Option<string>, includeGlobals: bool, test: ContextTest)
    requires FirstMatch(records, inContext, includeGlobals, test).Some?
    ensures exists i :: 0 <= i < |records| && records[i] == FirstMatch(records, inContext, includeGlobals, test).value
                        && forall j :: 0 <= j < i ==> !Applies(records[j], inContext, includeGlobals, test)
    decreases |records|
  {
    if Applies(records[0], inContext, includeGlobals, test) {
      assert records[0] == FirstMatch(records, inContext, includeGlobals, test).value;
    } else {
      var tail := records[1..];
      FirstMatchIsEarliest(tail, inContext, includeGlobals, test);
      var i :| 0 <= i < |tail| && tail[i] == FirstMatch(tail, inContext, includeGlobals, test).value
                && forall j :: 0 <= j < i ==> !Applies(tail[j], inContext, includeGlobals, test);
      assert records[i + 1] == tail[i];
      assert forall j :: 0 <= j < i + 1 ==> !Applies(records[j], inContext, includeGlobals, test) by {
        forall j | 0 <= j < i + 1
          ensures !Applies(records[j], inContext, includeGlobals, test)
        {
          if j > 0 {
            assert records[j] == tail[j - 1];
          }
        }
      }
    }
  }

  /** `firstMatchContext`: the loop over the records, returning at the first that applies. */
  method FirstMatchContext(records: seq<Punishment>, inContext: Option<string>, includeGlobals: bool, test: ContextTest)
    returns (r: Option<Punishment>)
    ensures r == FirstMatch(records, inContext, includeGlobals, test)
  {
    var i := 0;
    while i < |records|
      invariant 0 <= i <= |records|
      invariant FirstMatch(records[i..], inContext, includeGlobals, test) == FirstMatch(records, inContext, includeGlobals, test)
    {
      var record := records[i];
      if !HasContext(record) && (includeGlobals || inContext.None?) {
        return Some(record);
      }
      if test(record, inContext) {
        return Some(record);
      }
      assert records[i..][1..] == records[i + 1..];
      i := i + 1;
    }
    return None;
  }

  // ---------------------------------------------------------------------------
  // Active records

  /**
   * What an active-record lookup in group `g` answers against the cache
   * contents `c`: the first applicable record of the group's collection; a
   * group holding no collection makes the iteration throw.
   */
  function ActiveIn(c: map<CacheKey, CacheLoader<Punishment>>, db: Database<Punishment>, g: CacheGroupType, referrer: Referrer,
                    inContext: Option<string>, includeGlobals: bool, test: ContextTest): Outcome<Option<Punishment>>
  {
    match Lookup(c, db, CacheKey(g, referrer)).payloadCollection
    case None => Throws(NullPointerException)
    case Some(records) => Ok(FirstMatch(records, inContext, includeGlobals, test))
  }

  /** `getActiveBanRecord` / `getActiveMuteRecord` for one UUID or one address. */
  method GetActiveRecord(cache: RecordCache<Punishment>, k: Kind, referrer: Referrer,
                         inContext: Option<string>, includeGlobals: bool, test: ContextTest)
    returns (r: Outcome<Option<Punishment>>)
    modifies cache
    ensures var key := CacheKey(ActiveGroup(k, referrer.Address?), referrer);
            cache.cache == old(cache.cache)[key := old(Lookup(cache.cache, cache.db, key))]
    ensures r == ActiveIn(old(cache.cache), cache.db, ActiveGroup(k, referrer.Address?), referrer, inContext, includeGlobals, test)
  {
    var records := cache.Request(ActiveGroup(k, referrer.Address?), referrer);
    if records.None? {
      return Throws(NullPointerException);
    }
    var found := FirstMatchContext(records.value, inContext, includeGlobals, test);
    r := Ok(found);
  }

  /** The UUID-then-address lookup: the UUID's answer when it finds a record or throws, else the address's answer. */
  function ActiveEither(c: map<CacheKey, CacheLoader<Punishment>>, db: Database<Punishment>, k: Kind, uuid: Uuid, address: string,
                        inContext: Option<string>, includeGlobals: bool, test: ContextTest): Outcome<Option<Punishment>>
  {
    var first := ActiveIn(c, db, ActiveGroup(k, false), PlayerId(uuid), inContext, includeGlobals, test);
    if first.Throws? || first.value.Some? then first
    else ActiveIn(c, db, ActiveGroup(k, true), Address(address), inContext, includeGlobals, test)
  }

  /** `getActiveBanRecord(UUID, String, …)` / `getActiveMuteRecord(UUID, String, …)`. */
  method GetActiveRecordEither(cache: RecordCache<Punishment>, k: Kind, uuid: Uuid, address: string,
                               inContext: Option<string>, includeGlobals: bool, test: ContextTest)
    returns (r: Outcome<Option<Punishment>>)
    modifies cache
    ensures r == ActiveEither(old(cache.cache), cache.db, k, uuid, address, inContext, includeGlobals, test)
  {
    r := GetActiveRecord(cache, k, PlayerId(uuid), inContext, includeGlobals, test);
    if r.Ok? && r.value.Some? {
      return r;
    }
    if r.Throws? {
      return r;
    }
    assert CacheKey(ActiveGroup(k, false), PlayerId(uuid)) != CacheKey(ActiveGroup(k, true), Address(address));
    r := GetActiveRecord(cache, k, Address(address), inContext, includeGlobals, test);
  }

  /**
   * The combined lookup finds nothing exactly when neither the UUID nor the
   * address finds anything, and a record found by UUID is always preferred.
   */
  lemma EitherFallsBack(c: map<CacheKey, CacheLoader<Punishment>>, db: Database<Punishment>, k: Kind, uuid: Uuid, address: string,
                        inContext: Option<string>, includeGlobals: bool, test: ContextTest)
    requires ActiveIn(c, db, ActiveGroup(k, false), PlayerId(uuid), inContext, includeGlobals, test).Ok?
    requires ActiveIn(c, db, ActiveGroup(k, true), Address(address), inContext, includeGlobals, test).Ok?
    ensures var byUuid := ActiveIn(c, db, ActiveGroup(k, false), PlayerId(uuid), inContext, includeGlobals, test).value;
            var byAddress := ActiveIn(c, db, ActiveGroup(k, true), Address(address), inContext, includeGlobals, test).value;
            var r := ActiveEither(c, db, k, uuid, address, inContext, includeGlobals, test);
            r.Ok? && (r.value.None? <==> byUuid.None? && byAddress.None?)
            && (byUuid.Some? ==> r.value == byUuid)
            && (byUuid.None? ==> r.value == byAddress)
  {
  }

  // ---------------------------------------------------------------------------
  // Record collections

  /**
   * The collection lookups: no options reads group `g` from the cache (loading
   * it on a miss); options query the group's table directly, leaving the
   * cache alone.
   */
  method GetRecords<T>(cache: RecordCache<T>, g: CacheGroupType, referrer: Referrer, options: Option<LookupOptions>)
    returns (r: Option<seq<T>>)
    requires g != PLAYER
    modifies cache
    ensures options.None? ==>
              var key := CacheKey(g, referrer);
              r == old(Lookup(cache.cache, cache.db, key)).payloadCollection
              && cache.cache == old(cache.cache)[key := old(Lookup(cache.cache, cache.db, key))]
    ensures options.Some? ==> r == Some(cache.db.records(GroupQuery(g), referrer, options)) && cache.cache == old(cache.cache)
  {
    if options.None? {
      r := cache.Request(g, referrer);
      return;
    }
    r := Some(cache.db.records(GroupQuery(g), referrer, options));
  }

  /** On a cache miss, the cached path returns what the database gives for the group's query with no options. */
  lemma CacheMissQueriesDatabase<T>(c: map<CacheKey, CacheLoader<T>>, db: Database<T>, g: CacheGroupType, referrer: Referrer)
    requires g != PLAYER && CacheKey(g, referrer) !in c
    ensures Lookup(c, db, CacheKey(g, referrer)).payloadCollection == Some(db.records(GroupQuery(g), referrer, None))
  {
  }

  /** The distinct records of `records` that `keep` accepts, as a stream filter collected to a set. */
  function Select<T(!new)>(records: seq<T>, keep: T -> bool): (s: set<T>)
    ensures forall x :: x in s <==> x in records && keep(x)
  {
    if records == [] then {}
    else (if keep(records[0]) then {records[0]} else {}) + Select(records[1..], keep)
  }

  /** Selecting by a flag and by its negation splits the records into two disjoint sets that cover them. */
  lemma SelectPartitions<T(!new)>(records: seq<T>, keep: T -> bool)
    ensures Select(records, keep) !! Select(records, x => !keep(x))
    ensures Select(records, keep) + Select(records, x => !keep(x)) == set x | x in records
  {
  }

  /**
   * `getCommentRecordsByType`: without options, the cached comments whose
   * warning flag equals `warning`; with options, the database's own typed
   * query (`typedQuery`).
   */
  method GetCommentRecordsByType(cache: RecordCache<CommentData>, uuid: Uuid, warning: bool, options: Option<LookupOptions>,
                                 typedQuery: (Uuid, bool, LookupOptions) -> seq<CommentData>)
    returns (r: Outcome<set<CommentData>>)
    modifies cache
    ensures options.None? ==>
              var l := old(Lookup(cache.cache, cache.db, CacheKey(COMMENT, PlayerId(uuid))));
              && (l.payloadCollection.None? ==> r == Throws(NullPointerException))
              && (l.payloadCollection.Some? ==> r.Ok? && forall c :: c in r.value <==> c in l.payloadCollection.value && c.isWarning == warning)
    ensures options.Some? ==> r == Ok(set c | c in typedQuery(uuid, warning, options.value)) && cache.cache == old(cache.cache)
  {
    if options.Some? {
      return Ok(set c | c in typedQuery(uuid, warning, options.value));
    }
    var records := cache.Request(COMMENT, PlayerId(uuid));
    if records.None? {
      return Throws(NullPointerException);
    }
    r := Ok(Select(records.value, (c: CommentData) => c.isWarning == warning));
  }

  /**
   * `getKickRecordsByType`: the player's kicks, from the cache without
   * options or from the database with them, whose global flag equals `global`.
   */
  method GetKickRecordsByType(cache: RecordCache<KickData>, uuid: Uuid, global: bool, options: Option<LookupOptions>)
    returns (r: Outcome<set<KickData>>)
    modifies cache
    ensures options.None? ==>
              var l := old(Lookup(cache.cache, cache.db, CacheKey(KICK, PlayerId(uuid))));
              && (l.payloadCollection.None? ==> r == Throws(NullPointerException))
              && (l.payloadCollection.Some? ==> r.Ok? && forall x :: x in r.value <==> x in l.payloadCollection.value && x.isGlobal == global)
    ensures options.Some? ==>
              && r.Ok? && cache.cache == old(cache.cache)
              && forall x :: x in r.value <==> x in cache.db.records(GroupQuery(KICK), PlayerId(uuid), options) && x.isGlobal == global
  {
    var records := GetRecords(cache, KICK, PlayerId(uuid), options);
    if records.None? {
      return Throws(NullPointerException);
    }
    r := Ok(Select(records.value, (x: KickData) => x.isGlobal == global));
  }

  // ---------------------------------------------------------------------------
  // Player records

  /** `getPlayerRecord`: the cached player, loading it on a miss. */
  method GetPlayerRecord(cache: RecordCache<PlayerData>, uuid: Uuid) returns (r: Option<PlayerData>)
    modifies cache
    ensures var key := CacheKey(PLAYER, PlayerId(uuid));
            r == old(Lookup(cache.cache, cache.db, key)).payloadSingleton
            && cache.cache == old(cache.cache)[key := old(Lookup(cache.cache, cache.db, key))]
  {
    r := cache.RequestSingleton(PLAYER, PlayerId(uuid));
  }

  /** The record `getOrInitPlayerRecord` creates: first seen now, never left, no play time, no joins, no server or address. */
  function NewPlayer(uuid: Uuid, username: string, now: Time): PlayerData {
    PlayerData(false, uuid, username, now, now, None, 0, 0, None, None)
  }

  /** What `getOrInitPlayerRecord` returns against the cache contents `c`, and the contents it leaves. */
  function InitPlayer(c: map<CacheKey, CacheLoader<PlayerData>>, db: Database<PlayerData>, uuid: Uuid, username: string, now: Time)
    : (PlayerData, map<CacheKey, CacheLoader<PlayerData>>)
  {
    var key := CacheKey(PLAYER, PlayerId(uuid));
    var found := Lookup(c, db, key);
    if found.payloadSingleton.Some? then (found.payloadSingleton.value, c[key := found])
    else (NewPlayer(uuid, username, now), c[key := Singleton(Some(NewPlayer(uuid, username, now)))])
  }

  /**
   * `getOrInitPlayerRecord`: the existing record, or a new one, which is put
   * in the cache as the player's singleton. Either way a later lookup finds
   * the returned record.
   */
  method GetOrInitPlayerRecord(cache: RecordCache<PlayerData>, uuid: Uuid, username: string, now: Time)
    returns (p: PlayerData)
    modifies cache
    ensures (p, cache.cache) == InitPlayer(old(cache.cache), cache.db, uuid, username, now)
    ensures Lookup(cache.cache, cache.db, CacheKey(PLAYER, PlayerId(uuid))).payloadSingleton == Some(p)
  {
    ghost var key := CacheKey(PLAYER, PlayerId(uuid));
    ghost var before := cache.cache;
    var record := GetPlayerRecord(cache, uuid);
    if record.Some? {
      return record.value;
    }
    var created := new PlayerRecord(uuid, username, now, None, None);
    p := created.Data();
    cache.Insert(PLAYER, PlayerId(uuid), Singleton(Some(p)));
    assert cache.cache == before[key := Singleton(Some(p))];
  }

  /** Initialising twice is initialising once: the second call finds the first call's record and leaves the cache as it was. */
  lemma InitPlayerIdempotent(c: map<CacheKey, CacheLoader<PlayerData>>, db: Database<PlayerData>, uuid: Uuid,
                             username: string, username2: string, now: Time, now2: Time)
    ensures var (p, c1) := InitPlayer(c, db, uuid, username, now);
            InitPlayer(c1, db, uuid, username2, now2) == (p, c1)
  {
    var key := CacheKey(PLAYER, PlayerId(uuid));
    var (p, c1) := InitPlayer(c, db, uuid, username, now);
    assert key in c1 && c1[key].payloadSingleton == Some(p);
    assert c1[key := c1[key]] == c1;
  }

  /** A player already known keeps their record: the name and time given are ignored. */
  lemma InitPlayerKeepsExisting(c: map<CacheKey, CacheLoader<PlayerData>>, db: Database<PlayerData>, uuid: Uuid, username: string, now: Time)
    requires Lookup(c, db, CacheKey(PLAYER, PlayerId(uuid))).payloadSingleton.Some?
    ensures InitPlayer(c, db, uuid, username, now).0 == Lookup(c, db, CacheKey(PLAYER, PlayerId(uuid))).payloadSingleton.value
  {
  }

  // ---------------------------------------------------------------------------
  // Unban and unmute

  /**
   * Whether an active record has already lapsed: temporary and past its end
   * date. A temporary record with no end date makes the date comparison throw.
   */
  function Lapsed(p: Punishment, now: Time): Outcome<bool> {
    if !ScopedRecords.IsTemporary(p) then Ok(false)
    else if p.terminationDate.None? then Throws(NullPointerException)
    else Ok(now > p.terminationDate.value)
  }

  /** The records handed to the committer, how many commits did not throw, and the exception that ended the loop, if any. */
  datatype Run = Run(handed: seq<Punishment>, count: nat, failure: Option<Exception>)

  /**
   * One turn of the loop: lapsed records are skipped, eligible ones are ended
   * and committed. `clock(k)` is the time `unbanNow` / `unmuteNow` reads when
   * it ends the k-th record of the run, counting from 0.
   */
  function Step(run: Run, p: Punishment, now: Time, clock: nat -> Time, staff: Option<Uuid>, reason: Option<string>,
                commits: Punishment -> bool, eligible: Punishment -> bool): Run
  {
    match Lapsed(p, now)
    case Throws(e) => run.(failure := Some(e))
    case Ok(lapsed) =>
      if lapsed || !eligible(p) then run
      else
        var q := TerminatedNow(p, staff, reason, clock(|run.handed|));
        Run(run.handed + [q], run.count + (if commits(q) then 1 else 0), None)
  }

  /** The loop of the unban and unmute operations over `records`, in order, stopping at the first exception. */
  function Unpunish(records: seq<Punishment>, now: Time, clock: nat -> Time, staff: Option<Uuid>, reason: Option<string>,
                    commits: Punishment -> bool, eligible: Punishment -> bool): Run
    decreases |records|
  {
    if records == [] then Run([], 0, None)
    else
      var run := Unpunish(records[..|records| - 1], now, clock, staff, reason, commits, eligible);
      if run.failure.Some? then run
      else Step(run, records[|records| - 1], now, clock, staff, reason, commits, eligible)
  }

  /** The number of records in `handed` whose commit did not throw. */
  function Committed(handed: seq<Punishment>, commits: Punishment -> bool): (n: nat)
    ensures n <= |handed|
  {
    if handed == [] then 0
    else Committed(handed[..|handed| - 1], commits) + (if commits(handed[|handed| - 1]) then 1 else 0)
  }

  /** The records the loop keeps: not lapsed, and eligible. */
  function Kept(records: seq<Punishment>, now: Time, eligible: Punishment -> bool): seq<Punishment>
    decreases |records|
  {
    if records == [] then []
    else
      var p := records[|records| - 1];
      Kept(records[..|records| - 1], now, eligible) + (if Lapsed(p, now) == Ok(false) && eligible(p) then [p] else [])
  }

  /** The i-th record ended at the i-th clock reading, by `staff` for `reason`. */
  function EndedAll(records: seq<Punishment>, clock: nat -> Time, staff: Option<Uuid>, reason: Option<string>): (r: seq<Punishment>)
    ensures |r| == |records|
    ensures forall i :: 0 <= i < |r| ==> r[i] == TerminatedNow(records[i], staff, reason, clock(i))
  {
    seq(|records|, i requires 0 <= i < |records| => TerminatedNow(records[i], staff, reason, clock(i)))
  }

  /**
   * The count returned is the number of handed records whose commit did not
   * throw, and no more records are handed than were read.
   */
  lemma {:induction false} UnpunishCounts(records: seq<Punishment>, now: Time, clock: nat -> Time, staff: Option<Uuid>, reason: Option<string>,
                                          commits: Punishment -> bool, eligible: Punishment -> bool)
    ensures var run := Unpunish(records, now, clock, staff, reason, commits, eligible);
            run.count == Committed(run.handed, commits) && |run.handed| <= |records|
    decreases |records|
  {
    if records != [] {
      var init := records[..|records| - 1];
      UnpunishCounts(init, now, clock, staff, reason, commits, eligible);
      var run := Unpunish(init, now, clock, staff, reason, commits, eligible);
      if run.failure.None? {
        var next := Step(run, records[|records| - 1], now, clock, staff, reason, commits, eligible);
        if |next.handed| != |run.handed| {
          assert next.handed[..|next.handed| - 1] == run.handed;
        }
      }
    }
  }

  /**
   * When the loop ends without an exception, exactly the records that had
   * not lapsed and were eligible were handed to the committer, each once, in
   * order, the k-th of them ended at the k-th clock reading by `staff` for
   * `reason`.
   */
  lemma {:induction false} UnpunishHandsKept(records: seq<Punishment>, now: Time, clock: nat -> Time, staff: Option<Uuid>, reason: Option<string>,
                                             commits: Punishment -> bool, eligible: Punishment -> bool)
    ensures var run := Unpunish(records, now, clock, staff, reason, commits, eligible);
            run.failure.None? ==> run.handed == EndedAll(Kept(records, now, eligible), clock, staff, reason)
    decreases |records|
  {
    if records != [] {
      var init := records[..|records| - 1];
      UnpunishHandsKept(init, now, clock, staff, reason, commits, eligible);
      var run := Unpunish(init, now, clock, staff, reason, commits, eligible);
      var p := records[|records| - 1];
      if run.failure.None? && Lapsed(p, now) == Ok(false) && eligible(p) {
        EndedAllSnoc(Kept(init, now, eligible), p, clock, staff, reason);
      }
    }
  }

  /** Ending one more record takes the next clock reading. */
  lemma EndedAllSnoc(records: seq<Punishment>, p: Punishment, clock: nat -> Time, staff: Option<Uuid>, reason: Option<string>)
    ensures EndedAll(records + [p], clock, staff, reason)
            == EndedAll(records, clock, staff, reason) + [TerminatedNow(p, staff, reason, clock(|records|))]
  {
    var l, r := EndedAll(records + [p], clock, staff, reason), EndedAll(records, clock, staff, reason) + [TerminatedNow(p, staff, reason, clock(|records|))];
    assert forall i :: 0 <= i < |l| ==> l[i] == r[i];
  }

  /**
   * Every record handed to the committer has ended: status ENDED, the given
   * staff and reason, and as end date the clock reading of its own turn.
   */
  lemma {:induction false} UnpunishEndsHanded(records: seq<Punishment>, now: Time, clock: nat -> Time, staff: Option<Uuid>, reason: Option<string>,
                                              commits: Punishment -> bool, eligible: Punishment -> bool)
    ensures var run := Unpunish(records, now, clock, staff, reason, commits, eligible);
            forall k :: 0 <= k < |run.handed| ==>
              && run.handed[k].status == ENDED && run.handed[k].terminationDate == Some(clock(k))
              && run.handed[k].terminatingStaff == staff && run.handed[k].terminationReason == reason
    decreases |records|
  {
    if records != [] {
      var init := records[..|records| - 1];
      UnpunishEndsHanded(init, now, clock, staff, reason, commits, eligible);
      var run := Unpunish(init, now, clock, staff, reason, commits, eligible);
      if run.failure.None? {
        StepHands(run, records[|records| - 1], now, clock, staff, reason, commits, eligible);
      }
    }
  }

  /** A turn hands over nothing, or the record ended at the reading of its turn. */
  lemma StepHands(run: Run, p: Punishment, now: Time, clock: nat -> Time, staff: Option<Uuid>, reason: Option<string>,
                  commits: Punishment -> bool, eligible: Punishment -> bool)
    ensures var next := Step(run, p, now, clock, staff, reason, commits, eligible);
            next.handed == run.handed || next.handed == run.handed + [TerminatedNow(p, staff, reason, clock(|run.handed|))]
  {
  }

  /** Two eligibility tests that agree on every record give the same loop. */
  lemma {:induction false} UnpunishEligibleAgree(records: seq<Punishment>, now: Time, clock: nat -> Time, staff: Option<Uuid>, reason: Option<string>,
                                                 commits: Punishment -> bool, e1: Punishment -> bool, e2: Punishment -> bool)
    requires forall p :: p in records ==> e1(p) == e2(p)
    ensures Unpunish(records, now, clock, staff, reason, commits, e1) == Unpunish(records, now, clock, staff, reason, commits, e2)
    decreases |records|
  {
    if records != [] {
      var init := records[..|records| - 1];
      assert forall p :: p in init ==> p in records;
      UnpunishEligibleAgree(init, now, clock, staff, reason, commits, e1, e2);
    }
  }

  /** A committer that never throws makes the count the number of records handed. */
  lemma {:induction false} CommittedAll(handed: seq<Punishment>, commits: Punishment -> bool)
    requires forall q :: q in handed ==> commits(q)
    ensures Committed(handed, commits) == |handed|
    decreases |handed|
  {
    if handed != [] {
      var init := handed[..|handed| - 1];
      assert forall q :: q in init ==> q in handed;
      CommittedAll(init, commits);
    }
  }

  /**
   * With the event-firing committer, committing an ended ban never throws
   * (it only throws for records that are not bans, mutes, kicks or
   * comments), so unbanning counts every record it hands over.
   */
  lemma UnbanWithEventFiringCommitter(records: seq<Punishment>, now: Time, clock: nat -> Time, staff: Option<Uuid>, reason: Option<string>,
                                      eligible: Punishment -> bool, modes: set<Committers.CommitterMode>,
                                      targetOf: Punishment -> Committers.Target, withheldOf: Punishment -> bool,
                                      fire: Committers.EventSetup -> Committers.EventOutcome)
    ensures var commits := (q: Punishment) => Committers.Decide(modes, Committers.BanLive(q), targetOf(q), withheldOf(q), fire).Ok?;
            var run := Unpunish(records, now, clock, staff, reason, commits, eligible);
            run.count == |run.handed|
  {
    var commits := (q: Punishment) => Committers.Decide(modes, Committers.BanLive(q), targetOf(q), withheldOf(q), fire).Ok?;
    UnpunishCounts(records, now, clock, staff, reason, commits, eligible);
    var run := Unpunish(records, now, clock, staff, reason, commits, eligible);
    CommittedAll(run.handed, commits);
  }

  /** The records a status lookup reads: the kind's table, by UUID, status ACTIVE, no options. */
  function ActiveRecords(db: Database<Punishment>, k: Kind, uuid: Uuid): seq<Punishment> {
    db.records(Query(KindTable(k), false, Some(ACTIVE)), PlayerId(uuid), None)
  }

  /** Whether some context of `contexts` accepts the record. */
  predicate AnyContext(p: Punishment, contexts: seq<string>, test: ContextTest) {
    exists i :: 0 <= i < |contexts| && test(p, Some(contexts[i]))
  }

  /** The inner loop of the in-contexts operations: it stops at the first context that accepts the record. */
  method MatchesSomeContext(p: Punishment, contexts: seq<string>, test: ContextTest) returns (found: bool)
    ensures found <==> AnyContext(p, contexts, test)
  {
    var i := 0;
    while i < |contexts|
      invariant 0 <= i <= |contexts|
      invariant forall j :: 0 <= j < i ==> !test(p, Some(contexts[j]))
    {
      if test(p, Some(contexts[i])) {
        return true;
      }
      i := i + 1;
    }
    return false;
  }

  /** Which records an operation may lift: every one for the everywhere variants, else those some context accepts. */
  function Eligibility(all: bool, contexts: seq<string>, test: ContextTest): Punishment -> bool {
    p => all || AnyContext(p, contexts, test)
  }

  /** Once the loop has thrown, the records after the one that threw change nothing. */
  lemma {:induction false} UnpunishStops(records: seq<Punishment>, n: nat, now: Time, clock: nat -> Time, staff: Option<Uuid>, reason: Option<string>,
                                         commits: Punishment -> bool, eligible: Punishment -> bool)
    requires n <= |records|
    requires Unpunish(records[..n], now, clock, staff, reason, commits, eligible).failure.Some?
    ensures Unpunish(records, now, clock, staff, reason, commits, eligible) == Unpunish(records[..n], now, clock, staff, reason, commits, eligible)
    decreases |records| - n
  {
    if n < |records| {
      var init := records[..|records| - 1];
      assert init[..n] == records[..n];
      UnpunishStops(init, n, now, clock, staff, reason, commits, eligible);
    } else {
      assert records[..n] == records;
    }
  }

  /** One turn of the unban loop: the lapse check, then (in contexts) the inner context loop, then the commit. */
  method UnpunishOne(record: Punishment, now: Time, clock: nat -> Time, staff: Option<Uuid>, reason: Option<string>,
                     all: bool, contexts: seq<string>, test: ContextTest, commits: Punishment -> bool, run: Run)
    returns (next: Run)
    requires run.failure.None?
    ensures next == Step(run, record, now, clock, staff, reason, commits, Eligibility(all, contexts, test))
  {
    if ScopedRecords.IsTemporary(record) {
      if record.terminationDate.None? {
        return run.(failure := Some(NullPointerException));
      }
      if now > record.terminationDate.value {
        return run;
      }
    }
    var accepted := all;
    if !all {
      accepted := MatchesSomeContext(record, contexts, test);
    }
    if !accepted {
      return run;
    }
    var ended := TerminatedNow(record, staff, reason, clock(|run.handed|));
    next := Run(run.handed + [ended], if commits(ended) then run.count + 1 else run.count, None);
  }

  /**
   * `unbanPlayerEverywhere` / `unmutePlayerEverywhere` (all = true) and
   * `unbanPlayerInContexts` / `unmutePlayerInContexts` (all = false): read
   * the player's active records; skip lapsed ones; end each remaining one
   * (in contexts: only one some context accepts) and commit it; count the
   * commits that did not throw. `handed` lists what the committer received.
   */
  method UnpunishPlayer(db: Database<Punishment>, k: Kind, uuid: Uuid, staff: Option<Uuid>, reason: Option<string>,
                        all: bool, contexts: seq<string>, now: Time, clock: nat -> Time,
                        test: ContextTest, commits: Punishment -> bool)
    returns (r: Outcome<int>, handed: seq<Punishment>)
    ensures var run := Unpunish(ActiveRecords(db, k, uuid), now, clock, staff, reason, commits, Eligibility(all, contexts, test));
            handed == run.handed
            && r == (if run.failure.Some? then Throws(run.failure.value) else Ok(run.count))
  {
    var records := ActiveRecords(db, k, uuid);
    ghost var eligible := Eligibility(all, contexts, test);
    var run := Run([], 0, None);
    var i := 0;
    while i < |records|
      invariant 0 <= i <= |records|
      invariant run.failure.None?
      invariant Unpunish(records[..i], now, clock, staff, reason, commits, eligible) == run
    {
      assert records[..i + 1][..i] == records[..i];
      run := UnpunishOne(records[i], now, clock, staff, reason, all, contexts, test, commits, run);
      i := i + 1;
      if run.failure.Some? {
        UnpunishStops(records, i, now, clock, staff, reason, commits, eligible);
        return Throws(run.failure.value), run.handed;
      }
    }
    assert records[..i] == records;
    r, handed := Ok(run.count), run.handed;
  }

  /** In contexts, a list with a context that accepts every record lifts exactly what the everywhere variant lifts. */
  lemma InContextsCoverEverywhere(records: seq<Punishment>, now: Time, clock: nat -> Time, staff: Option<Uuid>, reason: Option<string>,
                                  commits: Punishment -> bool, contexts: seq<string>, test: ContextTest)
    requires forall p :: p in records ==> AnyContext(p, contexts, test)
    ensures Unpunish(records, now, clock, staff, reason, commits, Eligibility(false, contexts, test))
         == Unpunish(records, now, clock, staff, reason, commits, Eligibility(true, contexts, test))
  {
    UnpunishEligibleAgree(records, now, clock, staff, reason, commits, Eligibility(false, contexts, test), Eligibility(true, contexts, test));
  }

  /** In contexts, only records some context accepts are lifted, each at most once, in order. */
  lemma InContextsNeedsAContext(records: seq<Punishment>, now: Time, clock: nat -> Time, staff: Option<Uuid>, reason: Option<string>,
                                commits: Punishment -> bool, contexts: seq<string>, test: ContextTest)
    ensures var run := Unpunish(records, now, clock, staff, reason, commits, Eligibility(false, contexts, test));
            var kept := Kept(records, now, Eligibility(false, contexts, test));
            run.failure.None? ==>
              run.handed == EndedAll(kept, clock, staff, reason)
              && forall p :: p in kept ==> p in records && AnyContext(p, contexts, test)
  {
    UnpunishHandsKept(records, now, clock, staff, reason, commits, Eligibility(false, contexts, test));
    KeptEligible(records, now, Eligibility(false, contexts, test));
  }

  /** Every kept record is eligible and had not lapsed. */
  lemma {:induction false} KeptEligible(records: seq<Punishment>, now: Time, eligible: Punishment -> bool)
    ensures forall p :: p in Kept(records, now, eligible) ==> p in records && eligible(p) && Lapsed(p, now) == Ok(false)
    decreases |records|
  {
    if records != [] {
      var init := records[..|records| - 1];
      KeptEligible(init, now, eligible);
      assert forall p :: p in init ==> p in records;
    }
  }

  /**
   * `unbanPlayerInGlobalContextOnly` / `unmutePlayerInGlobalContextOnly`:
   * the active record found by UUID with globals included and no context is
   * ended and committed; true when that commit did not throw. At most one
   * record is ended, so `unbanNow` / `unmuteNow` reads the clock at most once:
   * `endTime` is that reading.
   */
  method UnpunishGlobal(cache: RecordCache<Punishment>, k: Kind, uuid: Uuid, staff: Option<Uuid>, reason: Option<string>,
                        endTime: Time, test: ContextTest, commits: Punishment -> bool)
    returns (r: Outcome<bool>, handed: seq<Punishment>)
    modifies cache
    ensures |handed| <= 1
    ensures var found := ActiveIn(old(cache.cache), cache.db, ActiveGroup(k, false), PlayerId(uuid), None, true, test);
            && (found.Throws? ==> r == Throws(found.ex) && handed == [])
            && (found.Ok? && found.value.None? ==> r == Ok(false) && handed == [])
            && (found.Ok? && found.value.Some? ==>
                  var q := TerminatedNow(found.value.value, staff, reason, endTime);
                  handed == [q] && r == Ok(commits(q)))
  {
    handed := [];
    var record := GetActiveRecord(cache, k, PlayerId(uuid), None, true, test);
    if record.Throws? {
      return Throws(record.ex), handed;
    }
    if record.value.None? {
      return Ok(false), handed;
    }
    var ended := TerminatedNow(record.value.value, staff, reason, endTime);
    handed := [ended];
    r := Ok(commits(ended));
  }

  /** The global-only unban finds a record whenever the player has a context-free one among their active records. */
  lemma GlobalOnlyFindsGlobal(records: seq<Punishment>, test: ContextTest)
    requires exists i :: 0 <= i < |records| && !HasContext(records[i])
    ensures FirstMatch(records, None, true, test).Some?
  {
    var i :| 0 <= i < |records| && !HasContext(records[i]);
    assert Applies(records[i], None, true, test);
  }

  // ---------------------------------------------------------------------------
  // The unban and unmute operations as written

  /**
   * The `instanceof MutableRecordProvider` test of the unban and unmute
   * operations. The ban and mute records are final classes that do not
   * implement that interface, so the test rejects every one of them.
   */
  function IsMutableProvider(p: Punishment): bool {
    false
  }

  /**
   * As written, the loops apply the lapse check and then the `instanceof`
   * test, before any context is tried: no record is ever handed to the
   * committer and the count is always 0, everywhere and in contexts alike.
   * Only the exception of the lapse check can still end the loop.
   */
  lemma {:induction false} AsWrittenUnpunishLiftsNothing(records: seq<Punishment>, now: Time, clock: nat -> Time, staff: Option<Uuid>,
                                                          reason: Option<string>, commits: Punishment -> bool)
    ensures var run := Unpunish(records, now, clock, staff, reason, commits, IsMutableProvider);
            run.handed == [] && run.count == 0
    decreases |records|
  {
    if records != [] {
      AsWrittenUnpunishLiftsNothing(records[..|records| - 1], now, clock, staff, reason, commits);
    }
  }

  /** A player with one active permanent ban: as written, unbanning everywhere returns 0 and hands nothing over. */
  lemma AsWrittenUnbanReturnsZero(p: Punishment, now: Time, clock: nat -> Time, staff: Option<Uuid>, reason: Option<string>,
                                  commits: Punishment -> bool)
    requires !ScopedRecords.IsTemporary(p)
    ensures Unpunish([p], now, clock, staff, reason, commits, IsMutableProvider) == Run([], 0, None)
    ensures Unpunish([p], now, clock, staff, reason, commits, Eligibility(true, [], (q, c) => true)).handed
            == [TerminatedNow(p, staff, reason, clock(0))]
  {
    assert [p][..0] == [];
  }

  /**
   * `unbanPlayerInGlobalContextOnly` / `unmutePlayerInGlobalContextOnly` as
   * written: the record found never passes the `instanceof` test, so nothing
   * is committed and the answer is false unless the lookup itself throws.
   */
  method UnpunishGlobalAsWritten(cache: RecordCache<Punishment>, k: Kind, uuid: Uuid, staff: Option<Uuid>, reason: Option<string>,
                                 endTime: Time, test: ContextTest, commits: Punishment -> bool)
    returns (r: Outcome<bool>, handed: seq<Punishment>)
    modifies cache
    ensures var found := ActiveIn(old(cache.cache), cache.db, ActiveGroup(k, false), PlayerId(uuid), None, true, test);
            handed == [] && r == (if found.Throws? then Throws(found.ex) else Ok(false))
  {
    handed := [];
    var record := GetActiveRecord(cache, k, PlayerId(uuid), None, true, test);
    if record.Throws? {
      return Throws(record.ex), handed;
    }
    // The record found, if any, fails the `instanceof` test.
    return Ok(false), handed;
  }
}

/*
 * The API's two enumerations: the scope of an administrative action, with
 * its three flags and permission suffix, and the status of a punishment,
 * with its database name.
 */
module ApiData {
  import opened JavaLang

  // ---------------------------------------------------------------------------
  // ActionScope

  datatype ActionScope =
    | DEFAULT
    | TEMPORARY
    | GLOBAL
    | IP
    | TEMPORARY_GLOBAL
    | TEMPORARY_IP
    | GLOBAL_IP
    | TEMPORARY_GLOBAL_IP

  /** `ActionScope.values()`, in declaration order. */
  const ScopeValues: seq<ActionScope> :=
    [DEFAULT, TEMPORARY, GLOBAL, IP, TEMPORARY_GLOBAL, TEMPORARY_IP, GLOBAL_IP, TEMPORARY_GLOBAL_IP]

  /** `ActionScope.SIZE`, the number of scopes. */
  const SIZE: int := |ScopeValues|

  function PermissionSuffix(s: ActionScope): string {
    match s
    case DEFAULT => "base"
    case TEMPORARY => "temp"
    case GLOBAL => "global"
    case IP => "ip"
    case TEMPORARY_GLOBAL => "globaltemp"
    case TEMPORARY_IP => "tempip"
    case GLOBAL_IP => "globalip"
    case TEMPORARY_GLOBAL_IP => "globaltempip"
  }

  predicate IsTemporary(s: ActionScope) {
    s == TEMPORARY || s == TEMPORARY_GLOBAL || s == TEMPORARY_GLOBAL_IP || s == TEMPORARY_IP
  }

  predicate IsGlobal(s: ActionScope) {
    s == GLOBAL || s == TEMPORARY_GLOBAL || s == TEMPORARY_GLOBAL_IP || s == GLOBAL_IP
  }

  predicate IsIP(s: ActionScope) {
    s == IP || s == TEMPORARY_IP || s == TEMPORARY_GLOBAL_IP || s == GLOBAL_IP
  }

  /** `fromFlags`: the one scope whose three flags are the given ones. */
  function FromFlags(temporary: bool, global: bool, ip: bool): (s: ActionScope)
    ensures IsTemporary(s) == temporary
    ensures IsGlobal(s) == global
    ensures IsIP(s) == ip
  {
    if temporary then
      if global then
        if ip then TEMPORARY_GLOBAL_IP else TEMPORARY_GLOBAL
      else
        if ip then TEMPORARY_IP else TEMPORARY
    else
      if global then
        if ip then GLOBAL_IP else GLOBAL
      else
        if ip then IP else DEFAULT
  }

  /** A scope is recovered from its own flags, so `fromFlags` is onto. */
  lemma FromFlagsOfScope(s: ActionScope)
    ensures FromFlags(IsTemporary(s), IsGlobal(s), IsIP(s)) == s
  {
  }

  /** Different flag triples give different scopes, so `fromFlags` is one-to-one. */
  lemma FromFlagsInjective(t1: bool, g1: bool, i1: bool, t2: bool, g2: bool, i2: bool)
    requires FromFlags(t1, g1, i1) == FromFlags(t2, g2, i2)
    ensures t1 == t2 && g1 == g2 && i1 == i2
  {
    var s := FromFlags(t1, g1, i1);
    assert IsTemporary(s) == t1 && IsTemporary(s) == t2;
  }

  /** There are eight scopes, each listed once, and their permission suffixes are pairwise distinct. */
  lemma ScopeTable()
    ensures SIZE == 8
    ensures forall s: ActionScope :: s in ScopeValues
    ensures forall i, j :: 0 <= i < j < |ScopeValues| ==> ScopeValues[i] != ScopeValues[j]
    ensures forall a: ActionScope, b: ActionScope :: PermissionSuffix(a) == PermissionSuffix(b) ==> a == b
  {
    forall s: ActionScope
      ensures s in ScopeValues
    {
      match s
      case DEFAULT => assert ScopeValues[0] == s;
      case TEMPORARY => assert ScopeValues[1] == s;
      case GLOBAL => assert ScopeValues[2] == s;
      case IP => assert ScopeValues[3] == s;
      case TEMPORARY_GLOBAL => assert ScopeValues[4] == s;
      case TEMPORARY_IP => assert ScopeValues[5] == s;
      case GLOBAL_IP => assert ScopeValues[6] == s;
      case TEMPORARY_GLOBAL_IP => assert ScopeValues[7] == s;
    }
  }

  // ---------------------------------------------------------------------------
  // PunishmentStatus

  datatype PunishmentStatus = ACTIVE | EXPIRED | ENDED

  /** `PunishmentStatus.values()`, in declaration order. */
  const StatusValues: seq<PunishmentStatus> := [ACTIVE, EXPIRED, ENDED]

  /** `toString`: the database value. */
  function StatusToString(s: PunishmentStatus): string {
    match s
    case ACTIVE => "Active"
    case EXPIRED => "Expired"
    case ENDED => "Ended"
  }

  /** The loop of `fromString` over `values`: the first status whose database value equals `name`. */
  function FindStatus(values: seq<PunishmentStatus>, name: string): (r: Option<PunishmentStatus>)
    ensures r.Some? ==> r.value in values && StatusToString(r.value) == name
    ensures r.None? ==> forall s :: s in values ==> StatusToString(s) != name
  {
    if values == [] then None
    else if StatusToString(values[0]) == name then Some(values[0])
    else FindStatus(values[1..], name)
  }

  lemma StatusValuesComplete()
    ensures forall s: PunishmentStatus :: s in StatusValues
  {
    forall s: PunishmentStatus
      ensures s in StatusValues
    {
      if s == ACTIVE {
        assert StatusValues[0] == s;
      } else if s == EXPIRED {
        assert StatusValues[1] == s;
      } else {
        assert StatusValues[2] == s;
      }
    }
  }

  /** `fromString`: the status with database value `name`, or `null`. */
  function StatusFromString(name: string): (r: Option<PunishmentStatus>)
    ensures r.Some? ==> StatusToString(r.value) == name
    ensures r.None? ==> forall s: PunishmentStatus :: StatusToString(s) != name
  {
    StatusValuesComplete();
    FindStatus(StatusValues, name)
  }

  /** Reading back the database value of a status gives that status. */
  lemma StatusRoundTrip(s: PunishmentStatus)
    ensures StatusFromString(StatusToString(s)) == Some(s)
  {
    var r := StatusFromString(StatusToString(s));
    assert r.Some?;
    assert StatusToString(r.value) == StatusToString(s);
  }

  /** The comparison is exact: the upper-case spelling of a database value is not recognised. */
  lemma StatusNamesCaseSensitive()
    ensures StatusFromString("ACTIVE") == None
    ensures StatusFromString("active") == None
    ensures StatusFromString("ENDED") == None
  {
  }

  /** The three database values are distinct. */
  lemma StatusNamesDistinct(a: PunishmentStatus, b: PunishmentStatus)
    ensures StatusToString(a) == StatusToString(b) ==> a == b
  {
  }

  // ---------------------------------------------------------------------------
  // Commit results

  /**
   * The statuses a commit can end in: the four of the API enumeration and
   * the three more that the committer returns (no such player, an immune
   * player, an impossible action).
   */
  datatype CommitStatus =
    | COMMITTED
    | CANCELLED
    | CANCELLED_NOEXIST
    | CANCELLED_IMMUNE
    | WITHHELD
    | IMPOSSIBLE
    | ERRORED

  /** `CommitResult`: the record a commit settled on, with its status. */
  datatype CommitResult<T> = CommitResult(record: T, status: CommitStatus)

  /** `LookupOptions`: paging, order and an optional date window for a record query. */
  datatype LookupOptions = LookupOptions(limit: int, offset: int, sortDescending: bool,
                                         dateBefore: Option<Time>, dateAfter: Option<Time>)

  /** `new LookupOptions(limit)`: the first `limit` records, newest first, with no date window. */
  function LimitOnly(limit: int): LookupOptions {
    LookupOptions(limit, 0, true, None, None)
  }
}

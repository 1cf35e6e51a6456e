/*
 * The `commands` section of the configuration: one sub-section per command,
 * each a bag of boolean switches, with the section's validator and the
 * getters the command classes read.
 */
module CommandConfigs {
  import opened JavaLang
  import opened ApiData

  datatype BanSection = BanSection(enabled: bool, temporary: bool, global: bool, ip: bool,
                                   notifyOnUnban: bool, requireReason: bool)
  datatype CommentSection = CommentSection(enabled: bool, notifyOnComment: bool)
  datatype KickSection = KickSection(enabled: bool, global: bool, local: bool, requireReason: bool)

  /** One entry of the mute section's `blockedCommands` and `allowedMessages` maps. */
  datatype ContextBound = ContextBound(regex: bool, allow: bool, block: bool, context: seq<string>)

  datatype MuteSection = MuteSection(enabled: bool, temporary: bool, global: bool, ip: bool,
                                     notifyOnMute: bool, notifyOnUnmute: bool, requireReason: bool,
                                     blockedCommands: map<string, ContextBound>,
                                     allowedMessages: map<string, ContextBound>)
  datatype WarningSection = WarningSection(enabled: bool, notifyOnWarning: bool)
  datatype LookupSection = LookupSection(enabled: bool)

  /** A section the configuration file leaves out is `None` (a `null` field after loading). */
  datatype CommandConfig = CommandConfig(ban: Option<BanSection>, comment: Option<CommentSection>,
                                         kick: Option<KickSection>, mute: Option<MuteSection>,
                                         warn: Option<WarningSection>, lookup: Option<LookupSection>,
                                         stafflookup: Option<LookupSection>)

  predicate AllSections(c: CommandConfig) {
    c.ban.Some? && c.comment.Some? && c.kick.Some? && c.mute.Some?
    && c.warn.Some? && c.lookup.Some? && c.stafflookup.Some?
  }

  /**
   * The first exception of a sequence of checks run one after the other,
   * or success when every check passes.
   */
  function FirstThrow(steps: seq<Outcome<()>>): (r: Outcome<()>)
    ensures r.Ok? <==> forall i :: 0 <= i < |steps| ==> steps[i].Ok?
    ensures r.Throws? ==> exists i :: 0 <= i < |steps| && steps[i] == r
                                      && forall j :: 0 <= j < i ==> steps[j].Ok?
  {
    if |steps| == 0 then Ok(())
    else if steps[0].Throws? then steps[0]
    else
      var rest := FirstThrow(steps[1..]);
      assert forall i :: 1 <= i < |steps| ==> steps[i] == steps[1..][i - 1];
      if rest.Throws? then
        var k :| 0 <= k < |steps[1..]| && steps[1..][k] == rest
                 && forall j :: 0 <= j < k ==> steps[1..][j].Ok?;
        assert steps[k + 1] == rest;
        rest
      else rest
  }

  /** The null check of one section, failing for its configuration key. */
  function Present(present: bool, parentPath: string, key: string): Outcome<()> {
    if present then Ok(()) else Throws(ConfigurationException(parentPath, key))
  }

  /** The null checks of the section in the order `validate` makes them; `warn` is checked under the key "warning". */
  function NullChecks(c: CommandConfig, parentPath: string): seq<Outcome<()>> {
    [Present(c.ban.Some?, parentPath, "ban"),
     Present(c.comment.Some?, parentPath, "comment"),
     Present(c.kick.Some?, parentPath, "kick"),
     Present(c.mute.Some?, parentPath, "mute"),
     Present(c.warn.Some?, parentPath, "warning"),
     Present(c.lookup.Some?, parentPath, "lookup"),
     Present(c.stafflookup.Some?, parentPath, "stafflookup")]
  }

  /**
   * `validate`: succeeds exactly when all seven sections are present;
   * otherwise it fails with a `ConfigurationException` under `parentPath`
   * naming a missing section, the `ban` section before any other.
   */
  function Validate(c: CommandConfig, parentPath: string): (r: Outcome<()>)
    ensures r.Ok? <==> AllSections(c)
    ensures r.Throws? ==> r.ex.ConfigurationException? && r.ex.parentPath == parentPath
    ensures c.ban.None? ==> r == Throws(ConfigurationException(parentPath, "ban"))
  {
    if c.ban.None? then Throws(ConfigurationException(parentPath, "ban"))
    else if c.comment.None? then Throws(ConfigurationException(parentPath, "comment"))
    else if c.kick.None? then Throws(ConfigurationException(parentPath, "kick"))
    else if c.mute.None? then Throws(ConfigurationException(parentPath, "mute"))
    else if c.warn.None? then Throws(ConfigurationException(parentPath, "warning"))
    else if c.lookup.None? then Throws(ConfigurationException(parentPath, "lookup"))
    else if c.stafflookup.None? then Throws(ConfigurationException(parentPath, "stafflookup"))
    else Ok(())
  }

  /** `validate` reports the first missing section in declaration order, and only that one. */
  lemma ValidateIsFirstMissing(c: CommandConfig, parentPath: string)
    ensures Validate(c, parentPath) == FirstThrow(NullChecks(c, parentPath))
  {
    var steps := NullChecks(c, parentPath);
    assert steps[1..][1..] == steps[2..];
    assert steps[2..][1..] == steps[3..];
    assert steps[3..][1..] == steps[4..];
    assert steps[4..][1..] == steps[5..];
    assert steps[5..][1..] == steps[6..];
    assert steps[6..][1..] == [];
    FirstThrowStep(steps);
    FirstThrowStep(steps[1..]);
    FirstThrowStep(steps[2..]);
    FirstThrowStep(steps[3..]);
    FirstThrowStep(steps[4..]);
    FirstThrowStep(steps[5..]);
    FirstThrowStep(steps[6..]);
  }

  /** One step of `FirstThrow`: a failing head wins, otherwise the tail decides. */
  lemma FirstThrowStep(steps: seq<Outcome<()>>)
    requires |steps| > 0
    ensures FirstThrow(steps) == if steps[0].Throws? then steps[0] else FirstThrow(steps[1..])
  {
  }

  /** A getter dereferences its section: `NullPointerException` when the section is missing. */
  function Read<S, T>(section: Option<S>, field: S -> T): (r: Outcome<T>)
    ensures section.None? <==> r.Throws?
    ensures r.Throws? ==> r.ex == NullPointerException
    ensures r.Ok? ==> r.value == field(section.value)
  {
    if section.None? then Throws(NullPointerException) else Ok(field(section.value))
  }

  function IsBanCommandEnabled(c: CommandConfig): Outcome<bool> { Read(c.ban, (b: BanSection) => b.enabled) }
  function IsCommentCommandEnabled(c: CommandConfig): Outcome<bool> { Read(c.comment, (s: CommentSection) => s.enabled) }
  function IsKickCommandEnabled(c: CommandConfig): Outcome<bool> { Read(c.kick, (k: KickSection) => k.enabled) }
  function IsMuteCommandEnabled(c: CommandConfig): Outcome<bool> { Read(c.mute, (m: MuteSection) => m.enabled) }
  function IsWarningCommandEnabled(c: CommandConfig): Outcome<bool> { Read(c.warn, (w: WarningSection) => w.enabled) }
  function IsLookupCommandEnabled(c: CommandConfig): Outcome<bool> { Read(c.lookup, (l: LookupSection) => l.enabled) }
  function AllowGlobalKicks(c: CommandConfig): Outcome<bool> { Read(c.kick, (k: KickSection) => k.global) }
  function AllowLocalKicks(c: CommandConfig): Outcome<bool> { Read(c.kick, (k: KickSection) => k.local) }
  function NotifyPlayerOnComment(c: CommandConfig): Outcome<bool> { Read(c.comment, (s: CommentSection) => s.notifyOnComment) }
  function NotifyPlayerOnWarning(c: CommandConfig): Outcome<bool> { Read(c.warn, (w: WarningSection) => w.notifyOnWarning) }
  function BanRequiresReason(c: CommandConfig): Outcome<bool> { Read(c.ban, (b: BanSection) => b.requireReason) }
  function KickRequiresReason(c: CommandConfig): Outcome<bool> { Read(c.kick, (k: KickSection) => k.requireReason) }
  function MuteRequiresReason(c: CommandConfig): Outcome<bool> { Read(c.mute, (m: MuteSection) => m.requireReason) }

  /**
   * `getEnabledBanScopes`: the scope whose temporary, global and IP flags are
   * the ban section's switches.
   */
  function GetEnabledBanScopes(c: CommandConfig): (r: Outcome<ActionScope>)
    ensures c.ban.None? <==> r == Throws(NullPointerException)
    ensures r.Ok? ==> IsTemporary(r.value) == c.ban.value.temporary
                      && IsGlobal(r.value) == c.ban.value.global
                      && IsIP(r.value) == c.ban.value.ip
  {
    if c.ban.None? then Throws(NullPointerException)
    else Ok(FromFlags(c.ban.value.temporary, c.ban.value.global, c.ban.value.ip))
  }

  /** `getEnabledMuteScopes`: the same for the mute section's switches. */
  function GetEnabledMuteScopes(c: CommandConfig): (r: Outcome<ActionScope>)
    ensures c.mute.None? <==> r == Throws(NullPointerException)
    ensures r.Ok? ==> IsTemporary(r.value) == c.mute.value.temporary
                      && IsGlobal(r.value) == c.mute.value.global
                      && IsIP(r.value) == c.mute.value.ip
  {
    if c.mute.None? then Throws(NullPointerException)
    else Ok(FromFlags(c.mute.value.temporary, c.mute.value.global, c.mute.value.ip))
  }

  /** Any scope can be configured: the section switches set to its flags give exactly that scope back. */
  lemma ScopeRoundTrip(c: CommandConfig, s: ActionScope)
    requires c.ban.Some? && c.ban.value.temporary == IsTemporary(s)
    requires c.ban.value.global == IsGlobal(s) && c.ban.value.ip == IsIP(s)
    requires c.mute.Some? && c.mute.value.temporary == IsTemporary(s)
    requires c.mute.value.global == IsGlobal(s) && c.mute.value.ip == IsIP(s)
    ensures GetEnabledBanScopes(c) == Ok(s)
    ensures GetEnabledMuteScopes(c) == Ok(s)
  {
    FromFlagsOfScope(s);
  }

  /** Two configurations with the same enabled ban scopes agree on all three ban switches. */
  lemma BanScopeDeterminesSwitches(c1: CommandConfig, c2: CommandConfig)
    requires GetEnabledBanScopes(c1).Ok? && GetEnabledBanScopes(c1) == GetEnabledBanScopes(c2)
    ensures c1.ban.value.temporary == c2.ban.value.temporary
    ensures c1.ban.value.global == c2.ban.value.global
    ensures c1.ban.value.ip == c2.ban.value.ip
  {
    FromFlagsInjective(c1.ban.value.temporary, c1.ban.value.global, c1.ban.value.ip,
                       c2.ban.value.temporary, c2.ban.value.global, c2.ban.value.ip);
  }

  /** Once the section has validated, every getter returns its section's field and none throws. */
  lemma ValidatedGettersRead(c: CommandConfig, parentPath: string)
    requires Validate(c, parentPath).Ok?
    ensures IsBanCommandEnabled(c) == Ok(c.ban.value.enabled)
    ensures IsCommentCommandEnabled(c) == Ok(c.comment.value.enabled)
    ensures IsKickCommandEnabled(c) == Ok(c.kick.value.enabled)
    ensures IsMuteCommandEnabled(c) == Ok(c.mute.value.enabled)
    ensures IsWarningCommandEnabled(c) == Ok(c.warn.value.enabled)
    ensures IsLookupCommandEnabled(c) == Ok(c.lookup.value.enabled)
    ensures AllowGlobalKicks(c) == Ok(c.kick.value.global)
    ensures AllowLocalKicks(c) == Ok(c.kick.value.local)
    ensures NotifyPlayerOnComment(c) == Ok(c.comment.value.notifyOnComment)
    ensures NotifyPlayerOnWarning(c) == Ok(c.warn.value.notifyOnWarning)
    ensures BanRequiresReason(c) == Ok(c.ban.value.requireReason)
    ensures KickRequiresReason(c) == Ok(c.kick.value.requireReason)
    ensures MuteRequiresReason(c) == Ok(c.mute.value.requireReason)
    ensures GetEnabledBanScopes(c).Ok? && GetEnabledMuteScopes(c).Ok?
  {
  }

  /** Conversely, a getter that throws reveals a section `validate` would have rejected. */
  lemma ThrowingGetterFailsValidation(c: CommandConfig, parentPath: string)
    requires IsBanCommandEnabled(c).Throws? || IsCommentCommandEnabled(c).Throws?
             || IsKickCommandEnabled(c).Throws? || IsMuteCommandEnabled(c).Throws?
             || IsWarningCommandEnabled(c).Throws? || IsLookupCommandEnabled(c).Throws?
    ensures Validate(c, parentPath).Throws?
  {
  }
}

/*
 * `MessageProvider`: the cache of loaded language files, the fallback from a
 * missing language to the configured default language and then to en_US,
 * message lookup with the plugin prefix, the message keys of the
 * administrative commands, and the flag packing used to pick a message.
 *
 * The language directory is a parameter: a map from a language to the
 * content of its "<language>.yml" file (`None` for an empty file). A
 * language that is not in the map is a file that cannot be read.
 */
module MessageProviders {
  import opened JavaLang
  import opened ApiData
  import opened Messages
  import opened TimeUnits
  import opened TimeUnitNames
  import opened TimeRanges
  import opened LanguageGroups

  const DEFAULT_LANGUAGE: string := "en_US"

  /** The message of the exception thrown when neither the default nor the fallback language loads. */
  const LOAD_FAILURE: string := "Failed to load default and/or fallback languages"

  /** `EASYADMIN.PREFIX` */
  const PREFIX: MessageKey := MessageKey("easyadmin.prefix", false)

  // ---------------------------------------------------------------------------
  // createFlagsInt

  function Pow2(n: nat): (r: nat)
    ensures r >= 1
  {
    if n == 0 then 1 else 2 * Pow2(n - 1)
  }

  /** The number whose bit `i` is set exactly when flag `i` is true. */
  function FlagsValue(flags: seq<bool>): nat
    decreases |flags|
  {
    if flags == [] then 0
    else FlagsValue(flags[..|flags| - 1]) + if flags[|flags| - 1] then Pow2(|flags| - 1) else 0
  }

  /** `createFlagsInt`: adds 1, 2, 4, ... for the true flags, in `int` arithmetic. */
  method CreateFlagsInt(flags: seq<bool>) returns (x: int)
    ensures x == Wrap32(FlagsValue(flags))
  {
    x := 0;
    var m := 1;
    var i := 0;
    while i < |flags|
      invariant 0 <= i <= |flags|
      invariant x == Wrap32(FlagsValue(flags[..i]))
      invariant m == Wrap32(Pow2(i))
    {
      FlagStep(flags, i);
      if flags[i] {
        x := Wrap32(x + m);
      }
      Wrap32Double(Pow2(i));
      m := Wrap32(m * 2);
      i := i + 1;
    }
    assert flags[..i] == flags;
  }

  /** One more flag adds its power of two, if set, to the wrapped sum. */
  lemma FlagStep(flags: seq<bool>, i: int)
    requires 0 <= i < |flags|
    ensures Wrap32(FlagsValue(flags[..i + 1]))
            == if flags[i] then Wrap32(Wrap32(FlagsValue(flags[..i])) + Wrap32(Pow2(i))) else Wrap32(FlagsValue(flags[..i]))
  {
    assert flags[..i + 1][..i] == flags[..i];
    Wrap32Add(FlagsValue(flags[..i]), Pow2(i));
  }

  lemma {:induction false} FlagsValueBound(flags: seq<bool>)
    ensures FlagsValue(flags) < Pow2(|flags|)
    decreases |flags|
  {
    if flags != [] {
      FlagsValueBound(flags[..|flags| - 1]);
    }
  }

  lemma {:induction false} Pow2Monotone(n: nat, k: nat)
    requires n <= k
    ensures Pow2(n) <= Pow2(k)
    decreases k
  {
    if n < k {
      Pow2Monotone(n, k - 1);
    }
  }

  /** With at most 31 flags nothing wraps: the result is the sum of 2^i over the true flags, and 0 for none. */
  lemma FlagsFitInInt(flags: seq<bool>)
    requires |flags| <= 31
    ensures Wrap32(FlagsValue(flags)) == FlagsValue(flags)
    ensures flags == [] ==> FlagsValue(flags) == 0
  {
    FlagsValueBound(flags);
    Pow2Monotone(|flags|, 31);
    Pow2At31();
  }

  lemma {:induction false} Pow2Sum(a: nat, b: nat)
    ensures Pow2(a + b) == Pow2(a) * Pow2(b)
    decreases a
  {
    if a > 0 {
      Pow2Sum(a - 1, b);
    }
  }

  lemma Pow2At31()
    ensures Pow2(31) == 0x8000_0000
  {
    assert Pow2(3) == 8;
    Pow2Sum(3, 3);
    Pow2Sum(6, 6);
    Pow2Sum(12, 12);
    Pow2Sum(24, 6);
    Pow2Sum(30, 1);
  }

  /** Different flag lists of the same length give different numbers. */
  lemma {:induction false} FlagsValueInjective(f: seq<bool>, g: seq<bool>)
    requires |f| == |g|
    requires FlagsValue(f) == FlagsValue(g)
    ensures f == g
    decreases |f|
  {
    if f != [] {
      var n := |f| - 1;
      FlagsValueBound(f[..n]);
      FlagsValueBound(g[..n]);
      if f[n] != g[n] {
        assert false;
      }
      FlagsValueInjective(f[..n], g[..n]);
      assert f == f[..n] + [f[n]] && g == g[..n] + [g[n]];
    }
  }

  // ---------------------------------------------------------------------------
  // Message keys of the administrative commands

  /** The command part of the ban keys, one per scope, as the key table lists them. */
  function BanStem(scope: ActionScope): string {
    match scope
    case DEFAULT => "ban"
    case GLOBAL => "banAll"
    case GLOBAL_IP => "banIPAll"
    case IP => "banIP"
    case TEMPORARY => "tempBan"
    case TEMPORARY_GLOBAL => "tempBanAll"
    case TEMPORARY_GLOBAL_IP => "tempBanIPAll"
    case TEMPORARY_IP => "tempBanIP"
  }

  /** The command part of the mute keys, one per scope, as the key table lists them. */
  function MuteStem(scope: ActionScope): string {
    match scope
    case DEFAULT => "mute"
    case GLOBAL => "muteAll"
    case GLOBAL_IP => "muteIPAll"
    case IP => "muteIP"
    case TEMPORARY => "tempMute"
    case TEMPORARY_GLOBAL => "tempMuteAll"
    case TEMPORARY_GLOBAL_IP => "tempMuteIPAll"
    case TEMPORARY_IP => "tempMuteIP"
  }

  /** A key of the table: "admin.", the command part, then ".usage" or ".description". */
  function AdminKey(stem: string, usageMsg: bool): MessageKey {
    MessageKey("admin." + stem + (if usageMsg then ".usage" else ".description"), false)
  }

  /** `getBanCommandMessage`: the usage or description key of the ban command of each scope. */
  function BanCommandMessage(scope: ActionScope, usageMsg: bool): MessageKey {
    AdminKey(BanStem(scope), usageMsg)
  }

  /** `getMuteCommandMessage`: the usage or description key of the mute command of each scope. */
  function MuteCommandMessage(scope: ActionScope, usageMsg: bool): MessageKey {
    AdminKey(MuteStem(scope), usageMsg)
  }

  /** `getKickCommandMessage`: one key for global kicks and one for the rest. */
  function KickCommandMessage(scope: ActionScope, usageMsg: bool): MessageKey {
    if IsGlobal(scope) then
      if usageMsg then MessageKey("admin.kickAll.usage", false) else MessageKey("admin.kickAll.description", false)
    else
      if usageMsg then MessageKey("admin.kick.usage", false) else MessageKey("admin.kick.description", false)
  }

  function CommentCommandMessage(usageMsg: bool): MessageKey {
    if usageMsg then MessageKey("admin.comment.usage", false) else MessageKey("admin.comment.description", false)
  }

  function WarnCommandMessage(usageMsg: bool): MessageKey {
    if usageMsg then MessageKey("admin.warn.usage", false) else MessageKey("admin.warn.description", false)
  }

  function LookupCommandMessage(usageMsg: bool): MessageKey {
    if usageMsg then MessageKey("admin.lookup.usage", false) else MessageKey("admin.lookup.description", false)
  }

  function StaffLookupCommandMessage(usageMsg: bool): MessageKey {
    if usageMsg then MessageKey("admin.staffLookup.usage", false) else MessageKey("admin.staffLookup.description", false)
  }

  /**
   * The naming scheme the key tables follow: "admin.", the command stem,
   * then ".usage" or ".description". The stem is the command (with "temp"
   * and a capital for temporary scopes), then "IP" for IP scopes and "All"
   * for global scopes.
   */
  function CommandStem(command: string, capitalized: string, scope: ActionScope): string {
    (if IsTemporary(scope) then "temp" + capitalized else command)
    + (if IsIP(scope) then "IP" else "") + (if IsGlobal(scope) then "All" else "")
  }

  /** Every ban key follows the scheme, for all eight scopes, and none adds the prefix. */
  lemma BanKeysFollowScheme(scope: ActionScope, usageMsg: bool)
    ensures BanCommandMessage(scope, usageMsg) == AdminKey(CommandStem("ban", "Ban", scope), usageMsg)
  {
    match scope
    case DEFAULT => assert CommandStem("ban", "Ban", scope) == "ban";
    case GLOBAL => assert CommandStem("ban", "Ban", scope) == "banAll";
    case GLOBAL_IP => assert CommandStem("ban", "Ban", scope) == "banIPAll";
    case IP => assert CommandStem("ban", "Ban", scope) == "banIP";
    case TEMPORARY => assert CommandStem("ban", "Ban", scope) == "tempBan";
    case TEMPORARY_GLOBAL => assert CommandStem("ban", "Ban", scope) == "tempBanAll";
    case TEMPORARY_GLOBAL_IP => assert CommandStem("ban", "Ban", scope) == "tempBanIPAll";
    case TEMPORARY_IP => assert CommandStem("ban", "Ban", scope) == "tempBanIP";
  }

  /** Every mute key follows the scheme, for all eight scopes, and none adds the prefix. */
  lemma MuteKeysFollowScheme(scope: ActionScope, usageMsg: bool)
    ensures MuteCommandMessage(scope, usageMsg) == AdminKey(CommandStem("mute", "Mute", scope), usageMsg)
  {
    match scope
    case DEFAULT => assert CommandStem("mute", "Mute", scope) == "mute";
    case GLOBAL => assert CommandStem("mute", "Mute", scope) == "muteAll";
    case GLOBAL_IP => assert CommandStem("mute", "Mute", scope) == "muteIPAll";
    case IP => assert CommandStem("mute", "Mute", scope) == "muteIP";
    case TEMPORARY => assert CommandStem("mute", "Mute", scope) == "tempMute";
    case TEMPORARY_GLOBAL => assert CommandStem("mute", "Mute", scope) == "tempMuteAll";
    case TEMPORARY_GLOBAL_IP => assert CommandStem("mute", "Mute", scope) == "tempMuteIPAll";
    case TEMPORARY_IP => assert CommandStem("mute", "Mute", scope) == "tempMuteIP";
  }

  /** The kick key depends on the scope only through `isGlobal`. */
  lemma KickKeyOnlyGlobalMatters(s1: ActionScope, s2: ActionScope, usageMsg: bool)
    requires IsGlobal(s1) == IsGlobal(s2)
    ensures KickCommandMessage(s1, usageMsg) == KickCommandMessage(s2, usageMsg)
  {
  }

  /** For every scope, the usage key and the description key are different keys. */
  lemma UsageDiffersFromDescription(scope: ActionScope)
    ensures BanCommandMessage(scope, true) != BanCommandMessage(scope, false)
    ensures MuteCommandMessage(scope, true) != MuteCommandMessage(scope, false)
    ensures KickCommandMessage(scope, true) != KickCommandMessage(scope, false)
  {
  }

  // ---------------------------------------------------------------------------
  // Loading languages, as a specification

  /** The language directory: the parsed content of each readable "<language>.yml". */
  type LanguageFiles = map<string, Option<MessageMap>>

  /** What `loadLanguage(language, false)` does with a given cache and directory. */
  datatype LoadStatus = Cached | Loaded | Missing | BrokenFile

  function LoadStatusOf(cached: set<string>, files: LanguageFiles, language: string): LoadStatus {
    if language in cached then Cached
    else if language !in files then Missing
    else if TimeSectionBroken(files[language]) then BrokenFile
    else Loaded
  }

  predicate Succeeds(s: LoadStatus) { s == Cached || s == Loaded }

  /** Which group `loadLanguageOrDefault` returns, or how it fails. */
  datatype Resolution =
    | Requested          // the language itself
    | CurrentDefault     // the default group loaded earlier
    | ConfiguredDefault  // the configured default language, loaded now
    | Fallback           // en_US, loaded now
    | NoGroup            // null: en_US itself was asked for and nothing loaded
    | FailBoth           // the RuntimeException
    | Broken             // a ClassCastException from a language file

  function Resolve(cached: set<string>, hasDefault: bool, defaultLanguage: string, language: string, files: LanguageFiles): Resolution {
    var first := LoadStatusOf(cached, files, language);
    if first == BrokenFile then Broken
    else if Succeeds(first) then Requested
    else if hasDefault then CurrentDefault
    else
      var second := LoadStatusOf(cached, files, defaultLanguage);
      if second == BrokenFile then Broken
      else if Succeeds(second) then ConfiguredDefault
      else if language == DEFAULT_LANGUAGE then NoGroup
      else
        var third := LoadStatusOf(cached, files, DEFAULT_LANGUAGE);
        if third == BrokenFile then Broken
        else if Succeeds(third) then Fallback
        else FailBoth
  }

  /** The exception is thrown exactly when the language, the configured default and en_US all fail to load, and the language is not en_US. */
  lemma FailsOnlyWhenAllFail(cached: set<string>, hasDefault: bool, defaultLanguage: string, language: string, files: LanguageFiles)
    ensures Resolve(cached, hasDefault, defaultLanguage, language, files) == FailBoth
            <==> LoadStatusOf(cached, files, language) == Missing && !hasDefault
                 && LoadStatusOf(cached, files, defaultLanguage) == Missing
                 && language != DEFAULT_LANGUAGE
                 && LoadStatusOf(cached, files, DEFAULT_LANGUAGE) == Missing
  {
  }

  /** A `null` group, and so the NullPointerException in `getMessage`, happens only when en_US itself was asked for. */
  lemma NoGroupOnlyForEnglish(cached: set<string>, hasDefault: bool, defaultLanguage: string, language: string, files: LanguageFiles)
    ensures Resolve(cached, hasDefault, defaultLanguage, language, files) == NoGroup
            <==> language == DEFAULT_LANGUAGE && !hasDefault
                 && LoadStatusOf(cached, files, language) == Missing
                 && LoadStatusOf(cached, files, defaultLanguage) == Missing
  {
  }

  /** A cached language is always served from the cache. */
  lemma CachedLanguageWins(cached: set<string>, hasDefault: bool, defaultLanguage: string, language: string, files: LanguageFiles)
    requires language in cached
    ensures Resolve(cached, hasDefault, defaultLanguage, language, files) == Requested
  {
  }

  /**
   * What `getMessage` returns from a group's file, before colour codes are
   * translated: the message, with the prefix in front when the key asks for
   * it. String concatenation prints a missing message or prefix as "null".
   */
  function Rendered(messages: Option<MessageMap>, key: MessageKey): Outcome<Option<string>> {
    match MessageOf(messages, key.key)
    case Throws(e) => Throws(e)
    case Ok(msg) =>
      if !key.addPrefix then Ok(msg)
      else match MessageOf(messages, PREFIX.key)
        case Throws(e) => Throws(e)
        case Ok(prefix) => Ok(Some(JavaString(prefix) + JavaString(msg)))
  }

  /** `String.valueOf`, as string concatenation applies it. */
  function JavaString(s: Option<string>): string {
    if s.Some? then s.value else "null"
  }

  /** The prefix goes in front of the message exactly when the key asks for it. */
  lemma PrefixIffAsked(messages: Option<MessageMap>, key: MessageKey, msg: string, prefix: string)
    requires MessageOf(messages, key.key) == Ok(Some(msg))
    requires MessageOf(messages, PREFIX.key) == Ok(Some(prefix))
    ensures key.addPrefix ==> Rendered(messages, key) == Ok(Some(prefix + msg))
    ensures !key.addPrefix ==> Rendered(messages, key) == Ok(Some(msg))
  {
  }

  /** A missing message with the prefix asked for comes out as the prefix followed by "null". */
  lemma MissingMessagePrintsNull(messages: Option<MessageMap>, key: MessageKey, prefix: string)
    requires key.addPrefix
    requires MessageOf(messages, key.key) == Ok(None)
    requires MessageOf(messages, PREFIX.key) == Ok(Some(prefix))
    ensures Rendered(messages, key) == Ok(Some(prefix + "null"))
  {
  }

  // ---------------------------------------------------------------------------
  // The provider

  class MessageProvider {
    const defaultLanguage: string
    var loadedLanguages: map<string, LanguageGroup>
    var defaultLanguageGroup: Option<LanguageGroup>
    var timeRangeFormat: TimeRangeFormat

    constructor Init(defaultLanguage: string, timeRangeFormat: TimeRangeFormat)
      ensures this.defaultLanguage == defaultLanguage && this.timeRangeFormat == timeRangeFormat
      ensures loadedLanguages == map[] && defaultLanguageGroup == None
    {
      this.defaultLanguage := defaultLanguage;
      this.timeRangeFormat := timeRangeFormat;
      loadedLanguages := map[];
      defaultLanguageGroup := None;
    }

    /** The resolution `loadLanguageOrDefault(language)` would make now. */
    function ResolveNow(language: string, files: LanguageFiles): Resolution
      reads this
    {
      Resolve(loadedLanguages.Keys, defaultLanguageGroup.Some?, defaultLanguage, language, files)
    }

    /**
     * `loadLanguage`: the cached group unless a reload is forced; otherwise
     * the group read from the file, which replaces the cached one. An
     * unreadable file gives `null` and leaves the cache alone; a file whose
     * "time" entry is not a map throws.
     */
    method LoadLanguage(language: string, forceReload: bool, files: LanguageFiles) returns (r: Outcome<Option<LanguageGroup>>)
      modifies this
      ensures defaultLanguageGroup == old(defaultLanguageGroup) && timeRangeFormat == old(timeRangeFormat)
      ensures language in old(loadedLanguages) && !forceReload
              ==> r == Ok(Some(old(loadedLanguages)[language])) && loadedLanguages == old(loadedLanguages)
      ensures !(language in old(loadedLanguages) && !forceReload) && language !in files
              ==> r == Ok(None) && loadedLanguages == old(loadedLanguages)
      ensures !(language in old(loadedLanguages) && !forceReload) && language in files && TimeSectionBroken(files[language])
              ==> r == Throws(ClassCastException) && loadedLanguages == old(loadedLanguages)
      ensures !(language in old(loadedLanguages) && !forceReload) && language in files && !TimeSectionBroken(files[language])
              ==> r.Ok? && r.value.Some? && fresh(r.value.value) && r.value.value.messages == files[language]
                  && loadedLanguages == old(loadedLanguages)[language := r.value.value]
    {
      if language in loadedLanguages && !forceReload {
        return Ok(Some(loadedLanguages[language]));
      }
      if language !in files {
        return Ok(None);
      }
      var lg := NewLanguageGroup(files[language]);
      if lg.Throws? {
        return Throws(lg.ex);
      }
      loadedLanguages := loadedLanguages[language := lg.value];
      return Ok(Some(lg.value));
    }

    /** `reloadLanguage`: a forced load, whose exception still reaches the caller. */
    method ReloadLanguage(language: string, files: LanguageFiles) returns (thrown: Option<Exception>)
      modifies this
      ensures defaultLanguageGroup == old(defaultLanguageGroup)
      ensures language !in files ==> thrown == None && loadedLanguages == old(loadedLanguages)
      ensures language in files && TimeSectionBroken(files[language])
              ==> thrown == Some(ClassCastException) && loadedLanguages == old(loadedLanguages)
      ensures language in files && !TimeSectionBroken(files[language])
              ==> thrown == None && language in loadedLanguages && fresh(loadedLanguages[language])
                  && loadedLanguages[language].messages == files[language]
                  && loadedLanguages == old(loadedLanguages)[language := loadedLanguages[language]]
    {
      var r := LoadLanguage(language, true, files);
      thrown := if r.Throws? then Some(r.ex) else None;
    }

    /**
     * `loadLanguageOrDefault`: the language if it loads, otherwise the
     * default group, loading the configured default language and then en_US
     * the first time one is needed.
     */
    method LoadLanguageOrDefault(language: string, files: LanguageFiles) returns (r: Outcome<Option<LanguageGroup>>)
      modifies this
      ensures old(ResolveNow(language, files)) == Broken <==> r == Throws(ClassCastException)
      ensures old(ResolveNow(language, files)) == FailBoth <==> r == Throws(RuntimeException(LOAD_FAILURE))
      ensures old(ResolveNow(language, files)) == NoGroup <==> r == Ok(None)
      ensures old(ResolveNow(language, files)) == Requested
              ==> language in loadedLanguages && r == Ok(Some(loadedLanguages[language]))
      ensures old(ResolveNow(language, files)) == CurrentDefault
              ==> r == Ok(old(defaultLanguageGroup)) && defaultLanguageGroup == old(defaultLanguageGroup)
      ensures old(ResolveNow(language, files)) == ConfiguredDefault
              ==> defaultLanguage in loadedLanguages && r == Ok(Some(loadedLanguages[defaultLanguage]))
                  && defaultLanguageGroup == r.value
      ensures old(ResolveNow(language, files)) == Fallback
              ==> DEFAULT_LANGUAGE in loadedLanguages && r == Ok(Some(loadedLanguages[DEFAULT_LANGUAGE]))
                  && defaultLanguageGroup == r.value
      ensures forall l :: l in old(loadedLanguages) ==> l in loadedLanguages && loadedLanguages[l] == old(loadedLanguages)[l]
    {
      var lg := LoadLanguage(language, false, files);
      if lg.Throws? {
        return Throws(lg.ex);
      }
      if lg.value.Some? {
        return lg;
      }
      if defaultLanguageGroup.None? {
        var d := LoadLanguage(defaultLanguage, false, files);
        if d.Throws? {
          return Throws(d.ex);
        }
        defaultLanguageGroup := d.value;
        if defaultLanguageGroup.None? && language != DEFAULT_LANGUAGE {
          var f := LoadLanguage(DEFAULT_LANGUAGE, false, files);
          if f.Throws? {
            return Throws(f.ex);
          }
          defaultLanguageGroup := f.value;
          if defaultLanguageGroup.None? {
            return Throws(RuntimeException(LOAD_FAILURE));
          }
        }
      }
      return Ok(defaultLanguageGroup);
    }

    /**
     * `getMessage` without format arguments: the message of the resolved
     * group, with the prefix when the key asks for it; a `null` group makes
     * the lookup throw a NullPointerException.
     */
    method GetMessage(key: MessageKey, language: string, files: LanguageFiles) returns (r: Outcome<Option<string>>)
      modifies this
      ensures old(ResolveNow(language, files)) == Broken ==> r == Throws(ClassCastException)
      ensures old(ResolveNow(language, files)) == FailBoth ==> r == Throws(RuntimeException(LOAD_FAILURE))
      ensures old(ResolveNow(language, files)) == NoGroup ==> r == Throws(NullPointerException)
      ensures old(ResolveNow(language, files)) == Requested
              ==> language in loadedLanguages && r == Rendered(loadedLanguages[language].messages, key)
      ensures old(ResolveNow(language, files)) in {CurrentDefault, ConfiguredDefault, Fallback}
              ==> defaultLanguageGroup.Some? && r == Rendered(defaultLanguageGroup.value.messages, key)
    {
      var lg := LoadLanguageOrDefault(language, files);
      if lg.Throws? {
        return Throws(lg.ex);
      }
      if lg.value.None? {
        return Throws(NullPointerException);
      }
      var group := lg.value.value;
      var msg := group.GetMessage(key);
      if msg.Throws? {
        return msg;
      }
      if key.addPrefix {
        var prefix := group.GetMessage(PREFIX);
        if prefix.Throws? {
          return Throws(prefix.ex);
        }
        return Ok(Some(JavaString(prefix.value) + JavaString(msg.value)));
      }
      return msg;
    }

    /** `getMessageDefault`: the message in the configured default language. */
    method GetMessageDefault(key: MessageKey, files: LanguageFiles) returns (r: Outcome<Option<string>>)
      modifies this
      ensures old(ResolveNow(defaultLanguage, files)) == Requested
              ==> defaultLanguage in loadedLanguages && r == Rendered(loadedLanguages[defaultLanguage].messages, key)
      ensures old(ResolveNow(defaultLanguage, files)) == NoGroup ==> r == Throws(NullPointerException)
    {
      r := GetMessage(key, defaultLanguage, files);
    }
  }

  // ---------------------------------------------------------------------------
  // Construction

  /**
   * The time-range setting as the constructor reads it: the parsed format,
   * or the exception of the string constructor. The `catch` only takes an
   * IllegalArgumentException, which a DateTimeParseException is not, so a
   * bad setting escapes the constructor.
   */
  method TimeRangeSettingAsWritten(setting: string) returns (r: Outcome<TimeRangeFormat>)
    ensures r.Throws? <==> !ValidUnitString(setting)
    ensures r.Throws? ==> r.ex.DateTimeParseException? && !r.ex.IllegalArgumentException?
    ensures r.Ok? ==> fresh(r.value) && Spells(r.value.units[..], setting)
  {
    r := FromUnitString(setting);
  }

  /** The evidently intended reading: a bad setting falls back to days, hours and minutes. */
  method TimeRangeSetting(setting: string) returns (f: TimeRangeFormat)
    ensures fresh(f)
    ensures ValidUnitString(setting) ==> Spells(f.units[..], setting)
    ensures !ValidUnitString(setting) ==> f.units[..] == [DAY, HOUR, MINUTE]
  {
    var r := FromUnitString(setting);
    if r.Ok? {
      return r.value;
    }
    f := new TimeRangeFormat(DAY, [HOUR, MINUTE]);
  }

  /** An empty setting and one with an unknown letter are both rejected by the unit-string parser. */
  lemma BadSettingsRejected()
    ensures !ValidUnitString("")
    ensures !ValidUnitString("x")
  {
    assert !ValidAt("x", 0);
  }

  /**
   * `MessageProvider(plugin, loadDefault, defaultLanguage)`: an empty cache,
   * the default language loaded when asked for, and the time-range format of
   * the setting (with the intended fallback). The date format and the
   * time-range setting are the locale configuration's, either of which may be
   * missing. Loading the default can throw; then `new SimpleDateFormat` and
   * `new TimeRangeFormat` throw NullPointerException on a missing setting,
   * which neither `catch` takes.
   */
  method NewMessageProvider(loadDefault: bool, defaultLanguage: string, dateFormat: Option<string>,
                            timeRangeSetting: Option<string>, files: LanguageFiles)
    returns (r: Outcome<MessageProvider>)
    ensures r.Throws? <==> (loadDefault && defaultLanguage in files && TimeSectionBroken(files[defaultLanguage]))
                           || dateFormat.None? || timeRangeSetting.None?
    ensures r.Throws? && loadDefault && defaultLanguage in files && TimeSectionBroken(files[defaultLanguage])
            ==> r.ex == ClassCastException
    ensures r.Throws? && !(loadDefault && defaultLanguage in files && TimeSectionBroken(files[defaultLanguage]))
            ==> r.ex == NullPointerException
    ensures r.Ok? ==> fresh(r.value) && r.value.defaultLanguage == defaultLanguage
    ensures r.Ok? && (!loadDefault || defaultLanguage !in files)
            ==> r.value.loadedLanguages == map[] && r.value.defaultLanguageGroup == None
    ensures r.Ok? && loadDefault && defaultLanguage in files
            ==> r.value.loadedLanguages.Keys == {defaultLanguage}
                && r.value.defaultLanguageGroup == Some(r.value.loadedLanguages[defaultLanguage])
                && r.value.loadedLanguages[defaultLanguage].messages == files[defaultLanguage]
    ensures r.Ok? && ValidUnitString(timeRangeSetting.value) ==> Spells(r.value.timeRangeFormat.units[..], timeRangeSetting.value)
    ensures r.Ok? && !ValidUnitString(timeRangeSetting.value) ==> r.value.timeRangeFormat.units[..] == [DAY, HOUR, MINUTE]
  {
    var placeholder := new TimeRangeFormat(DAY, [HOUR, MINUTE]);
    var p := new MessageProvider.Init(defaultLanguage, placeholder);
    if loadDefault {
      var d := p.LoadLanguage(defaultLanguage, false, files);
      if d.Throws? {
        return Throws(d.ex);
      }
      p.defaultLanguageGroup := d.value;
    }
    if dateFormat.None? || timeRangeSetting.None? {
      return Throws(NullPointerException);
    }
    var trf := TimeRangeSetting(timeRangeSetting.value);
    p.timeRangeFormat := trf;
    return Ok(p);
  }

  /**
   * `MessageProvider(plugin, loadDefault)`, as written: it passes `false` on,
   * so the default language is never loaded. The time-range setting is read
   * as `TimeRangeSetting` reads it, so a bad setting falls back; the throw of
   * the as-written read is `TimeRangeSettingAsWritten`'s.
   */
  method NewDefaultMessageProviderAsWritten(loadDefault: bool, dateFormat: Option<string>, timeRangeSetting: Option<string>,
                                            files: LanguageFiles)
    returns (r: Outcome<MessageProvider>)
    ensures r.Ok? <==> dateFormat.Some? && timeRangeSetting.Some?
    ensures r.Ok? ==> fresh(r.value) && r.value.defaultLanguage == DEFAULT_LANGUAGE
    ensures r.Ok? ==> r.value.loadedLanguages == map[] && r.value.defaultLanguageGroup == None
  {
    r := NewMessageProvider(false, DEFAULT_LANGUAGE, dateFormat, timeRangeSetting, files);
  }

  /** The same constructor as evidently intended: it passes `loadDefault` on. */
  method NewDefaultMessageProvider(loadDefault: bool, dateFormat: Option<string>, timeRangeSetting: Option<string>,
                                   files: LanguageFiles)
    returns (r: Outcome<MessageProvider>)
    ensures r.Throws? <==> (loadDefault && DEFAULT_LANGUAGE in files && TimeSectionBroken(files[DEFAULT_LANGUAGE]))
                           || dateFormat.None? || timeRangeSetting.None?
    ensures r.Ok? ==> fresh(r.value) && r.value.defaultLanguage == DEFAULT_LANGUAGE
    ensures r.Ok? && loadDefault && DEFAULT_LANGUAGE in files
            ==> r.value.defaultLanguageGroup.Some? && r.value.defaultLanguageGroup.value.messages == files[DEFAULT_LANGUAGE]
  {
    r := NewMessageProvider(loadDefault, DEFAULT_LANGUAGE, dateFormat, timeRangeSetting, files);
  }
}

/*
 * The root of the configuration file: the locale settings, which can also be
 * changed at run time, and the `storage`, `uuid` and `commands` sections with
 * the validator that checks them.
 */
module RootConfigs {
  import opened JavaLang
  import DatabaseConfig
  import CommandConfigs

  /**
   * The `uuid` section. Its own class is not part of this model: it is
   * represented by the exception its `validate` throws, if any.
   */
  datatype UuidSection = UuidSection(failure: Option<Exception>)

  function ValidateUuid(u: UuidSection): Outcome<()> {
    if u.failure.Some? then Throws(u.failure.value) else Ok(())
  }

  /** The feature configuration interface; the root configuration never provides one. */
  datatype FeatureConfiguration = FeatureConfiguration

  class RootConfig {
    var language: Option<string>
    var debugMode: bool
    var dateFormat: Option<string>
    var timeFormat: Option<string>
    var storage: Option<DatabaseConfig.DatabaseConfig>
    var uuid: Option<UuidSection>
    var commands: Option<CommandConfigs.CommandConfig>

    /** The configuration as the file loader fills it in; a missing key leaves its field `None`. */
    constructor (language: Option<string>, debugMode: bool, dateFormat: Option<string>,
                 timeFormat: Option<string>, storage: Option<DatabaseConfig.DatabaseConfig>,
                 uuid: Option<UuidSection>, commands: Option<CommandConfigs.CommandConfig>)
      ensures this.language == language && this.debugMode == debugMode
      ensures this.dateFormat == dateFormat && this.timeFormat == timeFormat
      ensures this.storage == storage && this.uuid == uuid && this.commands == commands
    {
      this.language := language;
      this.debugMode := debugMode;
      this.dateFormat := dateFormat;
      this.timeFormat := timeFormat;
      this.storage := storage;
      this.uuid := uuid;
      this.commands := commands;
    }

    /**
     * The checks `validate` runs, in order: the three null checks, then each
     * section's own validator under its own key as parent path. A validator
     * listed after a failing null check is never reached.
     */
    function Stages(parentPath: string): seq<Outcome<()>>
      reads this
    {
      [CommandConfigs.Present(storage.Some?, parentPath, "storage"),
       CommandConfigs.Present(uuid.Some?, parentPath, "uuid"),
       CommandConfigs.Present(commands.Some?, parentPath, "commands"),
       if storage.Some? then DatabaseConfig.Validate(storage.value, "storage") else Ok(()),
       if uuid.Some? then ValidateUuid(uuid.value) else Ok(()),
       if commands.Some? then CommandConfigs.Validate(commands.value, "commands") else Ok(())]
    }

    /**
     * `validate`: succeeds exactly when the three sections are present and
     * each validates; a missing `storage` section is reported before anything else.
     */
    function Validate(parentPath: string): (r: Outcome<()>)
      reads this
      ensures r.Ok? <==> storage.Some? && uuid.Some? && commands.Some?
                         && DatabaseConfig.Validate(storage.value, "storage").Ok?
                         && ValidateUuid(uuid.value).Ok?
                         && CommandConfigs.AllSections(commands.value)
      ensures storage.None? ==> r == Throws(ConfigurationException(parentPath, "storage"))
    {
      if storage.None? then Throws(ConfigurationException(parentPath, "storage"))
      else if uuid.None? then Throws(ConfigurationException(parentPath, "uuid"))
      else if commands.None? then Throws(ConfigurationException(parentPath, "commands"))
      else
        var s := DatabaseConfig.Validate(storage.value, "storage");
        if s.Throws? then s
        else
          var u := ValidateUuid(uuid.value);
          if u.Throws? then u
          else CommandConfigs.Validate(commands.value, "commands")
    }

    function GetDatabaseConfiguration(): Option<DatabaseConfig.DatabaseConfig>
      reads this
    {
      storage
    }

    function GetCommandConfiguration(): Option<CommandConfigs.CommandConfig>
      reads this
    {
      commands
    }

    /** `getFeatureConfiguration`: there is none. */
    function GetFeatureConfiguration(): (r: Option<FeatureConfiguration>)
      ensures r.None?
    {
      None
    }

    /** `getLocaleConfiguration`: the root configuration itself serves as the locale configuration. */
    function GetLocaleConfiguration(): (r: RootConfig)
      ensures r == this
    {
      this
    }

    function GetDefaultLanguage(): Option<string>
      reads this
    {
      language
    }

    function GetDateFormat(): Option<string>
      reads this
    {
      dateFormat
    }

    function GetTimeRangeFormat(): Option<string>
      reads this
    {
      timeFormat
    }

    /** `setDefaultLanguage`: the locale configuration reports the new language; nothing else changes. */
    method SetDefaultLanguage(language: Option<string>)
      modifies this
      ensures GetLocaleConfiguration().GetDefaultLanguage() == language
      ensures dateFormat == old(dateFormat) && timeFormat == old(timeFormat) && debugMode == old(debugMode)
      ensures storage == old(storage) && uuid == old(uuid) && commands == old(commands)
    {
      this.language := language;
    }

    /** `setDateFormat`: the locale configuration reports the new date format; nothing else changes. */
    method SetDateFormat(dateFormat: Option<string>)
      modifies this
      ensures GetLocaleConfiguration().GetDateFormat() == dateFormat
      ensures language == old(language) && timeFormat == old(timeFormat) && debugMode == old(debugMode)
      ensures storage == old(storage) && uuid == old(uuid) && commands == old(commands)
    {
      this.dateFormat := dateFormat;
    }

    /** `setTimeRangeFormat`: the locale configuration reports the new time-range format; nothing else changes. */
    method SetTimeRangeFormat(timeFormat: Option<string>)
      modifies this
      ensures GetLocaleConfiguration().GetTimeRangeFormat() == timeFormat
      ensures language == old(language) && dateFormat == old(dateFormat) && debugMode == old(debugMode)
      ensures storage == old(storage) && uuid == old(uuid) && commands == old(commands)
    {
      this.timeFormat := timeFormat;
    }
  }

  /** `validate` reports the first failing check of `Stages`, in the order the source makes them. */
  lemma ValidateIsFirstThrow(c: RootConfig, parentPath: string)
    ensures c.Validate(parentPath) == CommandConfigs.FirstThrow(c.Stages(parentPath))
  {
    var steps := c.Stages(parentPath);
    assert steps[1..][1..] == steps[2..];
    assert steps[2..][1..] == steps[3..];
    assert steps[3..][1..] == steps[4..];
    assert steps[4..][1..] == steps[5..];
    assert steps[5..][1..] == [];
    CommandConfigs.FirstThrowStep(steps);
    CommandConfigs.FirstThrowStep(steps[1..]);
    CommandConfigs.FirstThrowStep(steps[2..]);
    CommandConfigs.FirstThrowStep(steps[3..]);
    CommandConfigs.FirstThrowStep(steps[4..]);
    CommandConfigs.FirstThrowStep(steps[5..]);
  }

  /**
   * A nested section is validated under its own key alone, not under
   * `parentPath`: a commands section without its `ban` part fails for
   * ("commands", "ban") whatever path the root was validated under.
   */
  lemma NestedFailureUsesSectionKey(c: RootConfig, parentPath: string)
    requires c.storage.Some? && c.uuid.Some? && c.commands.Some?
    requires DatabaseConfig.Validate(c.storage.value, "storage").Ok? && ValidateUuid(c.uuid.value).Ok?
    requires c.commands.value.ban.None?
    ensures c.Validate(parentPath) == Throws(ConfigurationException("commands", "ban"))
  {
  }

  /** Setting the three locale values and reading them back through the locale configuration returns them. */
  method LocaleRoundTrip(c: RootConfig, language: Option<string>, dateFormat: Option<string>,
                         timeFormat: Option<string>)
    modifies c
    ensures c.GetLocaleConfiguration().GetDefaultLanguage() == language
    ensures c.GetLocaleConfiguration().GetDateFormat() == dateFormat
    ensures c.GetLocaleConfiguration().GetTimeRangeFormat() == timeFormat
    ensures c.storage == old(c.storage) && c.uuid == old(c.uuid) && c.commands == old(c.commands)
  {
    c.SetDefaultLanguage(language);
    c.SetDateFormat(dateFormat);
    c.SetTimeRangeFormat(timeFormat);
  }
}

/*
 * The `storage` section of the configuration: the database platform name,
 * the cache switch and the connection settings, with the section's validator.
 */
module DatabaseConfig {
  import opened JavaLang

  /** The supported platforms (the constants `createController` switches over). */
  datatype DatabasePlatform = H2 | H2_SECURE | MYSQL | POSTGRESQL | SQLITE

  function PlatformName(p: DatabasePlatform): string {
    match p
    case H2 => "H2"
    case H2_SECURE => "H2_SECURE"
    case MYSQL => "MYSQL"
    case POSTGRESQL => "POSTGRESQL"
    case SQLITE => "SQLITE"
  }

  /** `DatabasePlatform.valueOf(name)`, with the `IllegalArgumentException` of an unknown name as `None`. */
  function PlatformValueOf(name: string): (p: Option<DatabasePlatform>)
    ensures p.Some? ==> PlatformName(p.value) == name
    ensures p.None? ==> forall q: DatabasePlatform :: PlatformName(q) != name
  {
    if name == "H2" then Some(H2)
    else if name == "H2_SECURE" then Some(H2_SECURE)
    else if name == "MYSQL" then Some(MYSQL)
    else if name == "POSTGRESQL" then Some(POSTGRESQL)
    else if name == "SQLITE" then Some(SQLITE)
    else None
  }

  datatype DatabaseSettings = DatabaseSettings(user: Option<string>, pass: Option<string>,
                                               database: Option<string>, host: Option<string>, port: int)

  datatype DatabaseConfig = DatabaseConfig(platformType: Option<string>, cache: bool,
                                           settings: Option<DatabaseSettings>)

  /**
   * `getDatabasePlatform`: the platform named by `type`, compared after
   * upper-casing; an unknown name gives `null`, and a missing `type` lets the
   * `NullPointerException` of `toUpperCase` escape.
   */
  function GetDatabasePlatform(config: DatabaseConfig): (r: Outcome<Option<DatabasePlatform>>)
    ensures config.platformType.None? <==> r == Throws(NullPointerException)
    ensures r.Ok? && r.value.Some? ==> PlatformName(r.value.value) == ToUpperAscii(config.platformType.value)
    ensures r.Ok? && r.value.None? ==> forall q: DatabasePlatform :: PlatformName(q) != ToUpperAscii(config.platformType.value)
  {
    if config.platformType.None? then Throws(NullPointerException)
    else Ok(PlatformValueOf(ToUpperAscii(config.platformType.value)))
  }

  /** Every platform is found from its name written in any mix of letter cases. */
  lemma PlatformLookupIgnoresCase(config: DatabaseConfig, p: DatabasePlatform)
    requires config.platformType.Some?
    requires ToUpperAscii(config.platformType.value) == PlatformName(p)
    ensures GetDatabasePlatform(config) == Ok(Some(p))
  {
  }

  /**
   * `validate`: an unknown platform fails for key "type", then missing
   * settings fail for key "settings"; otherwise the section is valid.
   */
  function Validate(config: DatabaseConfig, parentPath: string): (r: Outcome<()>)
    ensures r == Throws(ConfigurationException(parentPath, "type"))
            <==> config.platformType.Some? && GetDatabasePlatform(config) == Ok(None)
    ensures r == Throws(ConfigurationException(parentPath, "settings"))
            <==> GetDatabasePlatform(config).Ok? && GetDatabasePlatform(config).value.Some? && config.settings.None?
    ensures r.Ok? <==> GetDatabasePlatform(config).Ok? && GetDatabasePlatform(config).value.Some? && config.settings.Some?
  {
    var platform := GetDatabasePlatform(config);
    if platform.Throws? then Throws(platform.ex)
    else if platform.value.None? then Throws(ConfigurationException(parentPath, "type"))
    else if config.settings.None? then Throws(ConfigurationException(parentPath, "settings"))
    else Ok(())
  }

  /** A connection getter: the settings field, or `NullPointerException` when there are no settings. */
  function GetSetting<T>(config: DatabaseConfig, field: DatabaseSettings -> T): (r: Outcome<T>)
    ensures config.settings.None? <==> r.Throws?
    ensures r.Ok? ==> r.value == field(config.settings.value)
  {
    if config.settings.None? then Throws(NullPointerException) else Ok(field(config.settings.value))
  }

  /** A validated configuration yields every connection setting exactly as stored. */
  lemma ValidConfigReadsSettings(config: DatabaseConfig, parentPath: string)
    requires Validate(config, parentPath).Ok?
    ensures GetSetting(config, (s: DatabaseSettings) => s.user) == Ok(config.settings.value.user)
    ensures GetSetting(config, (s: DatabaseSettings) => s.pass) == Ok(config.settings.value.pass)
    ensures GetSetting(config, (s: DatabaseSettings) => s.database) == Ok(config.settings.value.database)
    ensures GetSetting(config, (s: DatabaseSettings) => s.host) == Ok(config.settings.value.host)
    ensures GetSetting(config, (s: DatabaseSettings) => s.port) == Ok(config.settings.value.port)
  {
  }
}

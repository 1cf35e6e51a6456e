/*
 * `TimeUnitLocaleMap`: the singular and plural name of every time unit in
 * one language, read once from the language file's "time" section, with the
 * unit's default English name as the fallback.
 */
module TimeUnitNames {
  import opened JavaLang
  import opened TimeUnits
  import opened Messages

  /** `TimeUnitPair`: the two names found in the file, each possibly `null`. */
  datatype TimeUnitPair = TimeUnitPair(singular: Option<string>, plural: Option<string>)

  /** A "time" entry that is not a map makes every unit-name lookup throw. */
  predicate TimeSectionBroken(messages: Option<MessageMap>) {
    messages.Some? && "time" in messages.value && !messages.value["time"].Section?
  }

  /** The string the file holds under `time.<name>`, if any. */
  function UnitName(messages: Option<MessageMap>, name: string): Option<string> {
    if messages.None? || "time" !in messages.value then None
    else match messages.value["time"]
      case Section(t) => Leaf(t, name)
      case _ => None
  }

  /** The pair the constructor stores for `u`. */
  function PairFor(messages: Option<MessageMap>, u: CustomTimeUnit): TimeUnitPair {
    TimeUnitPair(UnitName(messages, DefaultName(u)), UnitName(messages, DefaultName(u) + "s"))
  }

  lemma AllUnitsListed(u: CustomTimeUnit)
    ensures exists k :: 0 <= k < |UnitValues| && UnitValues[k] == u
  {
    match u
    case MILLISECOND => assert UnitValues[0] == u;
    case SECOND => assert UnitValues[1] == u;
    case MINUTE => assert UnitValues[2] == u;
    case HOUR => assert UnitValues[3] == u;
    case DAY => assert UnitValues[4] == u;
    case WEEK => assert UnitValues[5] == u;
    case MONTH => assert UnitValues[6] == u;
    case YEAR => assert UnitValues[7] == u;
  }

  lemma NoDotInNames(u: CustomTimeUnit)
    ensures '.' !in DefaultName(u) && '.' !in DefaultName(u) + "s" && '.' !in "time"
  {
  }

  /** A two-part key "time.<name>" walks into the "time" section and reads `name` there. */
  lemma TimeKeyLookup(messages: Option<MessageMap>, name: string)
    requires name != [] && '.' !in name
    ensures MessageOf(messages, "time." + name)
            == if TimeSectionBroken(messages) then Throws(ClassCastException) else Ok(UnitName(messages, name))
  {
    var parts := ["time", name];
    assert '.' !in "time";
    assert Join(parts, '.') == "time" + ['.'] + Join(parts[1..], '.');
    assert parts[1..] == [name];
    assert "time." + name == Join(parts, '.');
    JavaSplitJoin(parts, '.');
    assert KeyParts("time." + name) == parts;
    assert SectionPath(parts) == ["time"];
    assert ["time"][1..] == [];
  }

  /** Both keys of a unit read its names from the "time" section, or both throw when that entry is not a map. */
  lemma UnitKeysLookup(messages: Option<MessageMap>, u: CustomTimeUnit)
    ensures MessageOf(messages, SingularKey(u))
            == if TimeSectionBroken(messages) then Throws(ClassCastException) else Ok(PairFor(messages, u).singular)
    ensures MessageOf(messages, PluralKey(u))
            == if TimeSectionBroken(messages) then Throws(ClassCastException) else Ok(PairFor(messages, u).plural)
  {
    SingularKeyLookup(messages, u);
    PluralKeyLookup(messages, u);
  }

  lemma SingularKeyLookup(messages: Option<MessageMap>, u: CustomTimeUnit)
    ensures MessageOf(messages, SingularKey(u))
            == if TimeSectionBroken(messages) then Throws(ClassCastException) else Ok(PairFor(messages, u).singular)
  {
    NoDotInNames(u);
    TimeKeyLookup(messages, DefaultName(u));
  }

  lemma PluralKeyLookup(messages: Option<MessageMap>, u: CustomTimeUnit)
    ensures MessageOf(messages, PluralKey(u))
            == if TimeSectionBroken(messages) then Throws(ClassCastException) else Ok(PairFor(messages, u).plural)
  {
    NoDotInNames(u);
    TimeKeyLookup(messages, DefaultName(u) + "s");
    assert PluralKey(u) == "time." + (DefaultName(u) + "s");
  }

  class TimeUnitLocaleMap {
    const timeUnitMap: map<CustomTimeUnit, TimeUnitPair>

    constructor FromTable(timeUnitMap: map<CustomTimeUnit, TimeUnitPair>)
      ensures this.timeUnitMap == timeUnitMap
    {
      this.timeUnitMap := timeUnitMap;
    }

    /** `getSingular`: the file's singular name, or the default name. */
    function GetSingular(u: CustomTimeUnit): string {
      SingularIn(timeUnitMap, u)
    }

    /** `getPlural`: the file's plural name, or the default name with an 's'. */
    function GetPlural(u: CustomTimeUnit): string {
      PluralIn(timeUnitMap, u)
    }

    /** `get`, as written: the plural for every positive amount, one included. */
    function Get(u: CustomTimeUnit, amount: int): string {
      if amount > 0 then PluralIn(timeUnitMap, u) else SingularIn(timeUnitMap, u)
    }

    /** `get` as evidently intended: the singular for exactly one, the plural otherwise. */
    function GetCorrected(u: CustomTimeUnit, amount: int): string {
      if amount == 1 then SingularIn(timeUnitMap, u) else PluralIn(timeUnitMap, u)
    }
  }

  /** The singular name in a table, falling back to the default name. */
  function SingularIn(table: map<CustomTimeUnit, TimeUnitPair>, u: CustomTimeUnit): string {
    if u in table && table[u].singular.Some? then table[u].singular.value else DefaultName(u)
  }

  /** The plural name in a table, falling back to the default name with an 's'. */
  function PluralIn(table: map<CustomTimeUnit, TimeUnitPair>, u: CustomTimeUnit): string {
    if u in table && table[u].plural.Some? then table[u].plural.value else DefaultName(u) + "s"
  }

  /** One step of the constructor's loop: the two lookups for `unit`. */
  method LookupUnitNames(messages: Option<MessageMap>, unit: CustomTimeUnit) returns (r: Outcome<TimeUnitPair>)
    ensures r == if TimeSectionBroken(messages) then Throws(ClassCastException) else Ok(PairFor(messages, unit))
  {
    UnitKeysLookup(messages, unit);
    var singular := LookupMessage(messages, SingularKey(unit));
    if singular.Throws? {
      return Throws(singular.ex);
    }
    var plural := LookupMessage(messages, PluralKey(unit));
    r := match plural
      case Ok(p) => Ok(TimeUnitPair(singular.value, p))
      case Throws(e) => Throws(e);
  }

  /**
   * The `TimeUnitLocaleMap(LanguageGroup)` constructor: for each unit, in
   * declaration order, it looks up the singular and the plural key and
   * stores the pair. It throws exactly when the file's "time" entry is not a
   * map; otherwise every unit has an entry.
   */
  method NewTimeUnitLocaleMap(messages: Option<MessageMap>) returns (r: Outcome<TimeUnitLocaleMap>)
    ensures r.Throws? <==> TimeSectionBroken(messages)
    ensures r.Throws? ==> r.ex == ClassCastException
    ensures r.Ok? ==> fresh(r.value)
    ensures r.Ok? ==> forall u: CustomTimeUnit :: u in r.value.timeUnitMap && r.value.timeUnitMap[u] == PairFor(messages, u)
  {
    var table: map<CustomTimeUnit, TimeUnitPair> := map[];
    var i := 0;
    while i < |UnitValues|
      invariant 0 <= i <= |UnitValues|
      invariant i > 0 ==> !TimeSectionBroken(messages)
      invariant forall k :: 0 <= k < i ==> UnitValues[k] in table
      invariant forall u :: u in table ==> table[u] == PairFor(messages, u)
    {
      var unit := UnitValues[i];
      var pair := LookupUnitNames(messages, unit);
      if pair.Throws? {
        return Throws(pair.ex);
      }
      table := table[unit := pair.value];
      i := i + 1;
    }
    forall u: CustomTimeUnit
      ensures u in table
    {
      AllUnitsListed(u);
    }
    var t := new TimeUnitLocaleMap.FromTable(table);
    return Ok(t);
  }

  /**
   * With no "time" section at all, every unit falls back to its English name:
   * "second" and "seconds", "month" and "months", and so on.
   */
  lemma DefaultNamesWithoutTimeSection(t: TimeUnitLocaleMap, messages: Option<MessageMap>, u: CustomTimeUnit)
    requires messages.None? || "time" !in messages.value
    requires forall v: CustomTimeUnit :: v in t.timeUnitMap && t.timeUnitMap[v] == PairFor(messages, v)
    ensures t.GetSingular(u) == DefaultName(u)
    ensures t.GetPlural(u) == DefaultName(u) + "s"
  {
    assert t.timeUnitMap[u] == PairFor(messages, u);
  }

  /** A name the file gives under "time" is the one used. */
  lemma FileNamesWin(t: TimeUnitLocaleMap, messages: MessageMap, u: CustomTimeUnit, section: MessageMap, name: string)
    requires "time" in messages && messages["time"] == Section(section)
    requires DefaultName(u) in section && section[DefaultName(u)] == Text(name)
    requires forall v: CustomTimeUnit :: v in t.timeUnitMap && t.timeUnitMap[v] == PairFor(Some(messages), v)
    ensures t.GetSingular(u) == name
  {
    assert t.timeUnitMap[u] == PairFor(Some(messages), u);
  }

  /** As written, one second is printed with the plural name: with the default names, "seconds". */
  lemma OneIsPlural(t: TimeUnitLocaleMap)
    requires t.timeUnitMap == map[]
    ensures t.Get(SECOND, 1) == "seconds"
  {
  }

  /** The intended rule gives the singular for one and the plural from two on. */
  lemma OneIsSingularWhenCorrected(t: TimeUnitLocaleMap, u: CustomTimeUnit, n: int)
    requires t.timeUnitMap == map[]
    requires n >= 2
    ensures t.GetCorrected(u, 1) == DefaultName(u)
    ensures t.GetCorrected(u, n) == DefaultName(u) + "s"
    ensures t.GetCorrected(u, 1) != t.Get(u, 1)
  {
    assert |DefaultName(u) + "s"| != |DefaultName(u)|;
  }
}

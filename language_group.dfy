/*
 * `LanguageGroup`: one loaded language file, with the time-unit names read
 * from it when it is built.
 */
module LanguageGroups {
  import opened JavaLang
  import opened Messages
  import opened TimeUnits
  import opened TimeUnitNames

  class LanguageGroup {
    /** The YAML map of the file; `None` for an empty file. */
    const messages: Option<MessageMap>
    const timeUnits: TimeUnitLocaleMap

    constructor Of(messages: Option<MessageMap>, timeUnits: TimeUnitLocaleMap)
      ensures this.messages == messages && this.timeUnits == timeUnits
    {
      this.messages := messages;
      this.timeUnits := timeUnits;
    }

    /** `getMessage`: the string stored under the key's dotted path, `null`, or the exception of the walk. */
    method GetMessage(key: MessageKey) returns (r: Outcome<Option<string>>)
      ensures r == MessageOf(messages, key.key)
    {
      r := LookupMessage(messages, key.key);
    }

    /** `getTimeUnitMap` */
    function GetTimeUnitMap(): TimeUnitLocaleMap {
      timeUnits
    }
  }

  /**
   * The `LanguageGroup(Map)` constructor: it keeps the map and builds the
   * time-unit names from it, so a file whose "time" entry is not a map makes
   * the constructor throw.
   */
  method NewLanguageGroup(messages: Option<MessageMap>) returns (r: Outcome<LanguageGroup>)
    ensures r.Throws? <==> TimeSectionBroken(messages)
    ensures r.Throws? ==> r.ex == ClassCastException
    ensures r.Ok? ==> fresh(r.value) && fresh(r.value.timeUnits) && r.value.messages == messages
    ensures r.Ok? ==> forall u: CustomTimeUnit ::
              u in r.value.timeUnits.timeUnitMap && r.value.timeUnits.timeUnitMap[u] == PairFor(messages, u)
  {
    var names := NewTimeUnitLocaleMap(messages);
    if names.Throws? {
      return Throws(names.ex);
    }
    var lg := new LanguageGroup.Of(messages, names.value);
    return Ok(lg);
  }
}

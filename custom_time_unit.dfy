/*
 * `CustomTimeUnit`: the eight units a time range is printed in, each with a
 * default name, a short unit string, a one-character designation used in
 * unit strings such as "dhm", and its length in milliseconds. A month is
 * 30.4375 days and a year twelve such months.
 */
module TimeUnits {
  import opened JavaLang

  datatype CustomTimeUnit = MILLISECOND | SECOND | MINUTE | HOUR | DAY | WEEK | MONTH | YEAR

  /** `values()`, in declaration order. */
  const UnitValues: seq<CustomTimeUnit> := [MILLISECOND, SECOND, MINUTE, HOUR, DAY, WEEK, MONTH, YEAR]

  function DefaultName(u: CustomTimeUnit): string {
    match u
    case MILLISECOND => "millisecond"
    case SECOND => "second"
    case MINUTE => "minute"
    case HOUR => "hour"
    case DAY => "day"
    case WEEK => "week"
    case MONTH => "month"
    case YEAR => "year"
  }

  function Designation(u: CustomTimeUnit): char {
    match u
    case MILLISECOND => 'S'
    case SECOND => 's'
    case MINUTE => 'm'
    case HOUR => 'h'
    case DAY => 'd'
    case WEEK => 'w'
    case MONTH => 'M'
    case YEAR => 'y'
  }

  /** `getUnit`: the designation as a string, except "ms" and "mo". */
  function UnitString(u: CustomTimeUnit): string {
    match u
    case MILLISECOND => "ms"
    case MONTH => "mo"
    case _ => [Designation(u)]
  }

  /** `getDurationInMilliseconds`, with the products the declarations spell out. */
  function InMillis(u: CustomTimeUnit): (ms: int)
    ensures ms > 0
  {
    match u
    case MILLISECOND => 1
    case SECOND => 1000
    case MINUTE => 60 * 1000
    case HOUR => 60 * 60 * 1000
    case DAY => 24 * 60 * 60 * 1000
    case WEEK => 7 * 24 * 60 * 60 * 1000
    case MONTH => 304375 * 24 * 60 * 6
    case YEAR => 12 * 304375 * 24 * 60 * 6
  }

  /** The message keys of a unit's singular and plural names. */
  function SingularKey(u: CustomTimeUnit): string { "time." + DefaultName(u) }

  function PluralKey(u: CustomTimeUnit): string { "time." + DefaultName(u) + "s" }

  /** `count`: how many whole units fit in `millis`, truncated toward zero. */
  function Count(u: CustomTimeUnit, millis: int): (c: int)
    ensures millis >= 0 ==> c >= 0 && c * InMillis(u) <= millis < (c + 1) * InMillis(u)
    ensures millis < 0 ==> c <= 0
  {
    JavaDiv(millis, InMillis(u))
  }

  /** `countMod`: how many whole units fit in what is left of `millis` after removing whole `modUnit`s. */
  function CountMod(u: CustomTimeUnit, millis: int, modUnit: CustomTimeUnit): (c: int)
    ensures millis >= 0 ==> c >= 0 && c * InMillis(u) <= millis % InMillis(modUnit)
    ensures millis >= 0 ==> millis % InMillis(modUnit) < (c + 1) * InMillis(u)
  {
    JavaDiv(JavaRem(millis, InMillis(modUnit)), InMillis(u))
  }

  /** `byDesignation`: the unit with that designation, or `null` (here `None`). */
  function ByDesignation(c: char): (r: Option<CustomTimeUnit>)
    ensures r.Some? ==> Designation(r.value) == c
  {
    match c
    case 'S' => Some(MILLISECOND)
    case 's' => Some(SECOND)
    case 'm' => Some(MINUTE)
    case 'h' => Some(HOUR)
    case 'd' => Some(DAY)
    case 'w' => Some(WEEK)
    case 'M' => Some(MONTH)
    case 'y' => Some(YEAR)
    case _ => None
  }

  /** The designation table is one-to-one: looking a unit's designation up gives back that unit. */
  lemma ByDesignationRoundTrip(u: CustomTimeUnit)
    ensures ByDesignation(Designation(u)) == Some(u)
  {
  }

  /** A character that is no unit's designation is looked up as `null`. */
  lemma UnknownDesignation(c: char)
    requires forall u: CustomTimeUnit :: Designation(u) != c
    ensures ByDesignation(c).None?
  {
  }

  /** Different units have different designations. */
  lemma DesignationsDistinct(u: CustomTimeUnit, v: CustomTimeUnit)
    requires u != v
    ensures Designation(u) != Designation(v)
  {
    ByDesignationRoundTrip(u);
    ByDesignationRoundTrip(v);
  }

  /** Durations strictly increase along the declaration order, from MILLISECOND to YEAR. */
  lemma DurationsIncrease(i: int, j: int)
    requires 0 <= i < j < |UnitValues|
    ensures InMillis(UnitValues[i]) < InMillis(UnitValues[j])
  {
  }

  /** `count` of a whole number of units is that number. */
  lemma CountOfWholeUnits(u: CustomTimeUnit, k: nat)
    ensures Count(u, k * InMillis(u)) == k
  {
    var b := InMillis(u);
    DivModUnique(k * b, b, k, 0);
  }

  /**
   * When `modUnit` is no longer than `u`, what is left after removing whole
   * `modUnit`s is shorter than one `u`, so `countMod` is always 0.
   */
  lemma CountModBySmallerUnit(u: CustomTimeUnit, millis: int, modUnit: CustomTimeUnit)
    requires millis >= 0
    requires InMillis(modUnit) <= InMillis(u)
    ensures CountMod(u, millis, modUnit) == 0
  {
    var r := JavaRem(millis, InMillis(modUnit));
    DivModUnique(r, InMillis(u), 0, r);
  }
}

/*
 * `TimeRangeFormat`: a list of time units, parsed from a unit string such as
 * "dhm", that prints a duration in milliseconds as "1 day, 4 hours".
 *
 * The string constructor accepts only known designations in strictly
 * descending order of duration and reports the index of the first bad
 * character. `format` computes one value per unit, prints the positive ones
 * with their localized names, joined by ", ", and puts '-' in front of a
 * negative duration.
 */
module TimeRanges {
  import opened JavaLang
  import opened TimeUnits
  import opened TimeUnitNames

  // ---------------------------------------------------------------------------
  // The unit string

  /** Units strictly descending in duration, as the string constructor requires. */
  predicate StrictlyDescending(us: seq<CustomTimeUnit>) {
    forall i, j :: 0 <= i < j < |us| ==> InMillis(us[i]) > InMillis(us[j])
  }

  /** The units are those the characters of `s` designate, in the same order. */
  predicate Spells(us: seq<CustomTimeUnit>, s: string) {
    |us| == |s| && forall k :: 0 <= k < |s| ==> Designation(us[k]) == s[k]
  }

  /** Character `k` designates a unit, and one shorter than the unit before it. */
  predicate ValidAt(s: string, k: int)
    requires 0 <= k < |s|
  {
    ByDesignation(s[k]).Some?
    && (k > 0 && ByDesignation(s[k - 1]).Some? ==> InMillis(ByDesignation(s[k - 1]).value) > InMillis(ByDesignation(s[k]).value))
  }

  predicate ValidUnitString(s: string) {
    s != [] && forall k :: 0 <= k < |s| ==> ValidAt(s, k)
  }

  /** The index a rejected unit string is reported at: 0 for the empty string, else the first bad character. */
  predicate RejectedAt(s: string, j: int) {
    (s == [] && j == 0)
    || (0 <= j < |s| && !ValidAt(s, j) && forall k :: 0 <= k < j ==> ValidAt(s, k))
  }

  /**
   * The loop of the `TimeRangeFormat(String)` constructor: it accepts exactly
   * the valid unit strings, keeps the units in the order written, and
   * otherwise throws a `DateTimeParseException` at the first bad index.
   */
  method ParseUnitString(unitString: string) returns (r: Outcome<seq<CustomTimeUnit>>)
    ensures r.Ok? <==> ValidUnitString(unitString)
    ensures r.Ok? ==> Spells(r.value, unitString) && StrictlyDescending(r.value)
    ensures r.Throws? ==> r.ex.DateTimeParseException? && RejectedAt(unitString, r.ex.errorIndex)
  {
    if |unitString| == 0 {
      return Throws(DateTimeParseException(0));
    }
    var lastUnit: Option<CustomTimeUnit> := None;
    var unitList: seq<CustomTimeUnit> := [];
    var i := 0;
    while i < |unitString|
      invariant 0 <= i <= |unitString|
      invariant |unitList| == i
      invariant forall k :: 0 <= k < i ==> ByDesignation(unitString[k]) == Some(unitList[k])
      invariant forall k :: 0 <= k < i ==> ValidAt(unitString, k)
      invariant StrictlyDescending(unitList)
      invariant lastUnit == if i == 0 then None else Some(unitList[i - 1])
    {
      var ctu := ByDesignation(unitString[i]);
      if ctu.None? {
        assert !ValidAt(unitString, i);
        return Throws(DateTimeParseException(i));
      }
      if lastUnit.Some? && InMillis(lastUnit.value) <= InMillis(ctu.value) {
        assert ByDesignation(unitString[i - 1]) == lastUnit;
        assert !ValidAt(unitString, i);
        return Throws(DateTimeParseException(i));
      }
      lastUnit := ctu;
      unitList := unitList + [ctu.value];
      i := i + 1;
    }
    return Ok(unitList);
  }

  // ---------------------------------------------------------------------------
  // Formatting, as a specification

  /** `-millis` for a negative `millis`, in `long` arithmetic: `Long.MIN_VALUE` stays negative. */
  function Magnitude(millis: int): int {
    if millis < 0 then Wrap64(-millis) else millis
  }

  /** The values `format` computes, as written: `countMod` by the NEXT unit, and the full count of the last. */
  function Values(units: seq<CustomTimeUnit>, m: int): (vs: seq<int>)
    requires |units| >= 1
    ensures |vs| == |units|
  {
    seq(|units|, i requires 0 <= i < |units| =>
      if i < |units| - 1 then CountMod(units[i], m, units[i + 1]) else Count(units[i], m))
  }

  /** The values as evidently intended: the full count of the first unit, then each unit's count within the unit before it. */
  function ValuesCorrected(units: seq<CustomTimeUnit>, m: int): (vs: seq<int>)
    requires |units| >= 1
    ensures |vs| == |units|
  {
    seq(|units|, i requires 0 <= i < |units| =>
      if i == 0 then Count(units[0], m) else CountMod(units[i], m, units[i - 1]))
  }

  function Digit(d: int): char
    requires 0 <= d < 10
  {
    ('0' as int + d) as char
  }

  /** `Long.toString` of a non-negative value. */
  function DecimalString(n: nat): (s: string)
    ensures s != []
    ensures forall k :: 0 <= k < |s| ==> '0' <= s[k] <= '9'
    decreases n
  {
    if n < 10 then [Digit(n)] else DecimalString(n / 10) + [Digit(n % 10)]
  }

  /** The number a string of decimal digits stands for. */
  function DecimalValue(s: string): int
    requires forall k :: 0 <= k < |s| ==> '0' <= s[k] <= '9'
  {
    if s == [] then 0 else DecimalValue(s[..|s| - 1]) * 10 + (s[|s| - 1] as int - '0' as int)
  }

  /** The name printed after a value: as written, or with the intended singular for one. */
  function UnitLabel(names: TimeUnitLocaleMap, u: CustomTimeUnit, v: int, corrected: bool): string {
    if corrected then names.GetCorrected(u, v) else names.Get(u, v)
  }

  /** One printed part: the value, a space, and the unit's name. */
  function Piece(names: TimeUnitLocaleMap, u: CustomTimeUnit, v: nat, corrected: bool): string {
    DecimalString(v) + " " + UnitLabel(names, u, v, corrected)
  }

  /** The printed parts "<value> <name>", one for each positive value, in unit order. */
  function Pieces(us: seq<CustomTimeUnit>, vs: seq<int>, names: TimeUnitLocaleMap, corrected: bool): (ps: seq<string>)
    requires |us| == |vs|
    ensures |ps| <= |us|
    ensures forall p :: p in ps ==> p != []
    decreases |us|
  {
    if us == [] then []
    else
      var n := |us| - 1;
      Pieces(us[..n], vs[..n], names, corrected)
      + if vs[n] > 0 then [Piece(names, us[n], vs[n], corrected)] else []
  }

  /** The parts joined by ", ". */
  function JoinComma(ps: seq<string>): string
    requires ps != []
  {
    if |ps| == 1 then ps[0] else JoinComma(ps[..|ps| - 1]) + ", " + ps[|ps| - 1]
  }

  /** What `format` returns: nothing when no value is positive, else the sign and the joined parts. */
  function FormatText(units: seq<CustomTimeUnit>, millis: int, names: TimeUnitLocaleMap, corrected: bool): string
    requires |units| >= 1
  {
    var m := Magnitude(millis);
    var vs := if corrected then ValuesCorrected(units, m) else Values(units, m);
    var ps := Pieces(units, vs, names, corrected);
    if ps == [] then "" else (if millis < 0 then "-" else "") + JoinComma(ps)
  }

  // ---------------------------------------------------------------------------
  // The class

  class TimeRangeFormat {
    const units: array<CustomTimeUnit>

    /** `TimeRangeFormat(unit, moreUnits...)`: the units as given, unchecked. */
    constructor (unit: CustomTimeUnit, moreUnits: seq<CustomTimeUnit>)
      ensures fresh(units)
      ensures units[..] == [unit] + moreUnits
    {
      units := new CustomTimeUnit[|moreUnits| + 1](k requires 0 <= k <= |moreUnits| => if k == 0 then unit else moreUnits[k - 1]);
    }

    /** `getUnits`: a copy, so the caller cannot change the format's units. */
    method GetUnits() returns (r: array<CustomTimeUnit>)
      ensures fresh(r)
      ensures r[..] == units[..]
    {
      r := new CustomTimeUnit[units.Length](k requires 0 <= k < units.Length reads units => units[k]);
    }

    /** `format(long, TimeUnitLocaleMap)`: fills the values array, then appends each positive value and strips the last ", ". */
    method Format(millis: int, names: TimeUnitLocaleMap) returns (s: string)
      requires IsLong(millis)
      requires units.Length >= 1
      ensures s == FormatText(units[..], millis, names, false)
    {
      var sign: string := [];
      var m := millis;
      if m < 0 {
        m := Wrap64(-m);
        sign := "-";
      }
      assert m == Magnitude(millis);
      var values := ComputeValues(m);
      var us, vs := units[..], values[..];
      var sb := AppendPieces(sign, us, vs, names);
      AppendedAll(us, vs, names);
      TrimmedTerminated(sign, Pieces(us, vs, names, false));
      if |sb| > 1 {
        return sb[..|sb| - 2];
      }
      return "";
    }

    /** The first half of `format`: the values array. */
    method ComputeValues(m: int) returns (values: array<int>)
      requires units.Length >= 1
      ensures fresh(values)
      ensures values[..] == Values(units[..], m)
    {
      var n := units.Length;
      values := new int[n];
      ghost var vs := Values(units[..], m);
      var i := 0;
      while i < n - 1
        invariant 0 <= i <= n - 1
        invariant forall k :: 0 <= k < i ==> values[k] == vs[k]
      {
        ValueAt(units[..], m, i);
        values[i] := CountMod(units[i], m, units[i + 1]);
        i := i + 1;
      }
      ValueAt(units[..], m, n - 1);
      values[n - 1] := Count(units[n - 1], m);
      assert values[..] == vs;
    }
  }

  /** The text a `StringBuilder` holds after appending "<part>, " for every part. */
  function Terminated(ps: seq<string>): string {
    if ps == [] then [] else Terminated(ps[..|ps| - 1]) + ps[|ps| - 1] + ", "
  }

  /** One more unit adds its part, if its value is positive. */
  lemma PiecesStep(us: seq<CustomTimeUnit>, vs: seq<int>, names: TimeUnitLocaleMap, corrected: bool, i: int)
    requires |us| == |vs| && 0 <= i < |us|
    ensures Pieces(us[..i + 1], vs[..i + 1], names, corrected)
            == Pieces(us[..i], vs[..i], names, corrected)
               + if vs[i] > 0 then [Piece(names, us[i], vs[i], corrected)] else []
  {
    assert us[..i + 1][..i] == us[..i] && vs[..i + 1][..i] == vs[..i];
  }

  /** The builder's text after the first `i` units: "<value> <name>, " for each positive value. */
  function Appended(us: seq<CustomTimeUnit>, vs: seq<int>, names: TimeUnitLocaleMap, i: int): string
    requires |us| == |vs| && 0 <= i <= |us|
    decreases i
  {
    if i == 0 then ""
    else Appended(us, vs, names, i - 1)
         + if vs[i - 1] > 0 then Piece(names, us[i - 1], vs[i - 1], false) + ", " else ""
  }

  /** What the builder gains at unit `i`: "<value> <name>, " when the value is positive, else nothing. */
  function AppendedPart(us: seq<CustomTimeUnit>, vs: seq<int>, names: TimeUnitLocaleMap, i: int): string
    requires |us| == |vs| && 0 <= i < |us|
  {
    if vs[i] > 0 then Piece(names, us[i], vs[i], false) + ", " else ""
  }

  /** Appending part by part gives every part followed by ", ". */
  lemma {:induction false} AppendedIsTerminated(us: seq<CustomTimeUnit>, vs: seq<int>, names: TimeUnitLocaleMap, i: int)
    requires |us| == |vs| && 0 <= i <= |us|
    ensures Appended(us, vs, names, i) == Terminated(Pieces(us[..i], vs[..i], names, false))
    decreases i
  {
    if i > 0 {
      AppendedIsTerminated(us, vs, names, i - 1);
      PiecesStep(us, vs, names, false, i - 1);
      AppendedUnfold(us, vs, names, i - 1);
      TerminatedPart(Pieces(us[..i - 1], vs[..i - 1], names, false), us, vs, names, i - 1);
    }
  }

  /** Terminating one more unit's parts adds exactly what the builder gains at that unit. */
  lemma TerminatedPart(before: seq<string>, us: seq<CustomTimeUnit>, vs: seq<int>, names: TimeUnitLocaleMap, j: int)
    requires |us| == |vs| && 0 <= j < |us|
    ensures Terminated(before + if vs[j] > 0 then [Piece(names, us[j], vs[j], false)] else [])
            == Terminated(before) + AppendedPart(us, vs, names, j)
  {
    if vs[j] > 0 {
      var piece := Piece(names, us[j], vs[j], false);
      TerminatedSnoc(before, piece);
      ConcatAssoc(Terminated(before), piece, ", ");
    } else {
      assert before + [] == before;
    }
  }

  lemma TerminatedSnoc(ps: seq<string>, p: string)
    ensures Terminated(ps + [p]) == Terminated(ps) + p + ", "
  {
    assert (ps + [p])[..|ps|] == ps;
  }

  lemma AppendedAll(us: seq<CustomTimeUnit>, vs: seq<int>, names: TimeUnitLocaleMap)
    requires |us| == |vs|
    ensures Appended(us, vs, names, |us|) == Terminated(Pieces(us, vs, names, false))
  {
    AppendedIsTerminated(us, vs, names, |us|);
    assert us[..|us|] == us && vs[..|us|] == vs;
  }

  /** The builder after unit `i` is the builder before it plus that unit's part. */
  lemma AppendedStep(sb0: string, us: seq<CustomTimeUnit>, vs: seq<int>, names: TimeUnitLocaleMap, i: int)
    requires |us| == |vs| && 0 <= i < |us|
    ensures sb0 + Appended(us, vs, names, i) + AppendedPart(us, vs, names, i) == sb0 + Appended(us, vs, names, i + 1)
  {
    AppendedUnfold(us, vs, names, i);
    ConcatAssoc(sb0, Appended(us, vs, names, i), AppendedPart(us, vs, names, i));
  }

  lemma AppendedUnfold(us: seq<CustomTimeUnit>, vs: seq<int>, names: TimeUnitLocaleMap, i: int)
    requires |us| == |vs| && 0 <= i < |us|
    ensures Appended(us, vs, names, i + 1) == Appended(us, vs, names, i) + AppendedPart(us, vs, names, i)
  {
  }

  lemma ConcatAssoc(a: string, b: string, c: string)
    ensures a + b + c == a + (b + c)
  {
  }

  /** The second loop of `format`: "<value> <name>, " appended for every positive value. */
  method AppendPieces(sb0: string, us: seq<CustomTimeUnit>, vs: seq<int>, names: TimeUnitLocaleMap) returns (sb: string)
    requires |us| == |vs|
    ensures sb == sb0 + Appended(us, vs, names, |us|)
  {
    sb := sb0;
    var i := 0;
    while i < |us|
      invariant 0 <= i <= |us|
      invariant sb == sb0 + Appended(us, vs, names, i)
    {
      AppendedStep(sb0, us, vs, names, i);
      sb := AppendPart(sb, us, vs, names, i);
      i := i + 1;
    }
  }

  /** One turn of that loop: the value, a space, the unit's name and ", ", when the value is positive. */
  method AppendPart(sb0: string, us: seq<CustomTimeUnit>, vs: seq<int>, names: TimeUnitLocaleMap, i: int) returns (sb: string)
    requires |us| == |vs| && 0 <= i < |us|
    ensures sb == sb0 + AppendedPart(us, vs, names, i)
  {
    sb := sb0;
    if vs[i] > 0 {
      sb := sb + Piece(names, us[i], vs[i], false) + ", ";
    }
  }

  /** Dropping the last two characters, when there are more than one, leaves the sign and the joined parts. */
  lemma TrimmedTerminated(sign: string, ps: seq<string>)
    requires |sign| <= 1
    ensures var sb := sign + Terminated(ps);
            (if |sb| > 1 then sb[..|sb| - 2] else "") == if ps == [] then "" else sign + JoinComma(ps)
  {
    var sb := sign + Terminated(ps);
    if ps != [] {
      TerminatedIsJoined(ps);
      assert sb == (sign + JoinComma(ps)) + ", ";
      assert sb[..|sb| - 2] == sign + JoinComma(ps);
    }
  }

  /** Appending every part with its ", " is the joined text with one ", " too many. */
  lemma {:induction false} TerminatedIsJoined(ps: seq<string>)
    requires ps != []
    ensures Terminated(ps) == JoinComma(ps) + ", "
    decreases |ps|
  {
    if |ps| > 1 {
      TerminatedIsJoined(ps[..|ps| - 1]);
    } else {
      assert ps[..0] == [];
    }
  }

  // ---------------------------------------------------------------------------
  // Properties of the formatting

  /** `Long.toString` reads back as the same number. */
  lemma {:induction false} DecimalRoundTrip(n: nat)
    ensures DecimalValue(DecimalString(n)) == n
    decreases n
  {
    var s := DecimalString(n);
    if n >= 10 {
      DecimalRoundTrip(n / 10);
      assert s[..|s| - 1] == DecimalString(n / 10);
    } else {
      assert s[..0] == [];
    }
  }

  /** Negating a `long` gives its magnitude, except for `Long.MIN_VALUE`, which stays negative. */
  lemma MagnitudeOfLong(millis: int)
    requires IsLong(millis)
    ensures millis != LONG_MIN ==> Magnitude(millis) == Abs(millis)
    ensures millis == LONG_MIN ==> Magnitude(millis) == LONG_MIN
  {
  }

  /** A negative duration never counts a positive number of units. */
  lemma CountModOfNegative(u: CustomTimeUnit, m: int, modUnit: CustomTimeUnit)
    requires m < 0
    ensures CountMod(u, m, modUnit) <= 0
  {
    var r := JavaRem(m, InMillis(modUnit));
    assert r <= 0;
  }

  /** No positive value, nothing printed. */
  lemma {:induction false} NoPositiveValueNoPieces(us: seq<CustomTimeUnit>, vs: seq<int>, names: TimeUnitLocaleMap, corrected: bool)
    requires |us| == |vs|
    requires forall i :: 0 <= i < |vs| ==> vs[i] <= 0
    ensures Pieces(us, vs, names, corrected) == []
    decreases |us|
  {
    if us != [] {
      var n := |us| - 1;
      NoPositiveValueNoPieces(us[..n], vs[..n], names, corrected);
    }
  }

  /**
   * `Long.MIN_VALUE` milliseconds print as the empty string, whatever the
   * units: negating it leaves it negative, so no value is positive and only
   * the '-' is in the builder, which the final length test discards.
   */
  lemma MinLongFormatsEmpty(units: seq<CustomTimeUnit>, names: TimeUnitLocaleMap, corrected: bool)
    requires |units| >= 1
    ensures FormatText(units, LONG_MIN, names, corrected) == ""
  {
    var m := Magnitude(LONG_MIN);
    assert m == LONG_MIN;
    NegativeValuesNonPositive(units, m, corrected);
    var vs := if corrected then ValuesCorrected(units, m) else Values(units, m);
    NoPositiveValueNoPieces(units, vs, names, corrected);
  }

  /** A negative magnitude gives no positive value in any unit. */
  lemma NegativeValuesNonPositive(units: seq<CustomTimeUnit>, m: int, corrected: bool)
    requires |units| >= 1 && m < 0
    ensures var vs := if corrected then ValuesCorrected(units, m) else Values(units, m);
      forall i :: 0 <= i < |vs| ==> vs[i] <= 0
  {
    if corrected {
      forall i | 0 <= i < |units|
        ensures ValuesCorrected(units, m)[i] <= 0
      {
        if i > 0 {
          CountModOfNegative(units[i], m, units[i - 1]);
        }
        ValueCorrectedAt(units, m, i);
      }
    } else {
      forall i | 0 <= i < |units|
        ensures Values(units, m)[i] <= 0
      {
        if i < |units| - 1 {
          CountModOfNegative(units[i], m, units[i + 1]);
        }
        ValueAt(units, m, i);
      }
    }
  }

  lemma ValueAt(units: seq<CustomTimeUnit>, m: int, i: int)
    requires 0 <= i < |units|
    ensures Values(units, m)[i] == if i < |units| - 1 then CountMod(units[i], m, units[i + 1]) else Count(units[i], m)
  {}

  lemma ValueCorrectedAt(units: seq<CustomTimeUnit>, m: int, i: int)
    requires 0 <= i < |units|
    ensures ValuesCorrected(units, m)[i] == if i == 0 then Count(units[0], m) else CountMod(units[i], m, units[i - 1])
  {}

  /**
   * As written, with units in descending order (all the string constructor
   * accepts), every value but the last is 0: each is a count of a unit in a
   * remainder by a SHORTER unit. Only the last unit is ever printed, with
   * the whole duration counted in it.
   */
  lemma ValuesOnlyLast(units: seq<CustomTimeUnit>, m: int)
    requires |units| >= 1
    requires StrictlyDescending(units)
    requires m >= 0
    ensures forall i :: 0 <= i < |units| - 1 ==> Values(units, m)[i] == 0
    ensures Values(units, m)[|units| - 1] == m / InMillis(units[|units| - 1])
  {
    var vs := Values(units, m);
    forall i | 0 <= i < |units| - 1
      ensures vs[i] == 0
    {
      assert InMillis(units[i]) > InMillis(units[i + 1]);
      assert vs[i] == CountMod(units[i], m, units[i + 1]);
      CountModBySmallerUnit(units[i], m, units[i + 1]);
    }
    assert vs[|units| - 1] == Count(units[|units| - 1], m);
  }

  /** A concrete case of the above: 90 minutes in hours and minutes print as "90 minutes". */
  lemma HourMinuteAsWritten(names: TimeUnitLocaleMap)
    requires names.timeUnitMap == map[]
    ensures FormatText([HOUR, MINUTE], 5400000, names, false) == "90 minutes"
  {
    var us := [HOUR, MINUTE];
    var vs := Values(us, 5400000);
    assert vs == [0, 90];
    assert DecimalString(90) == "90";
    assert Piece(names, MINUTE, 90, false) == "90 minutes";
    assert us[..1] == [HOUR] && vs[..1] == [0];
    assert Pieces([HOUR], [0], names, false) == [];
    assert Pieces(us, vs, names, false) == ["90 minutes"];
    assert Magnitude(5400000) == 5400000;
  }

  /** With the intended values, the same duration prints as "1 hour, 30 minutes". */
  lemma HourMinuteCorrected(names: TimeUnitLocaleMap)
    requires names.timeUnitMap == map[]
    ensures FormatText([HOUR, MINUTE], 5400000, names, true) == "1 hour, 30 minutes"
  {
    HourMinuteCorrectedValues();
    HourMinuteCorrectedPieces(names);
    JoinTwo("1 hour", "30 minutes");
    HourMinuteLiteral();
  }

  lemma JoinTwo(a: string, b: string)
    ensures JoinComma([a, b]) == a + ", " + b
  {
    assert [a, b][..1] == [a];
  }

  lemma HourMinuteLiteral()
    ensures "1 hour" + ", " + "30 minutes" == "1 hour, 30 minutes"
  {
  }

  lemma HourMinuteCorrectedValues()
    ensures Magnitude(5400000) == 5400000
    ensures ValuesCorrected([HOUR, MINUTE], 5400000) == [1, 30]
  {
    var us, m := [HOUR, MINUTE], 5400000;
    ValueCorrectedAt(us, m, 0);
    ValueCorrectedAt(us, m, 1);
    CountOfNonNegative(HOUR, m);
    CountModOfNonNegative(MINUTE, m, HOUR);
  }

  lemma HourMinuteCorrectedPieces(names: TimeUnitLocaleMap)
    requires names.timeUnitMap == map[]
    ensures Pieces([HOUR, MINUTE], [1, 30], names, true) == ["1 hour", "30 minutes"]
  {
    var us, vs := [HOUR, MINUTE], [1, 30];
    assert DecimalString(30) == "30";
    assert Piece(names, HOUR, 1, true) == "1 hour";
    assert Piece(names, MINUTE, 30, true) == "30 minutes";
    assert us[..1] == [HOUR] && vs[..1] == [1];
    assert Pieces([HOUR], [1], names, true) == ["1 hour"];
  }

  /** With the intended values, each unit after the first counts less than one of the unit before it. */
  lemma CorrectedBounded(units: seq<CustomTimeUnit>, m: int, i: int)
    requires |units| >= 1 && m >= 0
    requires 0 < i < |units|
    ensures 0 <= ValuesCorrected(units, m)[i]
    ensures ValuesCorrected(units, m)[i] * InMillis(units[i]) < InMillis(units[i - 1])
  {
    var v := ValuesCorrected(units, m)[i];
    assert v * InMillis(units[i]) <= m % InMillis(units[i - 1]);
  }

  /** Each unit's length divides the length of the unit before it. */
  predicate DivisibleChain(us: seq<CustomTimeUnit>) {
    forall i :: 0 < i < |us| ==> InMillis(us[i - 1]) % InMillis(us[i]) == 0
  }

  /** The duration the printed values add up to. */
  function Total(us: seq<CustomTimeUnit>, vs: seq<int>): int
    requires |us| == |vs|
    decreases |us|
  {
    if us == [] then 0 else Total(us[..|us| - 1], vs[..|vs| - 1]) + vs[|vs| - 1] * InMillis(us[|us| - 1])
  }

  /** What is left after removing whole `a`s, then whole `b`s, is what is left after removing whole `b`s, when `b` divides `a`. */
  lemma ModOfMod(m: int, a: int, b: int)
    requires m >= 0 && a > 0 && b > 0 && a % b == 0
    ensures (m % a) % b == m % b
  {
    var q, t := m / a, a / b;
    var r := m % a;
    assert a == t * b;
    assert m == (q * t) * b + r by {
      assert m == q * a + r;
      assert q * a == q * (t * b) == (q * t) * b;
    }
    assert r == (r / b) * b + r % b;
    assert m == (q * t + r / b) * b + r % b;
    DivModUnique(m, b, q * t + r / b, r % b);
  }

  /** Adding the next unit's count within the previous unit moves the remainder from the previous unit to this one. */
  lemma TelescopeStep(m: int, a: int, b: int)
    requires m >= 0 && a > 0 && b > 0 && a % b == 0
    ensures (m - m % a) + ((m % a) / b) * b == m - m % b
  {
    var r := m % a;
    assert r == (r / b) * b + r % b;
    ModOfMod(m, a, b);
  }

  lemma {:induction false} CorrectedPrefixTotal(us: seq<CustomTimeUnit>, m: int, k: int)
    requires |us| >= 1 && m >= 0
    requires DivisibleChain(us)
    requires 1 <= k <= |us|
    ensures Total(us[..k], ValuesCorrected(us, m)[..k]) == m - m % InMillis(us[k - 1])
    decreases k
  {
    var vs := ValuesCorrected(us, m);
    var b := InMillis(us[k - 1]);
    TotalPrefixStep(us, vs, k);
    ValueCorrectedAt(us, m, k - 1);
    if k == 1 {
      CountOfNonNegative(us[0], m);
      FloorTimes(m, b);
    } else {
      var a := InMillis(us[k - 2]);
      CorrectedPrefixTotal(us, m, k - 1);
      CountModOfNonNegative(us[k - 1], m, us[k - 2]);
      assert a % b == 0;
      TelescopeStep(m, a, b);
    }
  }

  lemma TotalPrefixStep(us: seq<CustomTimeUnit>, vs: seq<int>, k: int)
    requires |us| == |vs| && 1 <= k <= |us|
    ensures Total(us[..k], vs[..k]) == Total(us[..k - 1], vs[..k - 1]) + vs[k - 1] * InMillis(us[k - 1])
  {
    assert us[..k][..k - 1] == us[..k - 1] && vs[..k][..k - 1] == vs[..k - 1];
  }

  lemma CountOfNonNegative(u: CustomTimeUnit, m: int)
    requires m >= 0
    ensures Count(u, m) == m / InMillis(u)
  {
  }

  lemma CountModOfNonNegative(u: CustomTimeUnit, m: int, modUnit: CustomTimeUnit)
    requires m >= 0
    ensures CountMod(u, m, modUnit) == (m % InMillis(modUnit)) / InMillis(u)
  {
  }

  lemma FloorTimes(m: int, b: int)
    requires b > 0
    ensures (m / b) * b == m - m % b
  {
  }

  /**
   * With the intended values and units whose lengths divide each other (such
   * as days, hours and minutes), the printed values add up to the duration,
   * less only what is shorter than the last unit.
   */
  lemma CorrectedTotal(us: seq<CustomTimeUnit>, m: int)
    requires |us| >= 1 && m >= 0
    requires DivisibleChain(us)
    ensures Total(us, ValuesCorrected(us, m)) == m - m % InMillis(us[|us| - 1])
  {
    var vs := ValuesCorrected(us, m);
    CorrectedPrefixTotal(us, m, |us|);
    assert us[..|us|] == us && vs[..|us|] == vs;
  }

  /** `TimeRangeFormat(String)`: the parsed units, or the parse exception. */
  method FromUnitString(unitString: string) returns (r: Outcome<TimeRangeFormat>)
    ensures r.Ok? <==> ValidUnitString(unitString)
    ensures r.Ok? ==> fresh(r.value) && fresh(r.value.units)
    ensures r.Ok? ==> Spells(r.value.units[..], unitString) && StrictlyDescending(r.value.units[..])
    ensures r.Throws? ==> r.ex.DateTimeParseException? && RejectedAt(unitString, r.ex.errorIndex)
  {
    var parsed := ParseUnitString(unitString);
    if parsed.Throws? {
      return Throws(parsed.ex);
    }
    var us := parsed.value;
    var f := new TimeRangeFormat(us[0], us[1..]);
    assert [us[0]] + us[1..] == us;
    return Ok(f);
  }
}

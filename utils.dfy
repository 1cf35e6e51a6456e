/*
 * The duration parser and address classifier of the core `Utils` class.
 *
 * `parseDurationSeconds` scans a string such as "1d12h" left to right,
 * accumulating a number in `x` and, at every non-numeric character that
 * follows a number, adding `x` times that character's unit multiplier to
 * `duration`. The scan is specified by `ScanFrom`, parameterised by the
 * character classifier so that the code as written (which classifies with
 * `Character.getNumericValue`) and the evidently intended parser (which
 * treats only decimal digits as numeric) share one specification.
 */
module Utils {
  import opened JavaLang

  datatype AddressType = UNKNOWN | IPV4 | IPV6 | SOCKET

  /** The address classifier is an unimplemented stub: every address is UNKNOWN. */
  function GetAddressType(networkAddr: string): (t: AddressType)
    ensures t == UNKNOWN
    ensures !(t == IPV4 || t == IPV6)
  {
    UNKNOWN
  }

  /** Seconds per unit letter, in either case; any other character has multiplier 0. */
  function UnitMultiplier(unit: char): (m: int)
    ensures m in {0, 1, 60, 3600, 86400, 604800, 31556952}
    ensures m != 0 <==> unit in "dDhHmMsSwWyY"
    ensures m == UnitMultiplierLower(LowerChar(unit))
    ensures NumericValue(unit) <= -1 ==> m == 0
  {
    match unit
    case 'd' => 86400
    case 'D' => 86400
    case 'h' => 3600
    case 'H' => 3600
    case 'm' => 60
    case 'M' => 60
    case 's' => 1
    case 'S' => 1
    case 'w' => 604800
    case 'W' => 604800
    case 'y' => 31556952
    case 'Y' => 31556952
    case _ => 0
  }

  /** The same table keyed by lower-case letters only, used to state case-insensitivity. */
  function UnitMultiplierLower(unit: char): int {
    match unit
    case 'd' => 86400
    case 'h' => 3600
    case 'm' => 60
    case 's' => 1
    case 'w' => 604800
    case 'y' => 31556952
    case _ => 0
  }

  function LowerChar(c: char): char {
    if 'A' <= c <= 'Z' then (c as int - 'A' as int + 'a' as int) as char else c
  }

  /** The loop variables of `parseDurationSeconds`. */
  datatype Scan = Scan(duration: int, x: int, numChar: bool)

  const InitialScan := Scan(0, 0, true)

  predicate LongScan(st: Scan) { IsLong(st.duration) && IsLong(st.x) }

  /**
   * The loop from index `i` on, with `numeric` classifying characters: a
   * non-numeric character right after another non-numeric character (or at the
   * start) stops the scan; one after a number adds `x * multiplier` to the
   * total and resets `x`; a numeric character extends `x` in base 10.
   * All arithmetic is on Java `long`s.
   */
  function ScanFrom(s: string, i: nat, st: Scan, numeric: char -> int): (r: Scan)
    requires i <= |s|
    requires LongScan(st)
    ensures LongScan(r)
    decreases |s| - i
  {
    if i == |s| then st
    else if numeric(s[i]) <= -1 then
      if st.numChar then st
      else ScanFrom(s, i + 1, Scan(Wrap64(st.duration + Wrap64(st.x * UnitMultiplier(s[i]))), 0, true), numeric)
    else ScanFrom(s, i + 1, Scan(st.duration, Wrap64(st.x * 10 + numeric(s[i])), false), numeric)
  }

  /** The value returned for `s`: the scanned total, or `Long.MAX_VALUE` when it is negative. */
  function DurationSeconds(s: string, numeric: char -> int): (r: int)
    ensures 0 <= r <= LONG_MAX
  {
    var d := ScanFrom(s, 0, InitialScan, numeric).duration;
    if d < 0 then LONG_MAX else d
  }

  /** `parseDurationSeconds` as written, classifying with `Character.getNumericValue`. */
  method ParseDurationSeconds(durationStr: string) returns (r: int)
    ensures r == DurationSeconds(durationStr, NumericValue)
    ensures r == 0
  {
    var duration := 0;
    var x := 0;
    var numChar := true;
    var i := 0;
    while i < |durationStr|
      invariant 0 <= i <= |durationStr|
      invariant IsLong(duration) && IsLong(x)
      invariant ScanFrom(durationStr, 0, InitialScan, NumericValue)
             == ScanFrom(durationStr, i, Scan(duration, x, numChar), NumericValue)
      invariant duration == 0
    {
      var temp := NumericValue(durationStr[i]);
      if temp <= -1 {
        if numChar {
          break;
        }
        duration := Wrap64(duration + Wrap64(x * UnitMultiplier(durationStr[i])));
        x := 0;
        numChar := true;
      } else {
        x := Wrap64(x * 10 + temp);
        numChar := false;
      }
      i := i + 1;
    }
    r := if duration < 0 then LONG_MAX else duration;
  }

  /**
   * Every character that reaches the unit branch under `getNumericValue` is
   * non-alphanumeric and so has multiplier 0: the total never moves from 0.
   */
  lemma {:induction false} ScanKeepsDurationAsWritten(s: string, i: nat, st: Scan)
    requires i <= |s| && LongScan(st)
    ensures ScanFrom(s, i, st, NumericValue).duration == st.duration
    decreases |s| - i
  {
    if i < |s| {
      if NumericValue(s[i]) <= -1 {
        if !st.numChar {
          assert UnitMultiplier(s[i]) == 0;
          ScanKeepsDurationAsWritten(s, i + 1, Scan(Wrap64(st.duration + Wrap64(st.x * UnitMultiplier(s[i]))), 0, true));
        }
      } else {
        ScanKeepsDurationAsWritten(s, i + 1, Scan(st.duration, Wrap64(st.x * 10 + NumericValue(s[i])), false));
      }
    }
  }

  /** As written, every string parses to 0 seconds; for example "1d" gives 0, not 86400. */
  lemma ParseDurationAsWrittenIsZero(s: string)
    ensures DurationSeconds(s, NumericValue) == 0
    ensures DurationSeconds("1d", NumericValue) != 86400
  {
    ScanKeepsDurationAsWritten(s, 0, InitialScan);
    ScanKeepsDurationAsWritten("1d", 0, InitialScan);
  }

  /** A `java.time.Duration`, held as whole seconds. */
  datatype Duration = Duration(seconds: int)

  /** `parseDuration`: the parsed count taken as seconds. */
  method ParseDuration(durationStr: string) returns (d: Duration)
    ensures d.seconds == DurationSeconds(durationStr, NumericValue)
  {
    var n := ParseDurationSeconds(durationStr);
    d := Duration(n);
  }

  /** The evidently intended classifier: only decimal digits are numeric. */
  function DigitValue(c: char): (v: int)
    ensures v >= 0 <==> IsAsciiDigit(c)
    ensures -1 <= v <= 9
  {
    if IsAsciiDigit(c) then c as int - '0' as int else -1
  }

  /** The corrected parser: the same loop, classifying with `DigitValue`. */
  method ParseDurationSecondsFixed(durationStr: string) returns (r: int)
    ensures r == DurationSeconds(durationStr, DigitValue)
  {
    var duration := 0;
    var x := 0;
    var numChar := true;
    var i := 0;
    while i < |durationStr|
      invariant 0 <= i <= |durationStr|
      invariant IsLong(duration) && IsLong(x)
      invariant ScanFrom(durationStr, 0, InitialScan, DigitValue)
             == ScanFrom(durationStr, i, Scan(duration, x, numChar), DigitValue)
    {
      var temp := DigitValue(durationStr[i]);
      if temp <= -1 {
        if numChar {
          break;
        }
        duration := Wrap64(duration + Wrap64(x * UnitMultiplier(durationStr[i])));
        x := 0;
        numChar := true;
      } else {
        x := Wrap64(x * 10 + temp);
        numChar := false;
      }
      i := i + 1;
    }
    r := if duration < 0 then LONG_MAX else duration;
  }

  predicate AllDigits(ds: string) { forall k :: 0 <= k < |ds| ==> IsAsciiDigit(ds[k]) }

  /** The base-10 value of digits `ds` appended to an accumulated `x`. */
  function Accumulate(x: int, ds: string): int
    requires AllDigits(ds)
    decreases |ds|
  {
    if ds == [] then x else Accumulate(x * 10 + DigitValue(ds[0]), ds[1..])
  }

  lemma {:induction false} AccumulateGrows(x: int, ds: string)
    requires AllDigits(ds) && x >= 0
    ensures Accumulate(x, ds) >= x
    decreases |ds|
  {
    if ds != [] {
      AccumulateGrows(x * 10 + DigitValue(ds[0]), ds[1..]);
    }
  }

  /** A run of digits only extends `x` (as `x*10 + digit`) and never touches the total. */
  lemma {:induction false} ScanDigits(s: string, i: nat, j: nat, st: Scan)
    requires i <= j <= |s| && LongScan(st) && st.x >= 0
    requires AllDigits(s[i..j])
    requires 0 <= Accumulate(st.x, s[i..j]) <= LONG_MAX
    ensures ScanFrom(s, i, st, DigitValue)
         == ScanFrom(s, j, Scan(st.duration, Accumulate(st.x, s[i..j]), if i == j then st.numChar else false), DigitValue)
    decreases j - i
  {
    if i < j {
      var x' := st.x * 10 + DigitValue(s[i]);
      assert s[i..j][1..] == s[i + 1..j];
      assert AllDigits(s[i + 1..j]);
      AccumulateGrows(x', s[i + 1..j]);
      assert Wrap64(x') == x';
      ScanDigits(s, i + 1, j, Scan(st.duration, x', false));
    }
  }

  /** With digits only, a number followed by a unit letter adds `number * multiplier`: "1d" gives 86400. */
  lemma FixedSingleTerm(ds: string, unit: char)
    requires ds != [] && AllDigits(ds)
    requires UnitMultiplier(unit) > 0
    requires Accumulate(0, ds) * UnitMultiplier(unit) <= LONG_MAX
    ensures DurationSeconds(ds + [unit], DigitValue) == Accumulate(0, ds) * UnitMultiplier(unit)
  {
    var s := ds + [unit];
    var n := Accumulate(0, ds);
    assert s[0..|ds|] == ds;
    AccumulateGrows(0, ds);
    assert n <= n * UnitMultiplier(unit);
    ScanDigits(s, 0, |ds|, InitialScan);
    assert DigitValue(s[|ds|]) == -1;
  }

  /** With digits only, digits that no unit follows are never added to the total. */
  lemma {:induction false} ScanDigitsKeepDuration(s: string, i: nat, st: Scan)
    requires i <= |s| && LongScan(st) && AllDigits(s[i..])
    ensures ScanFrom(s, i, st, DigitValue).duration == st.duration
    decreases |s| - i
  {
    if i < |s| {
      assert IsAsciiDigit(s[i..][0]);
      assert s[i..][1..] == s[i + 1..];
      ScanDigitsKeepDuration(s, i + 1, Scan(st.duration, Wrap64(st.x * 10 + DigitValue(s[i])), false));
    }
  }
}

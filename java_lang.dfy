/*
 * Java-language semantics that the EasyAdmin sources rely on:
 * nullable values, two's-complement `int`/`long` wrap-around,
 * and the handful of `String` and `Character` library methods used
 * by the modelled code (`indexOf`, `startsWith`, `split("\\.")`,
 * `replaceAll(" +", " ")`, `toUpperCase`, `Character.getNumericValue`).
 */
module JavaLang {

  /** A Java reference that may be `null`. */
  datatype Option<T> = None | Some(value: T)

  /** The exceptions the modelled code throws or lets escape. */
  datatype Exception =
    | NullPointerException
    | IllegalArgumentException
    | IllegalStateException(message: string)
    | ArrayIndexOutOfBoundsException
    | IndexOutOfBoundsException
    | ClassCastException
    | DateTimeParseException(errorIndex: int)
    | ConfigurationException(parentPath: string, key: string)
    | ImmutableEventException
    | CommitException
    | IOException
    | BuilderException(message: string)
    | RuntimeException(message: string)

  /** A `java.util.UUID`, identified by a number. */
  type Uuid = int

  /** A `LocalDateTime`, as a point on one time line (`isBefore` is `<`). */
  type Time = int

  /** The outcome of a Java call: a value, or an exception thrown to the caller. */
  datatype Outcome<T> = Ok(value: T) | Throws(ex: Exception)

  const INT_MIN: int := -0x8000_0000
  const INT_MAX: int := 0x7fff_ffff
  const LONG_MIN: int := -0x8000_0000_0000_0000
  const LONG_MAX: int := 0x7fff_ffff_ffff_ffff

  predicate IsInt(x: int) { INT_MIN <= x <= INT_MAX }
  predicate IsLong(x: int) { LONG_MIN <= x <= LONG_MAX }

  /** The value a Java `int` holds after an arithmetic result `x` is stored in it. */
  function Wrap32(x: int): (r: int)
    ensures IsInt(r)
    ensures (r - x) % 0x1_0000_0000 == 0
    ensures IsInt(x) ==> r == x
  {
    var m := x % 0x1_0000_0000;
    if m > INT_MAX then m - 0x1_0000_0000 else m
  }

  lemma MulAtLeast(x: int, b: int)
    requires x >= 1 && b > 0
    ensures x * b >= b
  {
    assert x * b == (x - 1) * b + b;
  }

  /** Division by a positive number has a single quotient and remainder. */
  lemma DivModUnique(m: int, b: int, q: int, r: int)
    requires b > 0 && 0 <= r < b
    requires m == q * b + r
    ensures m / b == q && m % b == r
  {
    var q0, r0 := m / b, m % b;
    assert m == q0 * b + r0;
    assert (q0 - q) * b == r - r0 by {
      assert (q0 - q) * b == q0 * b - q * b;
    }
    if q0 > q {
      MulAtLeast(q0 - q, b);
      assert false;
    } else if q0 < q {
      MulAtLeast(q - q0, b);
      assert false;
    }
  }

  /** Two results that differ by a multiple of 2^32 are stored as the same `int`. */
  lemma Wrap32Congruent(x: int, y: int)
    requires (x - y) % 0x1_0000_0000 == 0
    ensures Wrap32(x) == Wrap32(y)
  {
    var M := 0x1_0000_0000;
    var k := (x - y) / M;
    assert x - y == k * M;
    assert y == (y / M) * M + y % M;
    assert x == (y / M + k) * M + y % M;
    DivModUnique(x, M, y / M + k, y % M);
  }

  /** A multiple of 2^32, written as such. */
  lemma MultipleOfWord(d: int)
    requires d % 0x1_0000_0000 == 0
    ensures d == (d / 0x1_0000_0000) * 0x1_0000_0000
  {
  }

  /** `int` addition wraps the same whether or not its operands were wrapped first. */
  lemma Wrap32Add(a: int, b: int)
    ensures Wrap32(Wrap32(a) + Wrap32(b)) == Wrap32(a + b)
  {
    var M := 0x1_0000_0000;
    MultipleOfWord(Wrap32(a) - a);
    MultipleOfWord(Wrap32(b) - b);
    var ka, kb := (Wrap32(a) - a) / M, (Wrap32(b) - b) / M;
    assert (Wrap32(a) + Wrap32(b)) - (a + b) == (ka + kb) * M;
    DivModUnique((ka + kb) * M, M, ka + kb, 0);
    Wrap32Congruent(Wrap32(a) + Wrap32(b), a + b);
  }

  /** `int` doubling wraps the same whether or not its operand was wrapped first. */
  lemma Wrap32Double(a: int)
    ensures Wrap32(Wrap32(a) * 2) == Wrap32(a * 2)
  {
    var M := 0x1_0000_0000;
    MultipleOfWord(Wrap32(a) - a);
    var k := (Wrap32(a) - a) / M;
    assert Wrap32(a) * 2 - a * 2 == (2 * k) * M;
    DivModUnique((2 * k) * M, M, 2 * k, 0);
    Wrap32Congruent(Wrap32(a) * 2, a * 2);
  }

  /** The value a Java `long` holds after an arithmetic result `x` is stored in it. */
  function Wrap64(x: int): (r: int)
    ensures IsLong(r)
    ensures (r - x) % 0x1_0000_0000_0000_0000 == 0
    ensures IsLong(x) ==> r == x
  {
    var m := x % 0x1_0000_0000_0000_0000;
    if m > LONG_MAX then m - 0x1_0000_0000_0000_0000 else m
  }

  /** Java's `/` by a positive divisor, which truncates toward zero (Dafny's `/` is Euclidean). */
  function JavaDiv(a: int, b: int): (q: int)
    requires b > 0
    ensures 0 <= a ==> q == a / b
    ensures a < 0 ==> q == -((-a) / b)
  {
    if a >= 0 then a / b else -((-a) / b)
  }

  /** Java's `%` by a positive divisor, whose result takes the sign of the dividend. */
  function JavaRem(a: int, b: int): (r: int)
    requires b > 0
    ensures a == JavaDiv(a, b) * b + r
    ensures 0 <= a ==> r == a % b
    ensures a < 0 ==> -b < r <= 0 && r == -((-a) % b)
  {
    if a >= 0 then a % b else -((-a) % b)
  }

  function Abs(x: int): nat { if x < 0 then -x else x }

  /** `s.startsWith(p)` */
  predicate StartsWith(s: string, p: string) {
    |p| <= |s| && s[..|p|] == p
  }

  predicate MatchesAt(s: string, pat: string, k: int) {
    0 <= k && k + |pat| <= |s| && s[k..k + |pat|] == pat
  }

  /** `s.indexOf(pat, from)` for a non-negative `from`: the first match at or after `from`, or -1. */
  function IndexOf(s: string, pat: string, from: nat): (r: int)
    ensures r == -1 || (from <= r && MatchesAt(s, pat, r))
    ensures r != -1 ==> forall k :: from <= k < r ==> !MatchesAt(s, pat, k)
    ensures r == -1 ==> forall k :: from <= k ==> !MatchesAt(s, pat, k)
    decreases |s| - from
  {
    if from + |pat| > |s| then -1
    else if s[from..from + |pat|] == pat then from
    else IndexOf(s, pat, from + 1)
  }

  /** `s.replaceAll(" +", " ")`: every maximal run of spaces becomes one space. */
  function CollapseSpaces(s: string): (r: string)
    ensures |r| <= |s|
    ensures NoDoubleSpace(r)
    ensures s != [] && r != [] ==> r[0] == s[0]
    ensures s != [] ==> r != []
    decreases |s|
  {
    if s == [] then []
    else if s[0] == ' ' then [' '] + CollapseSpaces(DropSpaces(s[1..]))
    else [s[0]] + CollapseSpaces(s[1..])
  }

  function DropSpaces(s: string): (r: string)
    ensures |r| <= |s|
    ensures r == [] || r[0] != ' '
    ensures r == s[|s| - |r|..]
    ensures s != [] && s[|s| - 1] != ' ' ==> r != [] && r[|r| - 1] == s[|s| - 1]
  {
    if s != [] && s[0] == ' ' then DropSpaces(s[1..]) else s
  }

  predicate NoDoubleSpace(s: string) {
    forall i :: 0 <= i < |s| - 1 ==> !(s[i] == ' ' && s[i + 1] == ' ')
  }

  /** Collapsing a string that has no run of two spaces changes nothing, so collapsing is idempotent. */
  lemma {:induction false} CollapseSpacesFixesCollapsed(s: string)
    requires NoDoubleSpace(s)
    ensures CollapseSpaces(s) == s
    decreases |s|
  {
    if s == [] {
    } else if s[0] == ' ' {
      assert s[1..] == [] || s[1] != ' ';
      assert DropSpaces(s[1..]) == s[1..];
      CollapseSpacesFixesCollapsed(s[1..]);
    } else {
      CollapseSpacesFixesCollapsed(s[1..]);
    }
  }

  lemma CollapseSpacesIdempotent(s: string)
    ensures CollapseSpaces(CollapseSpaces(s)) == CollapseSpaces(s)
  {
    CollapseSpacesFixesCollapsed(CollapseSpaces(s));
  }

  /** The pieces of `s` between occurrences of `sep`, keeping every empty piece. */
  function SplitAll(s: string, sep: char): (parts: seq<string>)
    ensures |parts| >= 1
    ensures forall p :: p in parts ==> sep !in p
    decreases |s|
  {
    if s == [] then [[]]
    else
      var rest := SplitAll(s[1..], sep);
      if s[0] == sep then [[]] + rest
      else [[s[0]] + rest[0]] + rest[1..]
  }

  function Join(parts: seq<string>, sep: char): string
    requires |parts| >= 1
  {
    if |parts| == 1 then parts[0] else parts[0] + [sep] + Join(parts[1..], sep)
  }

  /** Splitting and re-joining gives back the original string. */
  lemma {:induction false} JoinSplitAll(s: string, sep: char)
    ensures Join(SplitAll(s, sep), sep) == s
    decreases |s|
  {
    if s != [] {
      JoinSplitAll(s[1..], sep);
      var rest := SplitAll(s[1..], sep);
      if s[0] != sep {
        if |rest| == 1 {
          assert Join(SplitAll(s, sep), sep) == [s[0]] + rest[0];
        } else {
          assert Join(rest, sep) == rest[0] + [sep] + Join(rest[1..], sep);
          assert Join(SplitAll(s, sep), sep) == ([s[0]] + rest[0]) + [sep] + Join(rest[1..], sep);
        }
      }
    }
  }

  /** A first piece free of `sep` is glued onto the first piece of what follows it. */
  lemma {:induction false} SplitAllPrefix(p: string, rest: string, sep: char)
    requires sep !in p
    ensures var r := SplitAll(rest, sep);
            SplitAll(p + rest, sep) == [p + r[0]] + r[1..]
    decreases |p|
  {
    var r := SplitAll(rest, sep);
    if p == [] {
      assert p + rest == rest;
      assert p + r[0] == r[0];
      assert [p + r[0]] + r[1..] == r;
    } else {
      SplitAllPrefix(p[1..], rest, sep);
      assert (p + rest)[1..] == p[1..] + rest;
      assert [p[0]] + (p[1..] + r[0]) == p + r[0];
    }
  }

  /** Joining pieces free of `sep` and splitting again gives back the pieces. */
  lemma {:induction false} SplitAllJoin(parts: seq<string>, sep: char)
    requires |parts| >= 1
    requires forall p :: p in parts ==> sep !in p
    ensures SplitAll(Join(parts, sep), sep) == parts
    decreases |parts|
  {
    if |parts| == 1 {
      SplitAllPrefix(parts[0], [], sep);
      assert parts[0] + [] == parts[0];
    } else {
      var tail := Join(parts[1..], sep);
      assert parts[1..][0] == parts[1];
      assert forall p :: p in parts[1..] ==> p in parts;
      SplitAllJoin(parts[1..], sep);
      assert ([sep] + tail)[1..] == tail;
      var r := SplitAll([sep] + tail, sep);
      assert r == [[]] + parts[1..];
      SplitAllPrefix(parts[0], [sep] + tail, sep);
      assert Join(parts, sep) == parts[0] + ([sep] + tail);
      assert parts[0] + r[0] == parts[0];
      assert r[1..] == parts[1..];
      assert [parts[0]] + parts[1..] == parts;
    }
  }

  function DropTrailingEmpty(parts: seq<string>): (r: seq<string>)
    ensures |r| <= |parts| && r == parts[..|r|]
    ensures r == [] || r[|r| - 1] != []
    ensures forall k :: |r| <= k < |parts| ==> parts[k] == []
  {
    if parts == [] then []
    else if parts[|parts| - 1] == [] then DropTrailingEmpty(parts[..|parts| - 1])
    else parts
  }

  /**
   * `s.split(regex)` for a regex that matches exactly the one character `sep`:
   * no match gives `[s]`; otherwise the pieces with trailing empty strings removed.
   */
  function JavaSplit(s: string, sep: char): (parts: seq<string>)
    ensures sep !in s ==> parts == [s]
    ensures sep in s ==> parts == DropTrailingEmpty(SplitAll(s, sep))
    ensures forall p :: p in parts ==> sep !in p
  {
    if sep !in s then [s] else DropTrailingEmpty(SplitAll(s, sep))
  }

  /** `split` undoes a join of separator-free pieces whose last piece is not empty. */
  lemma JavaSplitJoin(parts: seq<string>, sep: char)
    requires |parts| >= 1
    requires forall p :: p in parts ==> sep !in p
    requires parts[|parts| - 1] != []
    ensures JavaSplit(Join(parts, sep), sep) == parts
  {
    SplitAllJoin(parts, sep);
    if |parts| > 1 {
      var s := Join(parts, sep);
      assert s[|parts[0]|] == sep;
    }
  }

  /** `s.toUpperCase()` on the ASCII letters; other characters are kept. */
  function ToUpperAscii(s: string): (r: string)
    ensures |r| == |s|
    ensures forall i :: 0 <= i < |s| ==> r[i] == UpperChar(s[i])
  {
    if s == [] then [] else [UpperChar(s[0])] + ToUpperAscii(s[1..])
  }

  function UpperChar(c: char): char {
    if 'a' <= c <= 'z' then (c as int - 'a' as int + 'A' as int) as char else c
  }

  predicate IsAsciiDigit(c: char) { '0' <= c <= '9' }
  predicate IsAsciiLetter(c: char) { 'a' <= c <= 'z' || 'A' <= c <= 'Z' }

  /**
   * `Character.getNumericValue(c)` on ASCII: digits give 0..9 and the Latin letters,
   * in either case, give 10..35; everything else gives -1.
   */
  function NumericValue(c: char): (v: int)
    ensures -1 <= v <= 35
    ensures v >= 0 <==> IsAsciiDigit(c) || IsAsciiLetter(c)
    ensures IsAsciiDigit(c) ==> v == c as int - '0' as int
    ensures IsAsciiLetter(c) ==> v >= 10
  {
    if '0' <= c <= '9' then c as int - '0' as int
    else if 'a' <= c <= 'z' then c as int - 'a' as int + 10
    else if 'A' <= c <= 'Z' then c as int - 'A' as int + 10
    else -1
  }
}

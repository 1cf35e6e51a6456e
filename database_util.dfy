/*
 * `DatabaseUtil`: choosing the database controller for the configured
 * platform, and splitting a bundled SQL schema script into statements.
 *
 * The splitter reads the script line by line. Lines starting with "--" are
 * skipped; closed block comments are cut out of a line, repeatedly; while a
 * block comment stays open, only the text before it is kept. Kept text is
 * appended to a buffer with no separator, and whenever the buffer ends in ';'
 * it is emitted, with runs of spaces collapsed, and reset.
 */
module DatabaseUtil {
  import opened JavaLang
  import opened DatabaseConfig

  /** The connection loader a controller is built on, with the values passed to its constructor. */
  datatype ConfigLoader =
    | H2Loader(dataFile: string, user: Option<string>)
    | H2SecureLoader(dataFile: string, user: Option<string>, password: Option<string>)
    | MySqlLoader(host: Option<string>, port: int, user: Option<string>, password: Option<string>, database: Option<string>)
    | PostgresLoader(host: Option<string>, port: int, user: Option<string>, password: Option<string>, database: Option<string>)
    | SqliteLoader(dataFile: string)

  function LoaderPlatform(loader: ConfigLoader): DatabasePlatform {
    match loader
    case H2Loader(_, _) => H2
    case H2SecureLoader(_, _, _) => H2_SECURE
    case MySqlLoader(_, _, _, _, _) => MYSQL
    case PostgresLoader(_, _, _, _, _) => POSTGRESQL
    case SqliteLoader(_) => SQLITE
  }

  /**
   * `createController`: `null` when the configured platform is unknown,
   * otherwise a controller on the loader for that platform. The settings
   * getters throw when there are no settings; SQLite reads none.
   */
  function CreateController(config: DatabaseConfig): (r: Outcome<Option<ConfigLoader>>)
    ensures GetDatabasePlatform(config).Throws? ==> r == Throws(GetDatabasePlatform(config).ex)
    ensures r == Ok(None) <==> GetDatabasePlatform(config) == Ok(None)
    ensures r.Ok? && r.value.Some? ==> GetDatabasePlatform(config) == Ok(Some(LoaderPlatform(r.value.value)))
    ensures GetDatabasePlatform(config) == Ok(Some(SQLITE)) ==> r.Ok?
    ensures GetDatabasePlatform(config).Ok? && GetDatabasePlatform(config).value.Some? && config.settings.Some? ==> r.Ok?
  {
    var platform := GetDatabasePlatform(config);
    if platform.Throws? then Throws(platform.ex)
    else if platform.value.None? then Ok(None)
    else if platform.value.value == SQLITE then Ok(Some(SqliteLoader("easyadmin.db")))
    else if config.settings.None? then Throws(NullPointerException)
    else
      var s := config.settings.value;
      match platform.value.value
      case H2 => Ok(Some(H2Loader("easyadmin.h2", s.user)))
      case H2_SECURE => Ok(Some(H2SecureLoader("easyadmin_s.h2", s.user, s.pass)))
      case MYSQL => Ok(Some(MySqlLoader(s.host, s.port, s.user, s.pass, s.database)))
      case POSTGRESQL => Ok(Some(PostgresLoader(s.host, s.port, s.user, s.pass, s.database)))
  }

  // ---------------------------------------------------------------------------
  // Schema splitting

  predicate NoCommentStart(s: string) {
    forall k :: 0 <= k < |s| ==> !MatchesAt(s, "/*", k)
  }

  /** The state after the comment-stripping loop of one line. */
  datatype Stripped = Stripped(line: string, inComment: bool, start: int)

  /** The text of a stripped line that goes into the statement buffer. */
  function Kept(r: Stripped): string
    requires r.inComment ==> 0 <= r.start <= |r.line|
  {
    if r.inComment then r.line[..r.start] else r.line
  }

  // The do-while loop over one line: when not inside a comment, find the
  // first comment opener; when inside one, find the next closer at or after
  // the opener's start, cut the comment out and go round again.
  function StripComments(line: string, inComment: bool): (r: Stripped)
    ensures r.inComment ==> 0 <= r.start <= |r.line| && IndexOf(r.line, "*/", r.start) == -1
    ensures !r.inComment ==> IndexOf(r.line, "/*", 0) == -1
    ensures NoCommentStart(Kept(r))
    ensures |r.line| <= |line|
    ensures forall c :: c in r.line ==> c in line
    decreases |line|
  {
    var start := if inComment then 0 else IndexOf(line, "/*", 0);
    if !inComment && start == -1 then Stripped(line, false, start)
    else
      var end := IndexOf(line, "*/", start);
      if end == -1 then
        OpenerFreePrefix(line, start);
        Stripped(line, true, start)
      else
        var cut := line[..start] + line[end + 2..];
        CutKeepsCharacters(line, start, end);
        StripComments(cut, false)
  }

  /** The text before the first comment opener holds no opener. */
  lemma OpenerFreePrefix(line: string, start: int)
    requires 0 <= start <= |line|
    requires forall k :: 0 <= k < start ==> !MatchesAt(line, "/*", k)
    ensures NoCommentStart(line[..start])
  {
    forall k | 0 <= k < start
      ensures MatchesAt(line[..start], "/*", k) ==> MatchesAt(line, "/*", k)
    {
      if k + 2 <= start {
        assert line[..start][k..k + 2] == line[k..k + 2];
      }
    }
  }

  /** Cutting a comment out keeps only characters of the line. */
  lemma CutKeepsCharacters(line: string, start: int, end: int)
    requires 0 <= start <= end && end + 2 <= |line|
    ensures forall c :: c in line[..start] + line[end + 2..] ==> c in line
  {
    var cut := line[..start] + line[end + 2..];
    forall c | c in cut
      ensures c in line
    {
      var j :| 0 <= j < |cut| && cut[j] == c;
      if j < start {
        assert line[j] == c;
      } else {
        assert line[j - start + end + 2] == c;
      }
    }
  }

  /** The reader loop's variables: the statement buffer, the comment flag and the statements so far. */
  datatype Splitter = Splitter(statement: string, inComment: bool, statements: seq<string>)

  const InitialSplitter := Splitter([], false, [])

  /** One line of the reader loop. */
  function StepLine(st: Splitter, line: string): Splitter {
    if StartsWith(line, "--") then st
    else
      var r := StripComments(line, st.inComment);
      var buffer := st.statement + Kept(r);
      if |buffer| > 0 && buffer[|buffer| - 1] == ';' then
        Splitter([], r.inComment, st.statements + [CollapseSpaces(buffer)])
      else
        Splitter(buffer, r.inComment, st.statements)
  }

  function SplitFrom(st: Splitter, lines: seq<string>): Splitter
    decreases |lines|
  {
    if lines == [] then st else SplitFrom(StepLine(st, lines[0]), lines[1..])
  }

  /** The statements `loadSchemaStatements` returns for a script with these lines. */
  function SchemaStatements(lines: seq<string>): seq<string> {
    SplitFrom(InitialSplitter, lines).statements
  }

  /** The do-while loop of `loadSchemaStatements` that cuts the comments out of one line. */
  method StripLine(line0: string, inComment0: bool) returns (r: Stripped)
    ensures r == StripComments(line0, inComment0)
  {
    var line := line0;
    var inComment := inComment0;
    var startCommentIndex := 0;
    var endCommentIndex := -1;
    var looping := true;
    while looping
      invariant looping ==> StripComments(line0, inComment0) == StripComments(line, inComment)
      invariant looping && inComment ==> startCommentIndex == 0
      invariant !looping ==> StripComments(line0, inComment0) == Stripped(line, inComment, startCommentIndex)
      decreases |line| + (if looping then 1 else 0)
    {
      if !inComment {
        startCommentIndex := IndexOf(line, "/*", 0);
        if startCommentIndex != -1 {
          inComment := true;
        }
      }
      endCommentIndex := -1;
      if inComment {
        endCommentIndex := IndexOf(line, "*/", startCommentIndex);
        if endCommentIndex != -1 {
          inComment := false;
          line := line[..startCommentIndex] + line[endCommentIndex + 2..];
        }
      }
      looping := endCommentIndex != -1;
    }
    return Stripped(line, inComment, startCommentIndex);
  }

  /** `loadSchemaStatements`: a missing resource is an `IOException`; otherwise the split statements. */
  method LoadSchemaStatements(resource: Option<seq<string>>) returns (r: Outcome<seq<string>>)
    ensures resource.None? ==> r == Throws(IOException)
    ensures resource.Some? ==> r == Ok(SchemaStatements(resource.value))
  {
    if resource.None? {
      return Throws(IOException);
    }
    var lines := resource.value;
    var statements: seq<string> := [];
    var statement: string := [];
    var inComment := false;
    var i := 0;
    while i < |lines|
      invariant 0 <= i <= |lines|
      invariant SplitFrom(InitialSplitter, lines)
             == SplitFrom(Splitter(statement, inComment, statements), lines[i..])
    {
      ghost var before := Splitter(statement, inComment, statements);
      SplitFromStep(before, lines, i);
      var line := lines[i];
      i := i + 1;
      if StartsWith(line, "--") {
        assert StepLine(before, line) == before;
        continue;
      }
      var stripped := StripLine(line, inComment);
      line, inComment := stripped.line, stripped.inComment;
      var startCommentIndex := stripped.start;
      if inComment {
        statement := statement + line[..startCommentIndex];
      } else {
        statement := statement + line;
      }
      assert statement == before.statement + Kept(stripped);
      var length := |statement|;
      if length > 0 && statement[length - 1] == ';' {
        statements := statements + [CollapseSpaces(statement)];
        statement := [];
      }
      assert Splitter(statement, inComment, statements) == StepLine(before, lines[i - 1]);
    }
    return Ok(statements);
  }

  // ---------------------------------------------------------------------------
  // Properties of the splitter

  lemma SplitFromStep(st: Splitter, lines: seq<string>, i: nat)
    requires i < |lines|
    ensures SplitFrom(st, lines[i..]) == SplitFrom(StepLine(st, lines[i]), lines[i + 1..])
  {
    assert lines[i..][0] == lines[i];
    assert lines[i..][1..] == lines[i + 1..];
  }

  lemma {:induction false} SplitFromAppend(st: Splitter, a: seq<string>, b: seq<string>)
    ensures SplitFrom(st, a + b) == SplitFrom(SplitFrom(st, a), b)
    decreases |a|
  {
    if a == [] {
      assert a + b == b;
    } else {
      assert (a + b)[0] == a[0];
      assert (a + b)[1..] == a[1..] + b;
      SplitFromAppend(StepLine(st, a[0]), a[1..], b);
    }
  }

  /** A line starting with "--" can be inserted anywhere without changing the statements. */
  lemma CommentLineIgnored(before: seq<string>, comment: string, after: seq<string>)
    requires StartsWith(comment, "--")
    ensures SchemaStatements(before + [comment] + after) == SchemaStatements(before + after)
  {
    SplitFromAppend(InitialSplitter, before, [comment] + after);
    SplitFromAppend(InitialSplitter, before, after);
    assert before + [comment] + after == before + ([comment] + after);
    assert ([comment] + after)[1..] == after;
  }

  predicate WellFormedStatement(s: string) {
    |s| > 0 && s[|s| - 1] == ';' && NoDoubleSpace(s)
  }

  predicate AllWellFormed(statements: seq<string>) {
    forall k :: 0 <= k < |statements| ==> WellFormedStatement(statements[k])
  }

  lemma {:induction false} CollapseKeepsLast(s: string)
    requires |s| > 0 && s[|s| - 1] != ' '
    ensures |CollapseSpaces(s)| > 0 && CollapseSpaces(s)[|CollapseSpaces(s)| - 1] == s[|s| - 1]
    decreases |s|
  {
    if |s| > 1 {
      if s[0] == ' ' {
        var d := DropSpaces(s[1..]);
        assert d != [] by {
          assert s[1..][|s| - 2] != ' ';
        }
        assert d[|d| - 1] == s[|s| - 1];
        CollapseKeepsLast(d);
      } else {
        CollapseKeepsLast(s[1..]);
      }
    }
  }

  lemma {:induction false} SplitFromWellFormed(st: Splitter, lines: seq<string>)
    requires AllWellFormed(st.statements)
    ensures AllWellFormed(SplitFrom(st, lines).statements)
    decreases |lines|
  {
    if lines != [] {
      assert SplitFrom(st, lines) == SplitFrom(StepLine(st, lines[0]), lines[1..]);
      StepLineWellFormed(st, lines[0]);
      SplitFromWellFormed(StepLine(st, lines[0]), lines[1..]);
    }
  }

  lemma StepLineWellFormed(st: Splitter, line: string)
    requires AllWellFormed(st.statements)
    ensures AllWellFormed(StepLine(st, line).statements)
  {
    if !StartsWith(line, "--") {
      var buffer := st.statement + Kept(StripComments(line, st.inComment));
      if |buffer| > 0 && buffer[|buffer| - 1] == ';' {
        CollapseKeepsLast(buffer);
        assert WellFormedStatement(CollapseSpaces(buffer));
        var out := st.statements + [CollapseSpaces(buffer)];
        assert StepLine(st, line).statements == out;
        assert forall k :: 0 <= k < |out| ==> WellFormedStatement(out[k]) by {
          forall k | 0 <= k < |out|
            ensures WellFormedStatement(out[k])
          {
            if k < |st.statements| {
              assert out[k] == st.statements[k];
            }
          }
        }
      }
    }
  }

  /** Every emitted statement is non-empty, ends in ';' and has no run of two spaces. */
  lemma StatementsWellFormed(lines: seq<string>)
    ensures AllWellFormed(SchemaStatements(lines))
  {
    SplitFromWellFormed(InitialSplitter, lines);
  }

  predicate NoSemicolon(s: string) { ';' !in s }

  lemma {:induction false} SplitFromNoSemicolon(st: Splitter, lines: seq<string>)
    requires NoSemicolon(st.statement)
    requires forall k :: 0 <= k < |lines| ==> NoSemicolon(lines[k])
    ensures SplitFrom(st, lines).statements == st.statements
    decreases |lines|
  {
    if lines != [] {
      var r := StripComments(lines[0], st.inComment);
      assert NoSemicolon(Kept(r)) by {
        if r.inComment {
          assert forall c :: c in r.line[..r.start] ==> c in r.line;
        }
      }
      SplitFromNoSemicolon(StepLine(st, lines[0]), lines[1..]);
    }
  }

  /** Text that no ';' ever terminates is dropped: a script without ';' yields no statement. */
  lemma TrailingTextDropped(lines: seq<string>)
    requires forall k :: 0 <= k < |lines| ==> NoSemicolon(lines[k])
    ensures SchemaStatements(lines) == []
  {
    SplitFromNoSemicolon(InitialSplitter, lines);
  }

  function Concat(lines: seq<string>): string {
    if lines == [] then [] else Concat(lines[..|lines| - 1]) + lines[|lines| - 1]
  }

  /** A line the splitter copies verbatim: no "--" prefix and no block comment. */
  predicate PlainLine(line: string) {
    !StartsWith(line, "--") && NoCommentStart(line)
  }

  lemma {:induction false} PlainLinesAccumulate(lines: seq<string>)
    requires forall k :: 0 <= k < |lines| ==> PlainLine(lines[k]) && NoSemicolon(lines[k])
    ensures SplitFrom(InitialSplitter, lines) == Splitter(Concat(lines), false, [])
    decreases |lines|
  {
    if lines != [] {
      var init := lines[..|lines| - 1];
      var last := lines[|lines| - 1];
      PlainLinesAccumulate(init);
      SplitFromAppend(InitialSplitter, init, [last]);
      assert init + [last] == lines;
      assert IndexOf(last, "/*", 0) == -1;
      assert NoSemicolon(Concat(init)) by {
        SplitFromNoSemicolon(InitialSplitter, init);
        ConcatNoSemicolon(init);
      }
    }
  }

  lemma {:induction false} ConcatNoSemicolon(lines: seq<string>)
    requires forall k :: 0 <= k < |lines| ==> NoSemicolon(lines[k])
    ensures NoSemicolon(Concat(lines))
    decreases |lines|
  {
    if lines != [] {
      ConcatNoSemicolon(lines[..|lines| - 1]);
    }
  }

  /**
   * Plain lines are joined with no separator into one statement, emitted when
   * the last line ends in ';'.
   */
  lemma LinesJoinedWithoutSeparator(lines: seq<string>, last: string)
    requires forall k :: 0 <= k < |lines| ==> PlainLine(lines[k]) && NoSemicolon(lines[k])
    requires PlainLine(last) && |last| > 0 && last[|last| - 1] == ';'
    ensures SchemaStatements(lines + [last]) == [CollapseSpaces(Concat(lines) + last)]
  {
    PlainLinesAccumulate(lines);
    SplitFromAppend(InitialSplitter, lines, [last]);
    assert IndexOf(last, "/*", 0) == -1;
    assert Concat(lines + [last]) == Concat(lines) + last by {
      assert (lines + [last])[..|lines|] == lines;
    }
  }
}

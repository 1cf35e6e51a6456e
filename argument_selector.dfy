/*
 * `ArgumentSelector`: a cursor over a command's arguments. Every read takes
 * the next argument and advances the cursor by one; `undo` steps back over
 * the last read, once.
 */
module Arguments {
  import opened JavaLang
  import opened Utils

  /** `readRemainingString`, as a value: the arguments from `from` on, separated by single spaces. */
  function RemainingString(args: seq<string>, from: int): string {
    if 0 <= from < |args| then Join(args[from..], ' ') else ""
  }

  /** The same text built from the left, one argument at a time, as the loop builds it. */
  function JoinSpaces(parts: seq<string>): string {
    if |parts| == 0 then ""
    else if |parts| == 1 then parts[0]
    else JoinSpaces(parts[..|parts| - 1]) + " " + parts[|parts| - 1]
  }

  lemma {:induction false} JoinSpacesIsJoin(parts: seq<string>)
    requires |parts| >= 1
    ensures JoinSpaces(parts) == Join(parts, ' ')
    decreases |parts|
  {
    if |parts| > 1 {
      var init := parts[..|parts| - 1];
      JoinSpacesIsJoin(parts[1..]);
      if |parts| > 2 {
        JoinSpacesIsJoin(init);
        assert init[1..] == parts[1..][..|parts[1..]| - 1];
        assert JoinSpaces(parts[1..]) == JoinSpaces(init[1..]) + " " + parts[|parts| - 1];
        JoinSpacesIsJoin(init[1..]);
        assert Join(init, ' ') == init[0] + " " + Join(init[1..], ' ');
      } else {
        assert parts[1..] == [parts[1]];
      }
    }
  }

  /**
   * When no argument holds a space, splitting the remaining string on spaces
   * gives back exactly the arguments not yet read.
   */
  lemma RemainingSplitsBack(args: seq<string>, from: int)
    requires 0 <= from < |args|
    requires forall a :: a in args ==> ' ' !in a
    ensures SplitAll(RemainingString(args, from), ' ') == args[from..]
  {
    assert forall a :: a in args[from..] ==> a in args;
    SplitAllJoin(args[from..], ' ');
  }

  class ArgumentSelector {
    const args: seq<string>
    var argsRead: int
    var argsProcessed: int
    /** The size of the last step, or -1 when there is nothing to undo. */
    var lastAdvance: int

    /** The cursor never passes the end, and a pending undo has one step to take back. */
    ghost predicate Valid()
      reads this
    {
      0 <= argsRead <= |args| && argsProcessed >= 0
      && (lastAdvance == -1 || (lastAdvance == 1 && argsRead >= 1 && argsProcessed >= 1))
    }

    constructor (args: seq<string>)
      ensures Valid()
      ensures this.args == args && argsRead == 0 && argsProcessed == 0 && lastAdvance == -1
    {
      this.args := args;
      argsRead := 0;
      argsProcessed := 0;
      lastAdvance := -1;
    }

    /** `advance`: moves the cursor by `count`, counts one processed argument and remembers the step. */
    method Advance(count: int) returns (current: int)
      modifies this
      ensures current == old(argsRead)
      ensures argsRead == old(argsRead) + count && argsProcessed == old(argsProcessed) + 1
      ensures lastAdvance == count
    {
      current := argsRead;
      argsRead := argsRead + count;
      argsProcessed := argsProcessed + 1;
      lastAdvance := count;
    }

    /** `undo`: takes back the last step; with no step to take back it throws. */
    method Undo() returns (r: Outcome<()>)
      requires Valid()
      modifies this
      ensures Valid()
      ensures old(lastAdvance) == -1 ==> r == Throws(IllegalStateException("No read history.")) && unchanged(this)
      ensures old(lastAdvance) != -1 ==>
                r == Ok(()) && argsRead == old(argsRead) - old(lastAdvance)
                && argsProcessed == old(argsProcessed) - 1 && lastAdvance == -1
    {
      if lastAdvance == -1 {
        return Throws(IllegalStateException("No read history."));
      }
      argsRead := argsRead - lastAdvance;
      argsProcessed := argsProcessed - 1;
      lastAdvance := -1;
      return Ok(());
    }

    /** `readSingleArgument`: the next argument, or a failure that leaves the cursor where it is. */
    method ReadSingleArgument() returns (r: Option<string>)
      requires Valid()
      modifies this
      ensures Valid()
      ensures old(argsRead) >= |args| ==> r == None && unchanged(this)
      ensures old(argsRead) < |args| ==> r == Some(args[old(argsRead)]) && Stepped(old(argsRead), old(argsProcessed))
    {
      if argsRead >= |args| {
        return None;
      }
      var i := argsRead;
      var _ := Advance(1);
      return Some(args[i]);
    }

    /** One argument consumed: the cursor and the processed count moved by one, and the step can be undone. */
    ghost predicate Stepped(read0: int, processed0: int)
      reads this
    {
      argsRead == read0 + 1 && argsProcessed == processed0 + 1 && lastAdvance == 1
    }

    /**
     * `readPlayerName` and `readOnlinePlayerName`: the next argument resolved
     * through the platform's player lookup, which is a parameter here.
     */
    method ReadPlayer<P>(lookup: string -> P) returns (r: Option<P>)
      requires Valid()
      modifies this
      ensures Valid()
      ensures old(argsRead) >= |args| ==> r == None && unchanged(this)
      ensures old(argsRead) < |args| ==> r == Some(lookup(args[old(argsRead)])) && Stepped(old(argsRead), old(argsProcessed))
    {
      if argsRead >= |args| {
        return None;
      }
      var i := Advance(1);
      return Some(lookup(args[i]));
    }

    /**
     * `readDuration`: the next argument parsed as a duration. The parse never
     * throws, so a present argument always gives a duration, and it is consumed.
     */
    method ReadDuration() returns (r: Option<Duration>)
      requires Valid()
      modifies this
      ensures Valid()
      ensures old(argsRead) >= |args| ==> r == None && unchanged(this)
      ensures old(argsRead) < |args| ==>
                r == Some(Duration(DurationSeconds(args[old(argsRead)], NumericValue)))
                && Stepped(old(argsRead), old(argsProcessed))
    {
      if argsRead >= |args| {
        return None;
      }
      var i := Advance(1);
      var d := ParseDuration(args[i]);
      return Some(d);
    }

    /**
     * `readNetworkAddress`: the next argument if it is a recognised address.
     * No address is ever recognised, so the read fails, yet still consumes the argument.
     */
    method ReadNetworkAddress() returns (r: Option<string>)
      requires Valid()
      modifies this
      ensures Valid()
      ensures r == None
      ensures old(argsRead) >= |args| ==> unchanged(this)
      ensures old(argsRead) < |args| ==> Stepped(old(argsRead), old(argsProcessed))
    {
      if argsRead >= |args| {
        return None;
      }
      var i := Advance(1);
      var address := args[i];
      r := if GetAddressType(address) != UNKNOWN then Some(address) else None;
    }

    function GetSourceArgsRead(): int
      reads this
    {
      argsRead
    }

    function GetArgsProcessed(): int
      reads this
    {
      argsProcessed
    }

    /** `readRemainingString`: the unread arguments joined by single spaces, without moving the cursor. */
    method ReadRemainingString() returns (s: string)
      requires Valid()
      ensures s == RemainingString(args, argsRead)
    {
      if |args| <= argsRead {
        return "";
      }
      var sb := "";
      var i := argsRead;
      while i < |args|
        invariant argsRead <= i <= |args|
        invariant sb == JoinSpaces(args[argsRead..i]) + (if argsRead < i < |args| then " " else "")
      {
        var part := args[argsRead..i + 1];
        assert part[..|part| - 1] == args[argsRead..i];
        sb := sb + args[i];
        if i < |args| - 1 {
          sb := sb + " ";
        }
        i := i + 1;
      }
      assert args[argsRead..i] == args[argsRead..];
      JoinSpacesIsJoin(args[argsRead..]);
      s := sb;
    }
  }

  /** A read followed by an undo leaves the cursor where it was, and a second undo throws. */
  method ReadThenUndoTwice(args: seq<string>) returns (first: Option<string>, undo1: Outcome<()>, undo2: Outcome<()>, read: int)
    ensures |args| > 0 ==> first == Some(args[0]) && undo1 == Ok(())
    ensures |args| == 0 ==> first == None && undo1.Throws?
    ensures undo2 == Throws(IllegalStateException("No read history."))
    ensures read == 0
  {
    var sel := new ArgumentSelector(args);
    first := sel.ReadSingleArgument();
    undo1 := sel.Undo();
    undo2 := sel.Undo();
    read := sel.GetSourceArgsRead();
  }
}

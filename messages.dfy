/*
 * A language file as loaded from YAML: nested maps whose leaves are message
 * strings, and the dotted-key walk of `LanguageGroup.getMessage` that finds a
 * message in it.
 *
 * A key such as "admin.ban.usage" is split on '.', every part but the last
 * selects a nested map, and the last part selects the message. A missing map
 * along the way, or a leaf that is not a string, gives `null`; a value along
 * the way that is not a map makes the unchecked cast throw.
 */
module Messages {
  import opened JavaLang

  /** A YAML value: a nested map, a string, or anything else (a number, a list, ...). */
  datatype Node = Section(entries: map<string, Node>) | Text(text: string) | Other

  /** A language file's top-level map. */
  type MessageMap = map<string, Node>

  /** `MessageKey`: a dotted key, and whether the plugin prefix goes in front of the message. */
  datatype MessageKey = MessageKey(key: string, addPrefix: bool)

  /**
   * The map reached from `m` along `path`: `null` once a key is missing,
   * and a `ClassCastException` at a value that is not a map.
   */
  function Descend(m: Option<MessageMap>, path: seq<string>): (r: Outcome<Option<MessageMap>>)
    ensures m.None? ==> r == Ok(None)
    ensures path == [] ==> r == Ok(m)
    decreases |path|
  {
    if m.None? || path == [] then Ok(m)
    else if path[0] !in m.value then Ok(None)
    else match m.value[path[0]]
      case Section(entries) => Descend(Some(entries), path[1..])
      case _ => Throws(ClassCastException)
  }

  /** The message stored under `name`, if it is a string. */
  function Leaf(m: MessageMap, name: string): (r: Option<string>)
    ensures r.Some? <==> name in m && m[name].Text?
    ensures r.Some? ==> m[name] == Text(r.value)
  {
    if name in m && m[name].Text? then Some(m[name].text) else None
  }

  /** The parts of a key. */
  function KeyParts(key: string): seq<string> { JavaSplit(key, '.') }

  /** Every part but the last: the sections to walk through. */
  function SectionPath(parts: seq<string>): seq<string> {
    if parts == [] then [] else parts[..|parts| - 1]
  }

  /**
   * What `getMessage` finds for `key` in `messages` (a `null` map when the
   * YAML file was empty). A key that splits into no parts at all, such as
   * ".", makes the final array access throw.
   */
  function MessageOf(messages: Option<MessageMap>, key: string): Outcome<Option<string>> {
    var parts := KeyParts(key);
    match Descend(messages, SectionPath(parts))
    case Throws(e) => Throws(e)
    case Ok(None) => Ok(None)
    case Ok(Some(m)) => if parts == [] then Throws(ArrayIndexOutOfBoundsException) else Ok(Leaf(m, parts[|parts| - 1]))
  }

  /** `LanguageGroup.getMessage`: the while loop that walks the sections, then the leaf test. */
  method LookupMessage(messages: Option<MessageMap>, key: string) returns (r: Outcome<Option<string>>)
    ensures r == MessageOf(messages, key)
  {
    var current := messages;
    var parts := JavaSplit(key, '.');
    var path := SectionPath(parts);
    var i := 0;
    while current.Some? && i < |path|
      invariant 0 <= i <= |path|
      invariant Descend(messages, path) == Descend(current, path[i..])
    {
      assert path[i..][0] == path[i] && path[i..][1..] == path[i + 1..];
      var name := path[i];
      i := i + 1;
      if name !in current.value {
        current := None;
      } else {
        match current.value[name]
        case Section(entries) =>
          current := Some(entries);
        case _ =>
          return Throws(ClassCastException);
      }
    }
    if current.Some? {
      assert path[i..] == [];
      if parts == [] {
        return Throws(ArrayIndexOutOfBoundsException);
      }
      return Ok(Leaf(current.value, parts[|parts| - 1]));
    }
    return Ok(None);
  }

  // ---------------------------------------------------------------------------
  // Properties of the walk

  /** The language file that holds just `text` under the dotted path `parts`. */
  function Nested(parts: seq<string>, text: string): MessageMap
    requires |parts| >= 1
    decreases |parts|
  {
    if |parts| == 1 then map[parts[0] := Text(text)]
    else map[parts[0] := Section(Nested(parts[1..], text))]
  }

  lemma {:induction false} DescendNested(parts: seq<string>, text: string)
    requires |parts| >= 1
    ensures Descend(Some(Nested(parts, text)), parts[..|parts| - 1]) == Ok(Some(map[parts[|parts| - 1] := Text(text)]))
    decreases |parts|
  {
    if |parts| > 1 {
      DescendNested(parts[1..], text);
      assert parts[..|parts| - 1][0] == parts[0];
      assert parts[..|parts| - 1][1..] == parts[1..][..|parts[1..]| - 1];
    }
  }

  /**
   * A message stored under a dotted path is found again by the key that
   * joins the path with '.', whatever the depth: the walk follows exactly
   * the sections the key names.
   */
  lemma FoundAtItsKey(parts: seq<string>, text: string)
    requires |parts| >= 1
    requires forall p :: p in parts ==> '.' !in p
    requires parts[|parts| - 1] != []
    ensures MessageOf(Some(Nested(parts, text)), Join(parts, '.')) == Ok(Some(text))
  {
    JavaSplitJoin(parts, '.');
    FoundAtPath(parts, text, Join(parts, '.'));
  }

  /** A key that splits into the path `parts` finds the message stored under that path. */
  lemma FoundAtPath(parts: seq<string>, text: string, key: string)
    requires |parts| >= 1 && KeyParts(key) == parts
    ensures MessageOf(Some(Nested(parts, text)), key) == Ok(Some(text))
  {
    DescendNested(parts, text);
    var leaf := map[parts[|parts| - 1] := Text(text)];
    assert SectionPath(parts) == parts[..|parts| - 1];
    LeafDecides(Some(Nested(parts, text)), key, leaf);
  }

  /** A key whose first section is missing from the file finds `null`. */
  lemma MissingSectionIsNull(messages: MessageMap, key: string)
    requires |KeyParts(key)| >= 2
    requires KeyParts(key)[0] !in messages
    ensures MessageOf(Some(messages), key) == Ok(None)
  {
  }

  /** A key whose first section holds a string, not a map, makes the walk throw instead of finding `null`. */
  lemma StringSectionThrows(messages: MessageMap, key: string)
    requires |KeyParts(key)| >= 2
    requires KeyParts(key)[0] in messages && messages[KeyParts(key)[0]].Text?
    ensures MessageOf(Some(messages), key) == Throws(ClassCastException)
  {
  }

  /** Once the walk reaches its last section, the result is the leaf if it is a string, and `null` otherwise. */
  lemma LeafDecides(messages: Option<MessageMap>, key: string, m: MessageMap)
    requires KeyParts(key) != []
    requires Descend(messages, SectionPath(KeyParts(key))) == Ok(Some(m))
    ensures var name := KeyParts(key)[|KeyParts(key)| - 1];
            MessageOf(messages, key) == if name in m && m[name].Text? then Ok(Some(m[name].text)) else Ok(None)
  {
  }

  /** An empty language file (a `null` map) finds nothing and never throws. */
  lemma EmptyFileFindsNothing(key: string)
    ensures MessageOf(None, key) == Ok(None)
  {
  }
}

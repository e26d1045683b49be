/**
 The YAML tree to JSON printer.  Strings are sequences of characters; the printer passes every
 character from U+0020 on through unchanged, which on UTF-8 bytes is the same thing.
 */
module YamlToJson {
  import opened JsonText

  // ---------------------------------------------------------------- trees

  /** A parsed YAML document: maps keep their entries in document order. */
  datatype Yaml =
    | YMap(entries: seq<Entry>)
    | YSeq(items: seq<Yaml>)
    | YScalar(text: string)
    | YNull

  datatype Entry = Entry(key: string, value: Yaml)

  predicate TrueWord(s: string)
  {
    s in {"true", "True", "TRUE", "yes", "Yes", "YES", "on", "On", "ON"}
  }

  predicate FalseWord(s: string)
  {
    s in {"false", "False", "FALSE", "no", "No", "NO", "off", "Off", "OFF"}
  }

  /** What a YAML tree means as JSON: boolean words are booleans, other scalars and all keys strings. */
  function Meaning(y: Yaml): Json
  {
    match y
    case YMap(es) => JObject(seq(|es|, i requires 0 <= i < |es| => Member(es[i].key, Meaning(es[i].value))))
    case YSeq(ys) => JArray(seq(|ys|, i requires 0 <= i < |ys| => Meaning(ys[i])))
    case YScalar(s) => if TrueWord(s) then JBool(true) else if FalseWord(s) then JBool(false) else JString(s)
    case YNull => JNull
  }

  // ---------------------------------------------------------------- the printed text

  function HexDigit(n: nat): char
    requires n < 16
  {
    "0123456789abcdef"[n]
  }

  function EscapeChar(c: char): string
  {
    if c == '"' then "\\\""
    else if c == '\\' then "\\\\"
    else if c == '\n' then "\\n"
    else if c == '\r' then "\\r"
    else if c == '\t' then "\\t"
    else if c as int < 0x20 then ['\\', 'u', '0', '0', HexDigit(c as int / 16), HexDigit(c as int % 16)]
    else [c]
  }

  function Escape(s: string): string
  {
    if s == "" then "" else EscapeChar(s[0]) + Escape(s[1..])
  }

  function Quoted(s: string): string
  {
    "\"" + Escape(s) + "\""
  }

  function Joined(parts: seq<string>): string
  {
    if parts == [] then ""
    else if |parts| == 1 then parts[0]
    else parts[0] + "," + Joined(parts[1..])
  }

  function Printed(y: Yaml): string
  {
    match y
    case YMap(es) =>
      "{" + Joined(seq(|es|, i requires 0 <= i < |es| => Quoted(es[i].key) + ":" + Printed(es[i].value))) + "}"
    case YSeq(ys) => "[" + Joined(seq(|ys|, i requires 0 <= i < |ys| => Printed(ys[i]))) + "]"
    case YScalar(s) => if TrueWord(s) then "true" else if FalseWord(s) then "false" else Quoted(s)
    case YNull => "null"
  }

  function PrintedEntry(e: Entry): string
  {
    Quoted(e.key) + ":" + Printed(e.value)
  }

  function PrintedEntries(es: seq<Entry>): seq<string>
  {
    seq(|es|, i requires 0 <= i < |es| => PrintedEntry(es[i]))
  }

  function PrintedItems(ys: seq<Yaml>): seq<string>
  {
    seq(|ys|, i requires 0 <= i < |ys| => Printed(ys[i]))
  }

  // ---------------------------------------------------------------- the printer

  /** The stream printed to. */
  class OutStream {
    var text: string

    constructor ()
      ensures text == ""
    {
      text := "";
    }

    method Put(s: string)
      modifies this
      ensures text == old(text) + s
    {
      text := text + s;
    }
  }

  lemma EscapeSnoc(s: string, c: char)
    ensures Escape(s + [c]) == Escape(s) + EscapeChar(c)
  {
    if s == "" {
      assert Escape([c]) == EscapeChar(c) + Escape("");
    } else {
      assert (s + [c])[1..] == s[1..] + [c];
      EscapeSnoc(s[1..], c);
    }
  }

  lemma Regroup(a: string, b: string, c: string)
    ensures (a + b) + c == a + (b + c)
  {
  }

  method PutEscaped(c: char, out: OutStream)
    modifies out
    ensures out.text == old(out.text) + EscapeChar(c)
  {
    match c {
      case '"' => out.Put("\\\"");
      case '\\' => out.Put("\\\\");
      case '\n' => out.Put("\\n");
      case '\r' => out.Put("\\r");
      case '\t' => out.Put("\\t");
      case _ =>
        if c as int < 0x20 {
          out.Put(['\\', 'u', '0', '0', HexDigit(c as int / 16), HexDigit(c as int % 16)]);
        } else {
          out.Put([c]);
        }
    }
  }

  method JsonEscapeString(s: string, out: OutStream)
    modifies out
    ensures out.text == old(out.text) + Quoted(s)
  {
    ghost var before := out.text;
    out.Put("\"");
    for i := 0 to |s|
      invariant out.text == before + ("\"" + Escape(s[..i]))
    {
      PutEscaped(s[i], out);
      EscapeSnoc(s[..i], s[i]);
      assert s[..i + 1] == s[..i] + [s[i]];
      Regroup(before, "\"" + Escape(s[..i]), EscapeChar(s[i]));
      Regroup("\"", Escape(s[..i]), EscapeChar(s[i]));
    }
    assert s[..|s|] == s;
    out.Put("\"");
    Regroup(before, "\"" + Escape(s), "\"");
  }

  lemma JoinedSnoc(parts: seq<string>, part: string)
    ensures Joined(parts + [part]) == Joined(parts) + (if parts == [] then "" else ",") + part
  {
    if |parts| > 1 {
      assert (parts + [part])[1..] == parts[1..] + [part];
      JoinedSnoc(parts[1..], part);
    }
  }

  /** Printing one more part after a separator extends the joined text. */
  lemma JoinedGrows(before: string, open: string, parts: seq<string>, part: string, after: string)
    requires after == before + (open + Joined(parts)) + ((if parts == [] then "" else ",") + part)
    ensures after == before + (open + Joined(parts + [part]))
  {
    JoinedSnoc(parts, part);
    var sep := if parts == [] then "" else ",";
    Regroup(before, open + Joined(parts), sep + part);
    Regroup(open, Joined(parts), sep + part);
    Regroup(Joined(parts), sep, part);
  }

  lemma EntriesGrow(before: string, es: seq<Entry>, i: nat, after: string)
    requires i < |es|
    requires after == before + ("{" + Joined(PrintedEntries(es[..i]))) + ((if i == 0 then "" else ",") + PrintedEntry(es[i]))
    ensures after == before + ("{" + Joined(PrintedEntries(es[..i + 1])))
  {
    JoinedGrows(before, "{", PrintedEntries(es[..i]), PrintedEntry(es[i]), after);
    assert PrintedEntries(es[..i + 1]) == PrintedEntries(es[..i]) + [PrintedEntry(es[i])];
  }

  lemma RegroupEntry(before: string, sep: string, key: string, value: string)
    ensures before + sep + key + ":" + value == before + (sep + (key + ":" + value))
  {
    Regroup(before + sep + key, ":", value);
    Regroup(before + sep, key, ":" + value);
    Regroup(key, ":", value);
    Regroup(before, sep, key + ":" + value);
  }

  method PutEntry(it: Entry, first: bool, out: OutStream)
    modifies out
    ensures out.text == old(out.text) + ((if first then "" else ",") + PrintedEntry(it))
    decreases it, 2
  {
    ghost var before := out.text;
    ghost var sep := if first then "" else ",";
    if !first {
      out.Put(",");
    }
    JsonEscapeString(it.key, out);
    out.Put(":");
    YamlToJson(it.value, out);
    RegroupEntry(before, sep, Quoted(it.key), Printed(it.value));
  }

  method YamlMapToJson(node: Yaml, out: OutStream)
    requires node.YMap?
    modifies out
    ensures out.text == old(out.text) + Printed(node)
    decreases node, 0
  {
    ghost var before := out.text;
    out.Put("{");
    var first := true;
    for i := 0 to |node.entries|
      invariant first == (i == 0)
      invariant out.text == before + ("{" + Joined(PrintedEntries(node.entries[..i])))
    {
      var it := node.entries[i];
      PutEntry(it, first, out);
      first := false;
      EntriesGrow(before, node.entries, i, out.text);
    }
    assert node.entries[..|node.entries|] == node.entries;
    out.Put("}");
    PrintedMap(node);
    Regroup(before, "{" + Joined(PrintedEntries(node.entries)), "}");
  }

  lemma PrintedMap(y: Yaml)
    requires y.YMap?
    ensures Printed(y) == "{" + Joined(PrintedEntries(y.entries)) + "}"
  {
    var es := y.entries;
    assert PrintedEntries(es) == seq(|es|, i requires 0 <= i < |es| => Quoted(es[i].key) + ":" + Printed(es[i].value));
  }

  lemma PrintedSeq(y: Yaml)
    requires y.YSeq?
    ensures Printed(y) == "[" + Joined(PrintedItems(y.items)) + "]"
  {
    assert PrintedItems(y.items) == seq(|y.items|, i requires 0 <= i < |y.items| => Printed(y.items[i]));
  }

  method PutItem(item: Yaml, first: bool, out: OutStream)
    modifies out
    ensures out.text == old(out.text) + ((if first then "" else ",") + Printed(item))
    decreases item, 2
  {
    ghost var before := out.text;
    if !first {
      out.Put(",");
    }
    YamlToJson(item, out);
    Regroup(before, if first then "" else ",", Printed(item));
  }

  method YamlSeqToJson(node: Yaml, out: OutStream)
    requires node.YSeq?
    modifies out
    ensures out.text == old(out.text) + Printed(node)
    decreases node, 0
  {
    ghost var before := out.text;
    out.Put("[");
    for i := 0 to |node.items|
      invariant out.text == before + ("[" + Joined(PrintedItems(node.items[..i])))
    {
      PutItem(node.items[i], i == 0, out);
      JoinedGrows(before, "[", PrintedItems(node.items[..i]), Printed(node.items[i]), out.text);
      assert PrintedItems(node.items[..i + 1]) == PrintedItems(node.items[..i]) + [Printed(node.items[i])];
    }
    assert node.items[..|node.items|] == node.items;
    out.Put("]");
    PrintedSeq(node);
    Regroup(before, "[" + Joined(PrintedItems(node.items)), "]");
  }

  method YamlScalarToJson(node: Yaml, out: OutStream)
    requires node.YScalar?
    modifies out
    ensures out.text == old(out.text) + Printed(node)
    ensures node.text in {"true", "True", "TRUE", "yes", "Yes", "YES", "on", "On", "ON"} ==>
              out.text == old(out.text) + "true"
    ensures node.text in {"false", "False", "FALSE", "no", "No", "NO", "off", "Off", "OFF"} ==>
              out.text == old(out.text) + "false"
    ensures node.text !in {"true", "True", "TRUE", "yes", "Yes", "YES", "on", "On", "ON"}
            && node.text !in {"false", "False", "FALSE", "no", "No", "NO", "off", "Off", "OFF"} ==>
              out.text == old(out.text) + Quoted(node.text)
  {
    var val := node.text;
    if val == "true" || val == "True" || val == "TRUE" || val == "yes" || val == "Yes" ||
       val == "YES" || val == "on" || val == "On" || val == "ON" {
      out.Put("true");
      return;
    }
    if val == "false" || val == "False" || val == "FALSE" || val == "no" || val == "No" ||
       val == "NO" || val == "off" || val == "Off" || val == "OFF" {
      out.Put("false");
      return;
    }
    JsonEscapeString(val, out);
  }

  method YamlToJson(node: Yaml, out: OutStream)
    modifies out
    ensures out.text == old(out.text) + Printed(node)
    decreases node, 1
  {
    match node
    case YMap(_) => YamlMapToJson(node, out);
    case YSeq(_) => YamlSeqToJson(node, out);
    case YScalar(_) => YamlScalarToJson(node, out);
    case YNull => out.Put("null");
  }
}

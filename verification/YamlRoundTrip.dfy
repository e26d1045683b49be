/** The printed JSON is the tree: decoding it gives back what the YAML tree means. */
module YamlRoundTrip {
  import opened Options
  import opened JsonText
  import opened YamlToJson

  // ---------------------------------------------------------------- strings

  lemma HexDigitValue(n: nat)
    requires n < 16
    ensures HexValue(HexDigit(n)) == Some(n)
  {
  }

  /** An escaped character decodes to itself and leaves the rest alone. */
  lemma EscapedChar(c: char, rest: string)
    ensures EscapeChar(c) != "" && EscapeChar(c)[0] != '"'
    ensures DecodeChar(EscapeChar(c) + rest) == Some((c, rest))
  {
    var s := EscapeChar(c) + rest;
    if c == '"' || c == '\\' || c == '\n' || c == '\r' || c == '\t' {
      assert s[2..] == rest;
    } else if c as int < 0x20 {
      var n := c as int;
      HexDigitValue(n / 16);
      HexDigitValue(n % 16);
      var u := s[2..];
      assert u[0] == '0' && u[1] == '0' && u[2] == HexDigit(n / 16) && u[3] == HexDigit(n % 16);
      assert u[4..] == rest;
    } else {
      assert s[1..] == rest;
    }
  }

  /** Only what must be escaped is: the quote, the backslash and control characters, with lower-case digits. */
  lemma EscapesSpelledOut(c: char)
    ensures c as int >= 0x20 && c != '"' && c != '\\' <==> EscapeChar(c) == [c]
    ensures c in "\"\\\n\r\t" <==> |EscapeChar(c)| == 2
    ensures |EscapeChar(c)| == 6 ==>
              EscapeChar(c)[..4] == "\\u00" && forall i :: 4 <= i < 6 ==> EscapeChar(c)[i] in "0123456789abcdef"
    ensures |EscapeChar(c)| in {1, 2, 6}
  {
  }

  lemma {:induction false} EscapedString(s: string, rest: string)
    ensures DecodeString(Escape(s) + "\"" + rest) == Some((s, rest))
  {
    if s == "" {
      assert Escape(s) + "\"" + rest == "\"" + rest;
    } else {
      var tail := Escape(s[1..]) + "\"" + rest;
      Regroup(EscapeChar(s[0]), Escape(s[1..]), "\"");
      Regroup(EscapeChar(s[0]), Escape(s[1..]) + "\"", rest);
      EscapedChar(s[0], tail);
      EscapedString(s[1..], rest);
      assert s == [s[0]] + s[1..];
    }
  }

  /** A quoted string decodes to the string. */
  lemma QuotedString(s: string, rest: string)
    ensures (Quoted(s) + rest)[0] == '"'
    ensures DecodeString((Quoted(s) + rest)[1..]) == Some((s, rest))
  {
    assert (Quoted(s) + rest)[1..] == Escape(s) + "\"" + rest;
    EscapedString(s, rest);
  }

  // ---------------------------------------------------------------- values

  /** What is printed for a value starts with no whitespace and no closing bracket. */
  lemma PrintedHead(y: Yaml)
    ensures Printed(y) != "" && Printed(y)[0] in "{[\"tfn"
  {
  }

  function MeaningOfEntries(es: seq<Entry>): seq<Member>
  {
    seq(|es|, i requires 0 <= i < |es| => Member(es[i].key, Meaning(es[i].value)))
  }

  function MeaningOfItems(ys: seq<Yaml>): seq<Json>
  {
    seq(|ys|, i requires 0 <= i < |ys| => Meaning(ys[i]))
  }

  // How the decoder goes through each shape, from how it goes through the parts.

  predicate Solid(s: string)
  {
    s != "" && s[0] !in " \t\n\r"
  }

  lemma MemberShape(s: string, key: string, tail: string, v: Json, rest: string)
    requires s != "" && s[0] == '"' && DecodeString(s[1..]) == Some((key, tail))
    requires tail != "" && tail[0] == ':' && Solid(tail[1..]) && DecodeValue(tail[1..]) == Some((v, rest))
    ensures DecodeMember(s) == Some((Member(key, v), rest))
  {
  }

  lemma LastMember(s: string, m: Member, next: string)
    requires DecodeMember(s) == Some((m, next)) && next != "" && next[0] == '}'
    ensures DecodeMembers(s) == Some(([m], next[1..]))
  {
  }

  lemma MoreMembers(s: string, m: Member, next: string, ms: seq<Member>, rest: string)
    requires DecodeMember(s) == Some((m, next)) && next != "" && next[0] == ','
    requires Solid(next[1..]) && DecodeMembers(next[1..]) == Some((ms, rest))
    ensures DecodeMembers(s) == Some(([m] + ms, rest))
  {
  }

  lemma LastItem(s: string, j: Json, next: string)
    requires DecodeValue(s) == Some((j, next)) && next != "" && next[0] == ']'
    ensures DecodeItems(s) == Some(([j], next[1..]))
  {
  }

  lemma MoreItems(s: string, j: Json, next: string, js: seq<Json>, rest: string)
    requires DecodeValue(s) == Some((j, next)) && next != "" && next[0] == ','
    requires Solid(next[1..]) && DecodeItems(next[1..]) == Some((js, rest))
    ensures DecodeItems(s) == Some(([j] + js, rest))
  {
  }

  lemma ObjectShape(s: string, ms: seq<Member>, rest: string)
    requires s != "" && s[0] == '{' && Solid(s[1..])
    requires if ms == [] then s[1] == '}' && s[2..] == rest
             else s[1] != '}' && DecodeMembers(s[1..]) == Some((ms, rest))
    ensures DecodeValue(s) == Some((JObject(ms), rest))
  {
    assert s[1..][1..] == s[2..];
  }

  lemma ArrayShape(s: string, js: seq<Json>, rest: string)
    requires s != "" && s[0] == '[' && Solid(s[1..])
    requires if js == [] then s[1] == ']' && s[2..] == rest
             else s[1] != ']' && DecodeItems(s[1..]) == Some((js, rest))
    ensures DecodeValue(s) == Some((JArray(js), rest))
  {
    assert s[1..][1..] == s[2..];
  }

  // ---------------------------------------------------------------- the printed shapes

  lemma PrintedMember(e: Entry, rest: string)
    requires DecodeValue(Printed(e.value) + rest) == Some((Meaning(e.value), rest))
    ensures DecodeMember(PrintedEntry(e) + rest) == Some((Member(e.key, Meaning(e.value)), rest))
  {
    var tail := ":" + (Printed(e.value) + rest);
    QuotedString(e.key, tail);
    PrintedHead(e.value);
    SplitAtColon(Quoted(e.key), Printed(e.value), rest);
    MemberShape(Quoted(e.key) + tail, e.key, tail, Meaning(e.value), rest);
  }

  lemma SplitAtColon(key: string, value: string, rest: string)
    ensures (key + ":" + value) + rest == key + (":" + (value + rest))
    ensures (":" + (value + rest))[1..] == value + rest
  {
  }

  lemma JoinedSplit(parts: seq<string>, close: string, rest: string)
    requires |parts| > 1
    ensures Joined(parts) + close + rest == parts[0] + ("," + (Joined(parts[1..]) + close + rest))
  {
    var first, others := parts[0], Joined(parts[1..]);
    Regroup(first + ",", others, close);
    Regroup(first + ",", others + close, rest);
    Regroup(first, ",", others + close + rest);
  }

  lemma JoinedHead(parts: seq<string>, close: string, rest: string)
    requires parts != [] && parts[0] != ""
    ensures (Joined(parts) + close + rest) != "" && (Joined(parts) + close + rest)[0] == parts[0][0]
  {
  }

  function Body(parts: seq<string>, close: string, rest: string): string
  {
    Joined(parts) + close + rest
  }

  lemma EntriesHead(es: seq<Entry>, rest: string)
    requires es != []
    ensures var b := Body(PrintedEntries(es), "}", rest); b != "" && b[0] == '"'
  {
    JoinedHead(PrintedEntries(es), "}", rest);
  }

  lemma ItemsHead(ys: seq<Yaml>, rest: string)
    requires ys != []
    ensures var b := Body(PrintedItems(ys), "]", rest); Solid(b) && b[0] != ']'
  {
    PrintedHead(ys[0]);
    JoinedHead(PrintedItems(ys), "]", rest);
  }

  /** The text of two entries or more is the first, a comma, and the text of the others. */
  lemma EntriesSplit(es: seq<Entry>, rest: string)
    requires |es| > 1
    ensures Body(PrintedEntries(es), "}", rest)
            == PrintedEntry(es[0]) + ("," + Body(PrintedEntries(es[1..]), "}", rest))
  {
    assert PrintedEntries(es)[1..] == PrintedEntries(es[1..]);
    JoinedSplit(PrintedEntries(es), "}", rest);
  }

  lemma ItemsSplit(ys: seq<Yaml>, rest: string)
    requires |ys| > 1
    ensures Body(PrintedItems(ys), "]", rest) == Printed(ys[0]) + ("," + Body(PrintedItems(ys[1..]), "]", rest))
  {
    assert PrintedItems(ys)[1..] == PrintedItems(ys[1..]);
    JoinedSplit(PrintedItems(ys), "]", rest);
  }

  lemma MapText(es: seq<Entry>, rest: string)
    ensures Printed(YMap(es)) + rest == "{" + Body(PrintedEntries(es), "}", rest)
    ensures es == [] ==> Body(PrintedEntries(es), "}", rest) == "}" + rest
  {
    PrintedMap(YMap(es));
  }

  lemma SeqText(ys: seq<Yaml>, rest: string)
    ensures Printed(YSeq(ys)) + rest == "[" + Body(PrintedItems(ys), "]", rest)
    ensures ys == [] ==> Body(PrintedItems(ys), "]", rest) == "]" + rest
  {
    PrintedSeq(YSeq(ys));
  }

  lemma OneEntry(e: Entry, rest: string)
    requires DecodeValue(Printed(e.value) + ("}" + rest)) == Some((Meaning(e.value), "}" + rest))
    ensures DecodeMembers(PrintedEntry(e) + ("}" + rest)) == Some(([Member(e.key, Meaning(e.value))], rest))
  {
    PrintedMember(e, "}" + rest);
    LastMember(PrintedEntry(e) + ("}" + rest), Member(e.key, Meaning(e.value)), "}" + rest);
    assert ("}" + rest)[1..] == rest;
  }

  lemma OneMoreEntry(e: Entry, tail: string, ms: seq<Member>, rest: string)
    requires DecodeValue(Printed(e.value) + ("," + tail)) == Some((Meaning(e.value), "," + tail))
    requires Solid(tail) && DecodeMembers(tail) == Some((ms, rest))
    ensures DecodeMembers(PrintedEntry(e) + ("," + tail)) == Some(([Member(e.key, Meaning(e.value))] + ms, rest))
  {
    PrintedMember(e, "," + tail);
    assert ("," + tail)[1..] == tail;
    MoreMembers(PrintedEntry(e) + ("," + tail), Member(e.key, Meaning(e.value)), "," + tail, ms, rest);
  }

  lemma OneItem(y: Yaml, rest: string)
    requires DecodeValue(Printed(y) + ("]" + rest)) == Some((Meaning(y), "]" + rest))
    ensures DecodeItems(Printed(y) + ("]" + rest)) == Some(([Meaning(y)], rest))
  {
    LastItem(Printed(y) + ("]" + rest), Meaning(y), "]" + rest);
    assert ("]" + rest)[1..] == rest;
  }

  lemma OneMoreItem(y: Yaml, tail: string, js: seq<Json>, rest: string)
    requires DecodeValue(Printed(y) + ("," + tail)) == Some((Meaning(y), "," + tail))
    requires Solid(tail) && DecodeItems(tail) == Some((js, rest))
    ensures DecodeItems(Printed(y) + ("," + tail)) == Some(([Meaning(y)] + js, rest))
  {
    assert ("," + tail)[1..] == tail;
    MoreItems(Printed(y) + ("," + tail), Meaning(y), "," + tail, js, rest);
  }

  lemma MeaningOfEntriesCons(es: seq<Entry>)
    requires es != []
    ensures MeaningOfEntries(es) == [Member(es[0].key, Meaning(es[0].value))] + MeaningOfEntries(es[1..])
    ensures |es| == 1 ==> MeaningOfEntries(es) == [Member(es[0].key, Meaning(es[0].value))]
  {
  }

  lemma MeaningOfItemsCons(ys: seq<Yaml>)
    requires ys != []
    ensures MeaningOfItems(ys) == [Meaning(ys[0])] + MeaningOfItems(ys[1..])
    ensures |ys| == 1 ==> MeaningOfItems(ys) == [Meaning(ys[0])]
  {
  }

  lemma {:induction false} DecodesMembers(es: seq<Entry>, rest: string)
    requires es != []
    ensures DecodeMembers(Body(PrintedEntries(es), "}", rest)) == Some((MeaningOfEntries(es), rest))
    decreases es, 2
  {
    MeaningOfEntriesCons(es);
    if |es| == 1 {
      Decodes(es[0].value, "}" + rest);
      OneEntry(es[0], rest);
      assert Body(PrintedEntries(es), "}", rest) == PrintedEntry(es[0]) + ("}" + rest);
    } else {
      var tail := Body(PrintedEntries(es[1..]), "}", rest);
      EntriesSplit(es, rest);
      EntriesHead(es[1..], rest);
      Decodes(es[0].value, "," + tail);
      DecodesMembers(es[1..], rest);
      OneMoreEntry(es[0], tail, MeaningOfEntries(es[1..]), rest);
    }
  }

  lemma {:induction false} DecodesItems(ys: seq<Yaml>, rest: string)
    requires ys != []
    ensures DecodeItems(Body(PrintedItems(ys), "]", rest)) == Some((MeaningOfItems(ys), rest))
    decreases ys, 2
  {
    MeaningOfItemsCons(ys);
    if |ys| == 1 {
      Decodes(ys[0], "]" + rest);
      OneItem(ys[0], rest);
      assert Body(PrintedItems(ys), "]", rest) == Printed(ys[0]) + ("]" + rest);
    } else {
      var tail := Body(PrintedItems(ys[1..]), "]", rest);
      ItemsSplit(ys, rest);
      ItemsHead(ys[1..], rest);
      Decodes(ys[0], "," + tail);
      DecodesItems(ys[1..], rest);
      OneMoreItem(ys[0], tail, MeaningOfItems(ys[1..]), rest);
    }
  }

  lemma {:induction false} DecodesMap(es: seq<Entry>, rest: string)
    ensures DecodeValue(Printed(YMap(es)) + rest) == Some((JObject(MeaningOfEntries(es)), rest))
    decreases es, 3
  {
    var body := Body(PrintedEntries(es), "}", rest);
    MapText(es, rest);
    if es != [] {
      EntriesHead(es, rest);
      DecodesMembers(es, rest);
    }
    assert ("{" + body)[1..] == body && body[1..] == ("{" + body)[2..];
    assert es == [] ==> body[1..] == rest;
    ObjectShape("{" + body, MeaningOfEntries(es), rest);
  }

  lemma {:induction false} DecodesSeq(ys: seq<Yaml>, rest: string)
    ensures DecodeValue(Printed(YSeq(ys)) + rest) == Some((JArray(MeaningOfItems(ys)), rest))
    decreases ys, 3
  {
    var body := Body(PrintedItems(ys), "]", rest);
    SeqText(ys, rest);
    if ys != [] {
      ItemsHead(ys, rest);
      DecodesItems(ys, rest);
    }
    assert ("[" + body)[1..] == body && body[1..] == ("[" + body)[2..];
    assert ys == [] ==> body[1..] == rest;
    ArrayShape("[" + body, MeaningOfItems(ys), rest);
  }

  lemma MeaningOfMap(es: seq<Entry>)
    ensures Meaning(YMap(es)) == JObject(MeaningOfEntries(es))
  {
    var y := YMap(es);
    assert Meaning(y) == JObject(seq(|es|, i requires 0 <= i < |es| => Member(es[i].key, Meaning(es[i].value))));
  }

  lemma MeaningOfSeq(ys: seq<Yaml>)
    ensures Meaning(YSeq(ys)) == JArray(MeaningOfItems(ys))
  {
    var y := YSeq(ys);
    assert Meaning(y) == JArray(seq(|ys|, i requires 0 <= i < |ys| => Meaning(ys[i])));
  }

  /**
   For every tree and every following text, decoding the printed tree gives exactly what the
   tree means and leaves the following text untouched.
   */
  lemma {:induction false} Decodes(y: Yaml, rest: string)
    ensures DecodeValue(Printed(y) + rest) == Some((Meaning(y), rest))
    decreases y, 4
  {
    match y
    case YNull => DecodesNull(rest);
    case YScalar(s) => DecodesScalar(s, rest);
    case YMap(es) =>
      MeaningOfMap(es);
      DecodesMap(es, rest);
    case YSeq(ys) =>
      MeaningOfSeq(ys);
      DecodesSeq(ys, rest);
  }

  lemma DecodesNull(rest: string)
    ensures DecodeValue(Printed(YNull) + rest) == Some((JNull, rest))
  {
    var text := Printed(YNull) + rest;
    assert text[..4] == "null" && text[4..] == rest;
  }

  lemma DecodesScalar(s: string, rest: string)
    ensures DecodeValue(Printed(YScalar(s)) + rest) == Some((Meaning(YScalar(s)), rest))
  {
    var text := Printed(YScalar(s)) + rest;
    if TrueWord(s) {
      assert text[..4] == "true" && text[4..] == rest;
    } else if FalseWord(s) {
      assert text[..5] == "false" && text[5..] == rest;
    } else {
      QuotedString(s, rest);
    }
  }

  /**
   The leaves, spelled out: what a scalar decodes to is true exactly for the three casings of true,
   yes and on, false exactly for those of false, no and off, and otherwise the string itself.
   */
  lemma ScalarsSpelledOut(s: string, rest: string)
    ensures DecodeValue(Printed(YScalar(s)) + rest) == Some((JBool(true), rest))
            <==> s in {"true", "True", "TRUE", "yes", "Yes", "YES", "on", "On", "ON"}
    ensures DecodeValue(Printed(YScalar(s)) + rest) == Some((JBool(false), rest))
            <==> s in {"false", "False", "FALSE", "no", "No", "NO", "off", "Off", "OFF"}
    ensures DecodeValue(Printed(YScalar(s)) + rest) == Some((JString(s), rest))
            <==> s !in {"true", "True", "TRUE", "yes", "Yes", "YES", "on", "On", "ON",
                        "false", "False", "FALSE", "no", "No", "NO", "off", "Off", "OFF"}
    ensures DecodeValue(Printed(YNull) + rest) == Some((JNull, rest))
  {
    DecodesNull(rest);
    DecodesScalar(s, rest);
  }

  /** The printed text of a tree is a whole JSON text for it. */
  lemma PrintedIsText(y: Yaml)
    ensures DecodeText(Printed(y)) == Some(Meaning(y))
  {
    Decodes(y, "");
    assert Printed(y) + "" == Printed(y);
    PrintedHead(y);
  }

  /** Trees that mean the same are printed the same. */
  lemma {:induction false} SameMeaningPrintsSame(a: Yaml, b: Yaml)
    requires Meaning(a) == Meaning(b)
    ensures Printed(a) == Printed(b)
    decreases a
  {
    match a
    case YMap(es) =>
      assert Meaning(a).members == MeaningOfEntries(es);
      assert Meaning(b).members == MeaningOfEntries(b.entries);
      forall i | 0 <= i < |es|
        ensures PrintedEntry(es[i]) == PrintedEntry(b.entries[i])
      {
        assert MeaningOfEntries(es)[i] == MeaningOfEntries(b.entries)[i];
        SameMeaningPrintsSame(es[i].value, b.entries[i].value);
      }
      assert |MeaningOfEntries(es)| == |es| && |MeaningOfEntries(b.entries)| == |b.entries|;
      assert PrintedEntries(es) == PrintedEntries(b.entries);
      PrintedMap(a);
      PrintedMap(b);
    case YSeq(ys) =>
      assert Meaning(a).items == MeaningOfItems(ys);
      assert Meaning(b).items == MeaningOfItems(b.items);
      forall i | 0 <= i < |ys|
        ensures Printed(ys[i]) == Printed(b.items[i])
      {
        assert MeaningOfItems(ys)[i] == MeaningOfItems(b.items)[i];
        SameMeaningPrintsSame(ys[i], b.items[i]);
      }
      assert |MeaningOfItems(ys)| == |ys| && |MeaningOfItems(b.items)| == |b.items|;
      assert PrintedItems(ys) == PrintedItems(b.items);
      PrintedSeq(a);
      PrintedSeq(b);
    case YScalar(_) =>
    case YNull =>
  }

  /** The printer is injective exactly up to meaning. */
  lemma PrintedSameExactly(a: Yaml, b: Yaml)
    ensures Printed(a) == Printed(b) <==> Meaning(a) == Meaning(b)
  {
    if Printed(a) == Printed(b) {
      PrintedIsText(a);
      PrintedIsText(b);
    }
    if Meaning(a) == Meaning(b) {
      SameMeaningPrintsSame(a, b);
    }
  }
}

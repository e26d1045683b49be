/**
 A decoder for JSON texts, sections 2 to 7 of RFC 8259: the value it returns is what a text
 means, and it also returns the text that follows.
 */
module JsonText {
  import opened Options

  datatype Json =
    | JNull
    | JBool(b: bool)
    | JNumber(text: string)
    | JString(text: string)
    | JArray(items: seq<Json>)
    | JObject(members: seq<Member>)

  datatype Member = Member(key: string, value: Json)

  /** Section 2: insignificant whitespace. */
  function SkipWs(s: string): (r: string)
    ensures |r| <= |s|
    ensures r != "" ==> r[0] !in " \t\n\r"
    ensures s != "" && s[0] !in " \t\n\r" ==> r == s
  {
    if s != "" && s[0] in " \t\n\r" then SkipWs(s[1..]) else s
  }

  // ---------------------------------------------------------------- strings (section 7)

  function HexValue(c: char): Option<nat>
  {
    if '0' <= c <= '9' then Some(c as nat - '0' as nat)
    else if 'a' <= c <= 'f' then Some(c as nat - 'a' as nat + 10)
    else if 'A' <= c <= 'F' then Some(c as nat - 'A' as nat + 10)
    else None
  }

  /** Four hexadecimal digits. */
  function Hex4(s: string): (r: Option<nat>)
    ensures r.Some? ==> |s| >= 4 && r.value < 0x10000
  {
    if |s| < 4 then None
    else
      match (HexValue(s[0]), HexValue(s[1]), HexValue(s[2]), HexValue(s[3]))
      case (Some(a), Some(b), Some(c), Some(d)) =>
        assert a < 16 && b < 16 && c < 16 && d < 16;
        Some(4096 * a + 256 * b + 16 * c + d)
      case _ => None
  }

  /** The character of a \\u escape, after the u; characters beyond U+FFFF take a surrogate pair. */
  function DecodeUnicode(s: string): (r: Option<(char, string)>)
    ensures r.Some? ==> |r.value.1| < |s|
  {
    match Hex4(s)
    case None => None
    case Some(hi) =>
      if hi < 0xD800 || 0xE000 <= hi then Some((hi as char, s[4..]))
      else if hi < 0xDC00 && |s| >= 6 && s[4] == '\\' && s[5] == 'u' then
        match Hex4(s[6..]) {
          case None => None
          case Some(lo) =>
            if 0xDC00 <= lo < 0xE000 then
              Some(((0x10000 + 0x400 * (hi - 0xD800) + (lo - 0xDC00)) as char, s[10..]))
            else None
        }
      else None
  }

  function SimpleEscape(c: char): Option<char>
  {
    match c
    case '"' => Some('"')
    case '\\' => Some('\\')
    case '/' => Some('/')
    case 'b' => Some(8 as char)
    case 'f' => Some(12 as char)
    case 'n' => Some('\n')
    case 'r' => Some('\r')
    case 't' => Some('\t')
    case _ => None
  }

  /** One character of a string, escaped or not: control characters must be escaped. */
  function DecodeChar(s: string): (r: Option<(char, string)>)
    requires s != "" && s[0] != '"'
    ensures r.Some? ==> |r.value.1| < |s|
  {
    if s[0] == '\\' then
      if |s| < 2 then None
      else if s[1] == 'u' then DecodeUnicode(s[2..])
      else match SimpleEscape(s[1]) { case None => None case Some(c) => Some((c, s[2..])) }
    else if s[0] as int < 0x20 then None
    else Some((s[0], s[1..]))
  }

  /** The rest of a string after its opening quotation mark. */
  function DecodeString(s: string): (r: Option<(string, string)>)
    ensures r.Some? ==> |r.value.1| < |s|
    decreases |s|
  {
    if s == "" then None
    else if s[0] == '"' then Some(("", s[1..]))
    else
      match DecodeChar(s)
      case None => None
      case Some((c, rest)) =>
        match DecodeString(rest) {
          case None => None
          case Some((cs, after)) => Some(([c] + cs, after))
        }
  }

  // ---------------------------------------------------------------- numbers (section 6)

  function Digits(s: string): (n: nat)
    ensures n <= |s| && forall i :: 0 <= i < n ==> '0' <= s[i] <= '9'
  {
    if s != "" && '0' <= s[0] <= '9' then 1 + Digits(s[1..]) else 0
  }

  function IntLength(s: string): (n: nat)
    ensures n <= |s|
  {
    if s != "" && s[0] == '0' then 1 else Digits(s)
  }

  function FracLength(s: string): (n: nat)
    ensures n <= |s|
  {
    if s != "" && s[0] == '.' && Digits(s[1..]) > 0 then 1 + Digits(s[1..]) else 0
  }

  function ExpLength(s: string): (n: nat)
    ensures n <= |s|
  {
    if s == "" || s[0] !in "eE" then 0
    else
      var sign := if |s| > 1 && s[1] in "+-" then 2 else 1;
      if Digits(s[sign..]) > 0 then sign + Digits(s[sign..]) else 0
  }

  function DecodeNumber(s: string): (r: Option<(Json, string)>)
    ensures r.Some? ==> |r.value.1| < |s|
  {
    var minus := if s != "" && s[0] == '-' then 1 else 0;
    var whole := IntLength(s[minus..]);
    if whole == 0 then None
    else
      var frac := FracLength(s[minus + whole..]);
      var exp := ExpLength(s[minus + whole + frac..]);
      var n := minus + whole + frac + exp;
      Some((JNumber(s[..n]), s[n..]))
  }

  // ---------------------------------------------------------------- values (sections 3 to 5)

  predicate StartsWith(s: string, word: string)
  {
    |word| <= |s| && s[..|word|] == word
  }

  function DecodeValue(s: string): (r: Option<(Json, string)>)
    ensures r.Some? ==> |r.value.1| < |s|
    decreases |s|, 1
  {
    if s == "" then None
    else if s[0] == '{' then
      var body := SkipWs(s[1..]);
      if body != "" && body[0] == '}' then Some((JObject([]), body[1..]))
      else
        match DecodeMembers(body) {
          case None => None
          case Some((ms, rest)) => Some((JObject(ms), rest))
        }
    else if s[0] == '[' then
      var body := SkipWs(s[1..]);
      if body != "" && body[0] == ']' then Some((JArray([]), body[1..]))
      else
        match DecodeItems(body) {
          case None => None
          case Some((js, rest)) => Some((JArray(js), rest))
        }
    else if s[0] == '"' then
      match DecodeString(s[1..]) {
        case None => None
        case Some((text, rest)) => Some((JString(text), rest))
      }
    else if StartsWith(s, "true") then Some((JBool(true), s[4..]))
    else if StartsWith(s, "false") then Some((JBool(false), s[5..]))
    else if StartsWith(s, "null") then Some((JNull, s[4..]))
    else DecodeNumber(s)
  }

  /** The members of an object up to and including its closing brace. */
  function DecodeMembers(s: string): (r: Option<(seq<Member>, string)>)
    ensures r.Some? ==> |r.value.1| < |s|
    decreases |s|, 2
  {
    match DecodeMember(s)
    case None => None
    case Some((m, rest)) =>
      var next := SkipWs(rest);
      if next != "" && next[0] == '}' then Some(([m], next[1..]))
      else if next != "" && next[0] == ',' then
        match DecodeMembers(SkipWs(next[1..])) {
          case None => None
          case Some((ms, after)) => Some(([m] + ms, after))
        }
      else None
  }

  function DecodeMember(s: string): (r: Option<(Member, string)>)
    ensures r.Some? ==> |r.value.1| < |s|
    decreases |s|, 1
  {
    if s == "" || s[0] != '"' then None
    else
      match DecodeString(s[1..])
      case None => None
      case Some((key, rest)) =>
        var colon := SkipWs(rest);
        if colon == "" || colon[0] != ':' then None
        else
          match DecodeValue(SkipWs(colon[1..])) {
            case None => None
            case Some((v, after)) => Some((Member(key, v), after))
          }
  }

  /** The elements of an array up to and including its closing bracket. */
  function DecodeItems(s: string): (r: Option<(seq<Json>, string)>)
    ensures r.Some? ==> |r.value.1| < |s|
    decreases |s|, 2
  {
    match DecodeValue(s)
    case None => None
    case Some((j, rest)) =>
      var next := SkipWs(rest);
      if next != "" && next[0] == ']' then Some(([j], next[1..]))
      else if next != "" && next[0] == ',' then
        match DecodeItems(SkipWs(next[1..])) {
          case None => None
          case Some((js, after)) => Some(([j] + js, after))
        }
      else None
  }

  /** A whole JSON text: one value, with nothing but whitespace around it. */
  function DecodeText(s: string): Option<Json>
  {
    match DecodeValue(SkipWs(s))
    case None => None
    case Some((j, rest)) => if SkipWs(rest) == "" then Some(j) else None
  }
}

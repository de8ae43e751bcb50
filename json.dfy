/** The part of JSON (RFC 8259) the bulk request body is made of: strings,
    arrays of strings, and objects whose member values are strings. The
    encoder writes no whitespace; it escapes `"` and `\` with a backslash,
    newline, carriage return and tab as \n, \r, \t, the other control
    characters as \u00XX with lower-case hex digits, and writes every other
    character as itself. Where this differs from Go's encoding/json is listed
    in the project's README, under "Left out". The decoder
    follows the grammar of RFC 8259, sections 2, 4, 5 and 7, for these values,
    whitespace between tokens included. */
module Json {
  import opened Models

  // ---------------------------------------------------------------------------
  // Encoding

  function HexDigit(n: nat): char
    requires n < 16
  {
    if n < 10 then ('0' as int + n) as char else ('a' as int + n - 10) as char
  }

  /** How one character is written inside a JSON string. */
  function EscapeChar(c: char): string
  {
    if c == '"' then "\\\""
    else if c == '\\' then "\\\\"
    else if c == '\n' then "\\n"
    else if c == '\r' then "\\r"
    else if c == '\t' then "\\t"
    else if c < ' ' then "\\u00" + [HexDigit(c as int / 16), HexDigit(c as int % 16)]
    else [c]
  }

  function Escape(s: string): string
  {
    if s == [] then "" else EscapeChar(s[0]) + Escape(s[1..])
  }

  /** The JSON string value holding `s`. */
  function Quote(s: string): string
  {
    "\"" + Escape(s) + "\""
  }

  function Elements(xs: seq<string>): string
  {
    if xs == [] then ""
    else if |xs| == 1 then Quote(xs[0])
    else Quote(xs[0]) + "," + Elements(xs[1..])
  }

  /** The JSON array of the strings `xs`. */
  function ArrayText(xs: seq<string>): string
  {
    "[" + Elements(xs) + "]"
  }

  function MemberText(m: (string, string)): string
  {
    Quote(m.0) + ":" + Quote(m.1)
  }

  function Members(ms: seq<(string, string)>): string
  {
    if ms == [] then ""
    else if |ms| == 1 then MemberText(ms[0])
    else MemberText(ms[0]) + "," + Members(ms[1..])
  }

  /** The JSON object with the string-valued members `ms`, in the given order. */
  function ObjectText(ms: seq<(string, string)>): string
  {
    "{" + Members(ms) + "}"
  }

  // ---------------------------------------------------------------------------
  // Decoding. Each parser takes the remaining text and returns what it read
  // together with the text after it.

  predicate IsSpace(c: char)
  {
    c == ' ' || c == '\t' || c == '\n' || c == '\r'
  }

  function SkipSpace(s: string): (r: string)
    ensures |r| <= |s|
  {
    if s != [] && IsSpace(s[0]) then SkipSpace(s[1..]) else s
  }

  function HexValue(c: char): (r: Option<nat>)
    ensures r.Some? ==> r.value < 16
  {
    if '0' <= c <= '9' then Some(c as int - '0' as int)
    else if 'a' <= c <= 'f' then Some(c as int - 'a' as int + 10)
    else if 'A' <= c <= 'F' then Some(c as int - 'A' as int + 10)
    else None
  }

  /** Reads the escape sequence after a backslash. A \u escape naming half of
      a surrogate pair is refused. */
  function ParseEscape(s: string): (r: Option<(char, string)>)
    ensures r.Some? ==> |r.value.1| < |s|
  {
    if s == [] then None
    else if s[0] == '"' then Some(('"', s[1..]))
    else if s[0] == '\\' then Some(('\\', s[1..]))
    else if s[0] == '/' then Some(('/', s[1..]))
    else if s[0] == 'b' then Some((8 as char, s[1..]))
    else if s[0] == 'f' then Some((12 as char, s[1..]))
    else if s[0] == 'n' then Some(('\n', s[1..]))
    else if s[0] == 'r' then Some(('\r', s[1..]))
    else if s[0] == 't' then Some(('\t', s[1..]))
    else if s[0] == 'u' && |s| >= 5 then
      match (HexValue(s[1]), HexValue(s[2]), HexValue(s[3]), HexValue(s[4]))
      case (Some(a), Some(b), Some(c), Some(d)) =>
        var v := ((a * 16 + b) * 16 + c) * 16 + d;
        if 0xD800 <= v < 0xE000 then None else Some((v as char, s[5..]))
      case _ => None
    else None
  }

  function Prepend(c: char, r: Option<(string, string)>): Option<(string, string)>
  {
    match r
    case None => None
    case Some((t, rest)) => Some(([c] + t, rest))
  }

  /** Reads the characters of a string up to and including its closing quote. */
  function ParseChars(s: string): (r: Option<(string, string)>)
    ensures r.Some? ==> |r.value.1| < |s|
    decreases |s|
  {
    if s == [] then None
    else if s[0] == '"' then Some(("", s[1..]))
    else if s[0] == '\\' then
      match ParseEscape(s[1..])
      case None => None
      case Some((c, rest)) => Prepend(c, ParseChars(rest))
    else if s[0] < ' ' then None
    else Prepend(s[0], ParseChars(s[1..]))
  }

  /** Reads one string value. */
  function ParseString(s: string): (r: Option<(string, string)>)
    ensures r.Some? ==> |r.value.1| < |s|
  {
    var t := SkipSpace(s);
    if t == [] || t[0] != '"' then None else ParseChars(t[1..])
  }

  /** Reads the elements of a non-empty array of strings and its closing bracket. */
  function ParseElements(s: string): (r: Option<(seq<string>, string)>)
    ensures r.Some? ==> |r.value.1| < |s|
    decreases |s|
  {
    match ParseString(s)
    case None => None
    case Some((x, rest)) =>
      var t := SkipSpace(rest);
      if t == [] then None
      else if t[0] == ']' then Some(([x], t[1..]))
      else if t[0] == ',' then
        match ParseElements(t[1..])
        case None => None
        case Some((xs, rest')) => Some(([x] + xs, rest'))
      else None
  }

  /** Reads an array of strings. */
  function ParseArray(s: string): Option<(seq<string>, string)>
  {
    var t := SkipSpace(s);
    if t == [] || t[0] != '[' then None
    else
      var u := SkipSpace(t[1..]);
      if u != [] && u[0] == ']' then Some(([], u[1..])) else ParseElements(u)
  }

  /** Decodes a whole text that is an array of strings. */
  function DecodeStringArray(text: string): Option<seq<string>>
  {
    match ParseArray(text)
    case None => None
    case Some((xs, rest)) => if SkipSpace(rest) == [] then Some(xs) else None
  }

  /** Reads one member `"key": "value"`. */
  function ParseMember(s: string): (r: Option<((string, string), string)>)
    ensures r.Some? ==> |r.value.1| < |s|
  {
    match ParseString(s)
    case None => None
    case Some((k, rest)) =>
      var t := SkipSpace(rest);
      if t == [] || t[0] != ':' then None
      else
        match ParseString(t[1..])
        case None => None
        case Some((v, rest')) => Some(((k, v), rest'))
  }

  /** Reads the members of a non-empty object and its closing brace. */
  function ParseMembers(s: string): (r: Option<(seq<(string, string)>, string)>)
    ensures r.Some? ==> |r.value.1| < |s|
    decreases |s|
  {
    match ParseMember(s)
    case None => None
    case Some((m, rest)) =>
      var t := SkipSpace(rest);
      if t == [] then None
      else if t[0] == '}' then Some(([m], t[1..]))
      else if t[0] == ',' then
        match ParseMembers(t[1..])
        case None => None
        case Some((ms, rest')) => Some(([m] + ms, rest'))
      else None
  }

  /** Reads an object whose members are strings. */
  function ParseObject(s: string): Option<(seq<(string, string)>, string)>
  {
    var t := SkipSpace(s);
    if t == [] || t[0] != '{' then None
    else
      var u := SkipSpace(t[1..]);
      if u != [] && u[0] == '}' then Some(([], u[1..])) else ParseMembers(u)
  }

  /** Decodes a whole text that is an object with string members. */
  function DecodeStringObject(text: string): Option<seq<(string, string)>>
  {
    match ParseObject(text)
    case None => None
    case Some((ms, rest)) => if SkipSpace(rest) == [] then Some(ms) else None
  }

  // ---------------------------------------------------------------------------
  // Round trips

  lemma HexRoundTrip(n: nat)
    requires n < 16
    ensures HexValue(HexDigit(n)) == Some(n)
  {
  }

  /** Skipping whitespace stops at the first token character. */
  lemma SkipSpaceAtToken(s: string)
    requires s != [] && !IsSpace(s[0])
    ensures SkipSpace(s) == s
  {
  }

  /** A backslash followed by an escape that reads back as `c`. */
  lemma BackslashStep(c: char, escape: string, tail: string)
    requires ParseEscape(escape + tail) == Some((c, tail))
    ensures ParseChars("\\" + escape + tail) == Prepend(c, ParseChars(tail))
  {
    var e := "\\" + escape + tail;
    assert e[0] == '\\' && e[1..] == escape + tail;
  }

  /** The two-character escapes read back as the character they stand for. */
  lemma ShortEscapeRoundTrip(c: char, tail: string)
    requires c == '"' || c == '\\' || c == '\n' || c == '\r' || c == '\t'
    ensures ParseEscape(EscapeChar(c)[1..] + tail) == Some((c, tail))
  {
    var e := EscapeChar(c)[1..] + tail;
    assert |EscapeChar(c)| == 2;
    assert e[0] == EscapeChar(c)[1] && e[1..] == tail;
  }

  /** The \u00XX escape of a control character reads back as that character. */
  lemma ControlEscapeRoundTrip(c: char, tail: string)
    requires c < ' ' && c != '\n' && c != '\r' && c != '\t'
    ensures ParseEscape(EscapeChar(c)[1..] + tail) == Some((c, tail))
  {
    var hi, lo := c as int / 16, c as int % 16;
    HexRoundTrip(hi);
    HexRoundTrip(lo);
    var e := EscapeChar(c)[1..] + tail;
    assert e == "u00" + [HexDigit(hi), HexDigit(lo)] + tail;
    assert e[5..] == tail;
    assert ((0 * 16 + 0) * 16 + hi) * 16 + lo == c as int;
  }

  /** Reading an escaped character gives back the character. */
  lemma EscapeCharRoundTrip(c: char, tail: string)
    ensures ParseChars(EscapeChar(c) + tail) == Prepend(c, ParseChars(tail))
  {
    if c == '"' || c == '\\' || c == '\n' || c == '\r' || c == '\t' {
      ShortEscapeRoundTrip(c, tail);
      assert EscapeChar(c) == "\\" + EscapeChar(c)[1..];
      BackslashStep(c, EscapeChar(c)[1..], tail);
    } else if c < ' ' {
      ControlEscapeRoundTrip(c, tail);
      assert EscapeChar(c) == "\\" + EscapeChar(c)[1..];
      BackslashStep(c, EscapeChar(c)[1..], tail);
    } else {
      var e := EscapeChar(c) + tail;
      assert e[0] == c && e[1..] == tail;
    }
  }

  /** Reading the escaped text of `s` up to its closing quote gives back `s`. */
  lemma {:induction false} EscapeRoundTrip(s: string, rest: string)
    ensures ParseChars(Escape(s) + "\"" + rest) == Some((s, rest))
    decreases |s|
  {
    if s == [] {
      assert Escape(s) + "\"" + rest == "\"" + rest;
    } else {
      assert Escape(s) + "\"" + rest == EscapeChar(s[0]) + (Escape(s[1..]) + "\"" + rest);
      EscapeCharRoundTrip(s[0], Escape(s[1..]) + "\"" + rest);
      EscapeRoundTrip(s[1..], rest);
      assert [s[0]] + s[1..] == s;
    }
  }

  /** Reading a quoted string gives back the string and the text after it. */
  lemma QuoteRoundTrip(s: string, rest: string)
    ensures ParseString(Quote(s) + rest) == Some((s, rest))
  {
    var t := Quote(s) + rest;
    SkipSpaceAtToken(t);
    assert t[1..] == Escape(s) + "\"" + rest;
    EscapeRoundTrip(s, rest);
  }

  /** Reading one element followed by the closing bracket. */
  lemma LastElementRoundTrip(x: string, rest: string)
    ensures ParseElements(Quote(x) + "]" + rest) == Some(([x], rest))
  {
    var after := "]" + rest;
    assert Quote(x) + "]" + rest == Quote(x) + after;
    QuoteRoundTrip(x, after);
    SkipSpaceAtToken(after);
    assert after[1..] == rest;
  }

  /** Reading one element followed by a comma and further elements. */
  lemma NextElementStep(x: string, more: string)
    requires more != [] && more[0] == ','
    ensures ParseElements(Quote(x) + more)
         == match ParseElements(more[1..])
            case None => None
            case Some((xs, rest')) => Some(([x] + xs, rest'))
  {
    QuoteRoundTrip(x, more);
    SkipSpaceAtToken(more);
  }

  /** Reading the elements of a non-empty array gives them back, in order. */
  lemma {:induction false} ElementsRoundTrip(xs: seq<string>, rest: string)
    requires xs != []
    ensures ParseElements(Elements(xs) + "]" + rest) == Some((xs, rest))
    decreases |xs|
  {
    if |xs| == 1 {
      LastElementRoundTrip(xs[0], rest);
      assert [xs[0]] == xs;
    } else {
      var tail := Elements(xs[1..]) + "]" + rest;
      var more := "," + tail;
      assert Elements(xs) + "]" + rest == Quote(xs[0]) + more;
      NextElementStep(xs[0], more);
      assert more[1..] == tail;
      ElementsRoundTrip(xs[1..], rest);
      assert [xs[0]] + xs[1..] == xs;
    }
  }

  /** An array of strings decodes to the strings it was made of. */
  lemma ArrayRoundTrip(xs: seq<string>)
    ensures DecodeStringArray(ArrayText(xs)) == Some(xs)
  {
    var t := ArrayText(xs);
    SkipSpaceAtToken(t);
    var u := Elements(xs) + "]";
    assert t[1..] == u;
    if xs == [] {
      assert u == "]";
      SkipSpaceAtToken(u);
    } else {
      assert Quote(xs[0])[0] == '"';
      assert u[0] == '"';
      SkipSpaceAtToken(u);
      ElementsRoundTrip(xs, "");
      assert u + "" == u;
    }
  }

  lemma MemberRoundTrip(m: (string, string), rest: string)
    ensures ParseMember(MemberText(m) + rest) == Some((m, rest))
  {
    var after := ":" + (Quote(m.1) + rest);
    assert MemberText(m) + rest == Quote(m.0) + after;
    QuoteRoundTrip(m.0, after);
    SkipSpaceAtToken(after);
    assert after[1..] == Quote(m.1) + rest;
    QuoteRoundTrip(m.1, rest);
  }

  /** Reading one member followed by the closing brace. */
  lemma LastMemberRoundTrip(m: (string, string), rest: string)
    ensures ParseMembers(MemberText(m) + "}" + rest) == Some(([m], rest))
  {
    var after := "}" + rest;
    assert MemberText(m) + "}" + rest == MemberText(m) + after;
    MemberRoundTrip(m, after);
    SkipSpaceAtToken(after);
    assert after[1..] == rest;
  }

  /** Reading one member followed by a comma and further members. */
  lemma NextMemberStep(m: (string, string), more: string)
    requires more != [] && more[0] == ','
    ensures ParseMembers(MemberText(m) + more)
         == match ParseMembers(more[1..])
            case None => None
            case Some((ms, rest')) => Some(([m] + ms, rest'))
  {
    MemberRoundTrip(m, more);
    SkipSpaceAtToken(more);
  }

  /** Reading the members of a non-empty object gives them back, in order. */
  lemma {:induction false} MembersRoundTrip(ms: seq<(string, string)>, rest: string)
    requires ms != []
    ensures ParseMembers(Members(ms) + "}" + rest) == Some((ms, rest))
    decreases |ms|
  {
    if |ms| == 1 {
      LastMemberRoundTrip(ms[0], rest);
      assert [ms[0]] == ms;
    } else {
      var tail := Members(ms[1..]) + "}" + rest;
      var more := "," + tail;
      assert Members(ms) + "}" + rest == MemberText(ms[0]) + more;
      NextMemberStep(ms[0], more);
      assert more[1..] == tail;
      MembersRoundTrip(ms[1..], rest);
      assert [ms[0]] + ms[1..] == ms;
    }
  }

  /** An object with string members decodes to those members, in order. */
  lemma ObjectRoundTrip(ms: seq<(string, string)>)
    ensures DecodeStringObject(ObjectText(ms)) == Some(ms)
  {
    var t := ObjectText(ms);
    SkipSpaceAtToken(t);
    var u := Members(ms) + "}";
    assert t[1..] == u;
    if ms == [] {
      assert u == "}";
      SkipSpaceAtToken(u);
    } else {
      assert MemberText(ms[0])[0] == '"';
      assert u[0] == '"';
      SkipSpaceAtToken(u);
      MembersRoundTrip(ms, "");
      assert u + "" == u;
    }
  }
}

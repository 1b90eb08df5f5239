/** The text form of the stored user record: `JSON.stringify` when writing the
    `"userData"` key and `JSON.parse` when reading it back. Only the shape the client
    uses is modelled: an object with string fields `name` and `email`, written as
    `{"name":"…","email":"…"}` with the string escapes `JSON.stringify` writes, plus the
    literal `null`. */
module UserCodec {
  import opened JsText

  /** The user profile the navigation bar reads `name` from. */
  datatype UserProfile = UserProfile(name: string, email: string)

  /** What `JSON.parse` yields from a stored text the decoder accepts. */
  datatype Parsed = NullValue | ProfileValue(profile: UserProfile)

  /** The lower-case hexadecimal digit for `d`. */
  function HexDigit(d: int): (ch: char)
    requires 0 <= d < 16
    ensures HexValue(ch) == Some(d)
  {
    if d < 10 then ('0' as int + d) as char else ('a' as int + d - 10) as char
  }

  /** The value of a hexadecimal digit of either case. */
  function HexValue(ch: char): (r: Option<int>)
    ensures r.Some? ==> 0 <= r.value < 16
  {
    if '0' <= ch <= '9' then Some(ch as int - '0' as int)
    else if 'a' <= ch <= 'f' then Some(ch as int - 'a' as int + 10)
    else if 'A' <= ch <= 'F' then Some(ch as int - 'A' as int + 10)
    else None
  }

  /** How `JSON.stringify` writes one character inside a string: `"` and `\` get a
      backslash, the five control characters with a short escape get it, every other
      control character becomes `\u00` and two lower-case hex digits, and anything
      else is written as it is. */
  function EscapeChar(c: char): (e: string)
    ensures 1 <= |e| <= 6
    ensures e[0] != '"'
    ensures forall i :: 0 <= i < |e| ==> ' ' <= e[i]
    ensures ' ' <= c && c != '"' && c != '\\' <==> e == [c]
  {
    if c == '"' then "\\\""
    else if c == '\\' then "\\\\"
    else if c == '\U{8}' then "\\b"
    else if c == '\U{C}' then "\\f"
    else if c == '\n' then "\\n"
    else if c == '\r' then "\\r"
    else if c == '\t' then "\\t"
    else if c < ' ' then "\\u00" + [HexDigit(c as int / 16), HexDigit(c as int % 16)]
    else [c]
  }

  /** A JSON string body as `JSON.stringify` writes it. */
  function Escape(s: string): (r: string)
    ensures |r| >= |s|
    ensures forall i :: 0 <= i < |r| ==> ' ' <= r[i]
    decreases |s|
  {
    if |s| == 0 then "" else EscapeChar(s[0]) + Escape(s[1..])
  }

  /** Reads one character of a JSON string body as `JSON.parse` does: the decoded
      character and how many characters it took. `None` at the closing quote, at a
      raw control character, and at a malformed escape. A `\u` escape naming half of
      a surrogate pair is not decoded. */
  function DecodeUnit(s: string): (r: Option<(char, nat)>)
    ensures r.Some? ==> 1 <= r.value.1 <= |s|
  {
    if |s| == 0 || s[0] == '"' || s[0] < ' ' then None
    else if s[0] != '\\' then Some((s[0], 1))
    else if |s| < 2 then None
    else match s[1]
      case '"' => Some(('"', 2))
      case '\\' => Some(('\\', 2))
      case '/' => Some(('/', 2))
      case 'b' => Some(('\U{8}', 2))
      case 'f' => Some(('\U{C}', 2))
      case 'n' => Some(('\n', 2))
      case 'r' => Some(('\r', 2))
      case 't' => Some(('\t', 2))
      case 'u' =>
        if |s| < 6 then None
        else (match (HexValue(s[2]), HexValue(s[3]), HexValue(s[4]), HexValue(s[5]))
          case (Some(a), Some(b), Some(c), Some(d)) =>
            var v := 4096 * a + 256 * b + 16 * c + d;
            if 0xD800 <= v <= 0xDFFF then None else Some((v as char, 6))
          case _ => None)
      case _ => None
  }

  /** Reads a JSON string body up to its closing quote, returning the decoded text
      and what follows the quote; `None` when the quote is missing or a character
      cannot be read. */
  function Unescape(s: string): (r: Option<(string, string)>)
    ensures r.Some? ==> |r.value.1| < |s|
    decreases |s|
  {
    if |s| == 0 then None
    else if s[0] == '"' then Some(("", s[1..]))
    else match DecodeUnit(s)
      case None => None
      case Some((c, n)) =>
        match Unescape(s[n..])
        case None => None
        case Some((body, rest)) => Some(([c] + body, rest))
  }

  /** What follows a string body's closing quote is a suffix of the input. */
  lemma {:induction false} UnescapeLeavesSuffix(s: string)
    ensures Unescape(s).Some? ==> s[|s| - |Unescape(s).value.1|..] == Unescape(s).value.1
    decreases |s|
  {
    if |s| > 0 && s[0] != '"' && DecodeUnit(s).Some? {
      var n := DecodeUnit(s).value.1;
      UnescapeLeavesSuffix(s[n..]);
      if Unescape(s[n..]).Some? {
        var rest := Unescape(s[n..]).value.1;
        assert s[n..][|s[n..]| - |rest|..] == s[|s| - |rest|..];
      }
    }
  }

  /** Reading back one written character recovers it. */
  lemma DecodeUnitEscapeChar(c: char, t: string)
    ensures DecodeUnit(EscapeChar(c) + t) == Some((c, |EscapeChar(c)|))
  {
    var e := EscapeChar(c);
    var s := e + t;
    if c < ' ' && c != '\U{8}' && c != '\U{C}' && c != '\n' && c != '\r' && c != '\t' {
      var hi, lo := c as int / 16, c as int % 16;
      assert s[0] == '\\' && s[1] == 'u' && s[2] == '0' && s[3] == '0';
      assert s[4] == HexDigit(hi) && s[5] == HexDigit(lo);
      assert 4096 * 0 + 256 * 0 + 16 * hi + lo == c as int;
    } else {
      assert s[..|e|] == e;
    }
  }

  /** A raw control character inside a string body is a syntax error. */
  lemma RawControlCharRejected(c: char, rest: string)
    requires c < ' '
    ensures Unescape([c] + rest) == None
  {
    assert DecodeUnit([c] + rest) == None;
  }

  /** One step of reading a body: a written character followed by a readable rest
      reads as that character prepended to what the rest reads to. */
  lemma UnescapeStep(e: string, tail: string, c: char, body: string, rest: string)
    requires |e| > 0 && e[0] != '"'
    requires DecodeUnit(e + tail) == Some((c, |e|))
    requires Unescape(tail) == Some((body, rest))
    ensures Unescape(e + tail) == Some(([c] + body, rest))
  {
    assert (e + tail)[|e|..] == tail;
  }

  /** Reading an escaped body back up to its closing quote recovers the text. */
  lemma {:induction false} UnescapeEscape(s: string, rest: string)
    ensures Unescape(Escape(s) + "\"" + rest) == Some((s, rest))
    decreases |s|
  {
    if |s| == 0 {
      assert Escape(s) + "\"" + rest == "\"" + rest;
      assert ("\"" + rest)[1..] == rest;
    } else {
      var e := EscapeChar(s[0]);
      var tail := Escape(s[1..]) + "\"" + rest;
      UnescapeEscape(s[1..], rest);
      DecodeUnitEscapeChar(s[0], tail);
      assert Escape(s) + "\"" + rest == e + tail;
      UnescapeStep(e, tail, s[0], s[1..], rest);
      assert [s[0]] + s[1..] == s;
    }
  }



  const NamePrefix: string := "{\"name\":\""
  const EmailPrefix: string := "\",\"email\":\""
  const Closing: string := "}"

  /** `JSON.stringify(user)`. */
  function Encode(u: UserProfile): (text: string)
    ensures |text| > 0 && text[0] == '{'
  {
    NamePrefix + Escape(u.name) + EmailPrefix + Escape(u.email) + "\"" + Closing
  }

  /** `text` with `prefix` removed, when it starts with `prefix`. */
  function StripPrefix(text: string, prefix: string): (r: Option<string>)
    ensures r.Some? <==> prefix <= text
    ensures r.Some? ==> text == prefix + r.value
  {
    if prefix <= text then Some(text[|prefix|..]) else None
  }

  /** What follows the email's closing quote is where the record text ends. */
  lemma DecodedTailEndsText(text: string, afterName: string, rest: string, afterEmail: string)
    requires text == NamePrefix + afterName
    requires Unescape(afterName).Some? && Unescape(afterName).value.1 == rest
    requires "\"" + rest == EmailPrefix + afterEmail
    requires Unescape(afterEmail).Some?
    ensures var tail := Unescape(afterEmail).value.1;
            text[|text| - |tail|..] == tail
  {
    var tail := Unescape(afterEmail).value.1;
    UnescapeLeavesSuffix(afterName);
    UnescapeLeavesSuffix(afterEmail);
    assert ("\"" + rest)[|"\"" + rest| - |tail|..] == tail;
    assert rest[|rest| - |tail|..] == tail;
    assert afterName[|afterName| - |tail|..] == tail;
  }

  /** `JSON.parse(text)` for the user record; `None` is a thrown `SyntaxError`. */
  function Decode(text: string): (r: Option<Parsed>)
    ensures r == Some(NullValue) <==> text == "null"
    ensures r.Some? && r.value.ProfileValue? ==> NamePrefix <= text && text[|text| - 1] == '}'
  {
    if text == "null" then Some(NullValue)
    else
      match StripPrefix(text, NamePrefix)
      case None => None
      case Some(afterName) =>
        match Unescape(afterName)
        case None => None
        case Some((name, rest)) =>
          match StripPrefix("\"" + rest, EmailPrefix)
          case None => None
          case Some(afterEmail) =>
            match Unescape(afterEmail)
            case None => None
            case Some((email, tail)) =>
              DecodedTailEndsText(text, afterName, rest, afterEmail);
              if tail == Closing then Some(ProfileValue(UserProfile(name, email))) else None
  }

  /** `Decode` reads a record whose four parts read back as given. */
  lemma DecodeOfParts(text: string, afterName: string, rest: string, afterEmail: string, u: UserProfile)
    requires text != "null"
    requires StripPrefix(text, NamePrefix) == Some(afterName)
    requires Unescape(afterName) == Some((u.name, rest))
    requires StripPrefix("\"" + rest, EmailPrefix) == Some(afterEmail)
    requires Unescape(afterEmail) == Some((u.email, Closing))
    ensures Decode(text) == Some(ProfileValue(u))
  {
  }

  /** The layout of a stored record, split at the quote that closes the name. */
  lemma RecordLayout(name: string, email: string)
    ensures NamePrefix + name + EmailPrefix + email + "\"" + Closing
         == NamePrefix + (name + "\"" + (EmailPrefix[1..] + (email + "\"" + Closing)))
    ensures "\"" + (EmailPrefix[1..] + (email + "\"" + Closing)) == EmailPrefix + (email + "\"" + Closing)
  {
    assert "\"" + EmailPrefix[1..] == EmailPrefix;
  }

  /** The stored text of a profile parses back to the same profile. */
  lemma DecodeEncode(u: UserProfile)
    ensures Decode(Encode(u)) == Some(ProfileValue(u))
  {
    var name, email := Escape(u.name), Escape(u.email);
    var afterEmail := email + "\"" + Closing;
    var rest := EmailPrefix[1..] + afterEmail;
    var afterName := name + "\"" + rest;
    RecordLayout(name, email);
    assert Encode(u) == NamePrefix + afterName;
    assert Encode(u) != "null" by { assert Encode(u)[0] == '{'; }
    UnescapeEscape(u.name, rest);
    UnescapeEscape(u.email, Closing);
    DecodeOfParts(Encode(u), afterName, rest, afterEmail, u);
  }

  /** Distinct profiles are stored as distinct texts. */
  lemma EncodeInjective(u: UserProfile, v: UserProfile)
    requires Encode(u) == Encode(v)
    ensures u == v
  {
    DecodeEncode(u);
    DecodeEncode(v);
  }
}

/** The text `JSON.stringify` produces for the user snapshot the frontend keeps in local
    storage, and a reader for exactly that text, which shows the text determines the snapshot. */
module SnapshotJson {
  import opened Base

  /** The object literal built at auth-service.ts lines 46-53 and 65-72, fields in that order. */
  datatype Snapshot = Snapshot(
    uid: string,
    email: Option<string>,
    displayName: Option<string>,
    photoURL: Option<string>,
    providerId: Option<string>,
    storedAt: string)

  function HexDigit(n: nat): (c: char)
    requires n < 16
  {
    if n < 10 then ('0' as int + n) as char else ('a' as int + n - 10) as char
  }

  function HexValue(c: char): (r: Option<nat>)
    ensures r.Some? ==> r.value < 16
  {
    if '0' <= c <= '9' then Some(c as int - '0' as int)
    else if 'a' <= c <= 'f' then Some(c as int - 'a' as int + 10)
    else if 'A' <= c <= 'F' then Some(c as int - 'A' as int + 10)
    else None
  }

  /** How `JSON.stringify` writes one character inside a string: the short escapes, `\u00xx`
      for the other control characters, and every other character as itself. */
  function EscapeChar(c: char): (r: string)
  {
    if c == '\U{8}' then "\\b"
    else if c == '\t' then "\\t"
    else if c == '\n' then "\\n"
    else if c == '\U{C}' then "\\f"
    else if c == '\r' then "\\r"
    else if c == '"' then "\\\""
    else if c == '\\' then "\\\\"
    else if c < ' ' then "\\u00" + [HexDigit(c as int / 16), HexDigit(c as int % 16)]
    else [c]
  }

  function Escape(s: string): (r: string)
  {
    if s == [] then [] else EscapeChar(s[0]) + Escape(s[1..])
  }

  /** A JSON string literal. */
  function Quote(s: string): (r: string)
  {
    "\"" + Escape(s) + "\""
  }

  /** A JSON string literal, or `null`. */
  function QuoteNullable(o: Option<string>): (r: string)
  {
    match o
    case None => "null"
    case Some(s) => Quote(s)
  }

  /** `JSON.stringify(snapshot)`. */
  function Stringify(s: Snapshot): (text: string)
  {
    "{\"uid\":" + (Quote(s.uid)
    + (",\"email\":" + (QuoteNullable(s.email)
    + (",\"displayName\":" + (QuoteNullable(s.displayName)
    + (",\"photoURL\":" + (QuoteNullable(s.photoURL)
    + (",\"providerId\":" + (QuoteNullable(s.providerId)
    + (",\"storedAt\":" + (Quote(s.storedAt)
    + "}")))))))))))
  }

  // ---------------------------------------------------------------------------
  // Reading the text back

  /** The characters of a string literal up to its closing quote (which `text` starts after),
      and the text after that quote. */
  function ReadChars(text: string): (r: Option<(string, string)>)
    ensures r.Some? ==> |r.value.1| < |text|
  {
    if text == [] then None
    else if text[0] == '"' then Some(([], text[1..]))
    else if text[0] != '\\' then
      match ReadChars(text[1..])
      case None => None
      case Some((s, rest)) => Some(([text[0]] + s, rest))
    else if |text| < 2 then None
    else
      var e := text[1];
      if e == 'u' then
        if |text| < 6 then None
        else
          match HexCode(text[2..6])
          case None => None
          case Some(code) =>
            if 0xD800 <= code < 0xE000 then None
            else
              match ReadChars(text[6..])
              case None => None
              case Some((s, rest)) => Some(([code as char] + s, rest))
      else
        var c := if e == 'b' then Some('\U{8}') else if e == 't' then Some('\t')
          else if e == 'n' then Some('\n') else if e == 'f' then Some('\U{C}')
          else if e == 'r' then Some('\r') else if e == '"' then Some('"')
          else if e == '\\' then Some('\\') else if e == '/' then Some('/') else None;
        match c
        case None => None
        case Some(ch) =>
          match ReadChars(text[2..])
          case None => None
          case Some((s, rest)) => Some(([ch] + s, rest))
  }

  /** The value of four hexadecimal digits. */
  function HexCode(digits: string): (r: Option<nat>)
    requires |digits| == 4
    ensures r.Some? ==> r.value < 0x10000
  {
    var d0 :- HexValue(digits[0]);
    var d1 :- HexValue(digits[1]);
    var d2 :- HexValue(digits[2]);
    var d3 :- HexValue(digits[3]);
    Some(((d0 * 16 + d1) * 16 + d2) * 16 + d3)
  }

  function ReadString(text: string): (r: Option<(string, string)>)
  {
    if text != [] && text[0] == '"' then ReadChars(text[1..]) else None
  }

  function ReadNullable(text: string): (r: Option<(Option<string>, string)>)
  {
    if |text| >= 4 && text[..4] == "null" then Some((None, text[4..]))
    else
      match ReadString(text)
      case None => None
      case Some((s, rest)) => Some((Some(s), rest))
  }

  function After(prefix: string, text: string): (r: Option<string>)
  {
    if |prefix| <= |text| && text[..|prefix|] == prefix then Some(text[|prefix|..]) else None
  }

  /** Reads the text `Stringify` writes. */
  function Parse(text: string): (r: Option<Snapshot>)
  {
    var t :- After("{\"uid\":", text);
    var uid :- ReadString(t);
    var t :- After(",\"email\":", uid.1);
    var email :- ReadNullable(t);
    var t :- After(",\"displayName\":", email.1);
    var displayName :- ReadNullable(t);
    var t :- After(",\"photoURL\":", displayName.1);
    var photoURL :- ReadNullable(t);
    var t :- After(",\"providerId\":", photoURL.1);
    var providerId :- ReadNullable(t);
    var t :- After(",\"storedAt\":", providerId.1);
    var storedAt :- ReadString(t);
    if storedAt.1 == "}" then
      Some(Snapshot(uid.0, email.0, displayName.0, photoURL.0, providerId.0, storedAt.0))
    else None
  }

  // ---------------------------------------------------------------------------
  // Round trip

  lemma ReadEscapedChar(c: char, tail: string)
    ensures ReadChars(EscapeChar(c) + tail) ==
      match ReadChars(tail)
      case None => None
      case Some((s, rest)) => Some(([c] + s, rest))
  {
    var e := EscapeChar(c);
    if c < ' ' && c != '\U{8}' && c != '\t' && c != '\n' && c != '\U{C}' && c != '\r' {
      var hi, lo := c as int / 16, c as int % 16;
      var text := e + tail;
      assert text[6..] == tail;
      assert HexValue(text[2]) == Some(0) && HexValue(text[3]) == Some(0);
      assert HexValue(text[4]) == Some(hi) && HexValue(text[5]) == Some(lo);
      assert HexCode(text[2..6]) == Some(c as int);
    } else if |e| == 2 {
      assert (e + tail)[2..] == tail;
    } else {
      assert (e + tail)[1..] == tail;
    }
  }

  /** The characters of an escaped string are read back, up to the closing quote. */
  lemma {:induction false} ReadEscaped(s: string, rest: string)
    ensures ReadChars(Escape(s) + "\"" + rest) == Some((s, rest))
  {
    if s == [] {
      assert Escape(s) + "\"" + rest == "\"" + rest;
    } else {
      ReadEscaped(s[1..], rest);
      assert Escape(s) + "\"" + rest == EscapeChar(s[0]) + (Escape(s[1..]) + "\"" + rest);
      ReadEscapedChar(s[0], Escape(s[1..]) + "\"" + rest);
      assert [s[0]] + s[1..] == s;
    }
  }

  lemma ReadQuoted(s: string, rest: string)
    ensures ReadString(Quote(s) + rest) == Some((s, rest))
  {
    var text := Quote(s) + rest;
    assert text[1..] == Escape(s) + "\"" + rest;
    ReadEscaped(s, rest);
  }

  lemma ReadQuotedNullable(o: Option<string>, rest: string)
    ensures ReadNullable(QuoteNullable(o) + rest) == Some((o, rest))
  {
    var text := QuoteNullable(o) + rest;
    match o
    case None =>
      assert text[..4] == "null" && text[4..] == rest;
    case Some(s) =>
      assert text[0] == '"';
      ReadQuoted(s, rest);
  }

  lemma AfterPrefix(prefix: string, rest: string)
    ensures After(prefix, prefix + rest) == Some(rest)
  {
    assert (prefix + rest)[..|prefix|] == prefix;
  }

  /** Round trip: reading the stored text gives back the snapshot that was written. */
  lemma ParseStringify(s: Snapshot)
    ensures Parse(Stringify(s)) == Some(s)
  {
    var r6 := "}";
    var r5 := Quote(s.storedAt) + r6;
    var t5 := ",\"storedAt\":" + r5;
    var r4 := QuoteNullable(s.providerId) + t5;
    var t4 := ",\"providerId\":" + r4;
    var r3 := QuoteNullable(s.photoURL) + t4;
    var t3 := ",\"photoURL\":" + r3;
    var r2 := QuoteNullable(s.displayName) + t3;
    var t2 := ",\"displayName\":" + r2;
    var r1 := QuoteNullable(s.email) + t2;
    var t1 := ",\"email\":" + r1;
    var r0 := Quote(s.uid) + t1;
    assert Stringify(s) == "{\"uid\":" + r0;
    AfterPrefix("{\"uid\":", r0);
    assert ReadString(r0) == Some((s.uid, t1)) by {
      ReadQuoted(s.uid, t1);
    }
    assert ReadNullable(r1) == Some((s.email, t2)) by {
      ReadQuotedNullable(s.email, t2);
    }
    AfterPrefix(",\"email\":", r1);
    assert ReadNullable(r2) == Some((s.displayName, t3)) by {
      ReadQuotedNullable(s.displayName, t3);
    }
    AfterPrefix(",\"displayName\":", r2);
    assert ReadNullable(r3) == Some((s.photoURL, t4)) by {
      ReadQuotedNullable(s.photoURL, t4);
    }
    AfterPrefix(",\"photoURL\":", r3);
    assert ReadNullable(r4) == Some((s.providerId, t5)) by {
      ReadQuotedNullable(s.providerId, t5);
    }
    AfterPrefix(",\"providerId\":", r4);
    assert ReadString(r5) == Some((s.storedAt, r6)) by {
      ReadQuoted(s.storedAt, r6);
    }
    AfterPrefix(",\"storedAt\":", r5);
  }

  /** Different snapshots are stored as different text. */
  lemma StringifyInjective(a: Snapshot, b: Snapshot)
    requires Stringify(a) == Stringify(b)
    ensures a == b
  {
    ParseStringify(a);
    ParseStringify(b);
  }
}

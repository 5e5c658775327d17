/** JSON string literals (section 7 of RFC 8259): an escaping writer and a
    reader, used to state what an error body of the form {"error":"<text>"}
    carries. */
module JsonText {
  import opened Common

  /** A character that may stand unescaped inside a JSON string. */
  predicate IsPlainChar(c: char)
  {
    c != '"' && c != '\\' && c >= ' '
  }

  predicate IsPlainText(t: string)
  {
    forall i :: 0 <= i < |t| ==> IsPlainChar(t[i])
  }

  function HexDigit(n: nat): char
    requires n < 16
  {
    if n < 10 then ('0' as int + n) as char else ('a' as int + (n - 10)) as char
  }

  function HexValue(c: char): (r: Option<nat>)
    ensures r.Some? ==> r.value < 16
  {
    if '0' <= c <= '9' then Some(c as int - '0' as int)
    else if 'a' <= c <= 'f' then Some(c as int - 'a' as int + 10)
    else if 'A' <= c <= 'F' then Some(c as int - 'A' as int + 10)
    else None
  }

  lemma HexValueOfDigit(n: nat)
    requires n < 16
    ensures HexValue(HexDigit(n)) == Some(n)
  {
  }

  /** The text that stands for one character inside a JSON string. */
  function EscapeChar(c: char): string
  {
    if c == '"' then ['\\', '"']
    else if c == '\\' then ['\\', '\\']
    else if c < ' ' then ['\\', 'u', '0', '0', HexDigit(c as int / 16), HexDigit(c as int % 16)]
    else [c]
  }

  function Escape(t: string): string
  {
    if t == [] then [] else EscapeChar(t[0]) + Escape(t[1..])
  }

  /** The JSON string literal for t, with its quotes. */
  function Quote(t: string): string
  {
    ['"'] + Escape(t) + ['"']
  }

  /** Reads one escape sequence, given the text after its backslash: the
      character it stands for and how many characters of s it takes. A
      \u escape naming a surrogate is refused (pairs are not read). */
  function Unescape(s: string): (r: Option<(char, nat)>)
    ensures r.Some? ==> 1 <= r.value.1 <= |s|
  {
    if s == [] then None
    else if s[0] == '"' || s[0] == '\\' || s[0] == '/' then Some((s[0], 1))
    else if s[0] == 'b' then Some((8 as char, 1))
    else if s[0] == 'f' then Some((12 as char, 1))
    else if s[0] == 'n' then Some((10 as char, 1))
    else if s[0] == 'r' then Some((13 as char, 1))
    else if s[0] == 't' then Some((9 as char, 1))
    else if s[0] == 'u' && |s| >= 5 then
      match (HexValue(s[1]), HexValue(s[2]), HexValue(s[3]), HexValue(s[4]))
      case (Some(a), Some(b), Some(c), Some(d)) =>
        var v := a * 4096 + b * 256 + c * 16 + d;
        if 0xD800 <= v < 0xE000 then None else Some((v as char, 5))
      case _ => None
    else None
  }

  /** Reads the inside of a JSON string, given the text after its opening
      quote: the characters it stands for and the text after its closing
      quote. */
  function ReadChars(s: string): Option<(string, string)>
    decreases |s|
  {
    if s == [] then None
    else if s[0] == '"' then Some(([], s[1..]))
    else if s[0] == '\\' then
      match Unescape(s[1..])
      case None => None
      case Some((c, n)) =>
        match ReadChars(s[1 + n..])
        case None => None
        case Some((t, rest)) => Some(([c] + t, rest))
    else if s[0] < ' ' then None
    else
      match ReadChars(s[1..])
      case None => None
      case Some((t, rest)) => Some(([s[0]] + t, rest))
  }

  /** Reading an escaped control character gives the character back. */
  lemma ReadEscapedControl(c: char, tail: string)
    requires c < ' '
    ensures ReadChars(EscapeChar(c) + tail) ==
      match ReadChars(tail)
      case None => None
      case Some((t, rest)) => Some(([c] + t, rest))
  {
    HexValueOfDigit(c as int / 16);
    HexValueOfDigit(c as int % 16);
    var e := EscapeChar(c);
    var s := e + tail;
    assert e == ['\\', 'u', '0', '0', HexDigit(c as int / 16), HexDigit(c as int % 16)];
    assert s[1..] == e[1..] + tail;
    assert (e[1..] + tail)[1..5] == e[2..6];
    assert Unescape(s[1..]) == Some((c, 5));
    assert s[6..] == tail;
  }

  /** Reading the escape of one character gives that character, then
      reading goes on right after it. */
  lemma ReadEscapedChar(c: char, tail: string)
    ensures ReadChars(EscapeChar(c) + tail) ==
      match ReadChars(tail)
      case None => None
      case Some((t, rest)) => Some(([c] + t, rest))
  {
    var s := EscapeChar(c) + tail;
    if c == '"' || c == '\\' {
      assert s[1..][0] == c;
      assert s[2..] == tail;
    } else if c < ' ' {
      ReadEscapedControl(c, tail);
    } else {
      assert s[1..] == tail;
    }
  }

  /** Reading back an escaped text gives the text and stops at its closing
      quote. */
  lemma {:induction false} ReadEscaped(t: string, rest: string)
    ensures ReadChars(Escape(t) + ['"'] + rest) == Some((t, rest))
  {
    if t == [] {
      assert Escape(t) + ['"'] + rest == ['"'] + rest;
    } else {
      var tail := Escape(t[1..]) + ['"'] + rest;
      assert Escape(t) + ['"'] + rest == EscapeChar(t[0]) + tail;
      ReadEscaped(t[1..], rest);
      ReadEscapedChar(t[0], tail);
      assert [t[0]] + t[1..] == t;
    }
  }

  lemma {:induction false} EscapePlain(t: string)
    requires IsPlainText(t)
    ensures Escape(t) == t
  {
    if t != [] {
      EscapePlain(t[1..]);
      assert [t[0]] + t[1..] == t;
    }
  }

  /** The opening of an error body, up to and including the quote that opens
      its text. */
  const ErrorPrefix: string := "{\"error\":\""

  /** Reads an error body written in the compact form {"error":<string>}:
      the text its string stands for, or None when the body is not of that
      form. */
  function ReadErrorBody(body: string): Option<string>
  {
    if |body| >= |ErrorPrefix| && body[..|ErrorPrefix|] == ErrorPrefix then
      match ReadChars(body[|ErrorPrefix|..])
      case Some((text, rest)) => if rest == "}" then Some(text) else None
      case None => None
    else None
  }
}

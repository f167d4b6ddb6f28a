/**
 * The Go standard-library string routines the generator relies on:
 * strings.HasPrefix, TrimLeft, TrimSpace, TrimSuffix, Split and Join, and
 * strconv.FormatBool, FormatInt and Quote, each with the property that
 * pins it down (a characterisation, or an inverse proved against it).
 */
module Text {
  import opened Common

  predicate HasPrefix(s: string, prefix: string) {
    |prefix| <= |s| && s[..|prefix|] == prefix
  }

  predicate HasSuffix(s: string, suffix: string) {
    |suffix| <= |s| && s[|s| - |suffix|..] == suffix
  }

  /** strings.TrimLeft: drops every leading character that belongs to the cut set. */
  function TrimLeft(s: string, cutset: set<char>): (r: string)
    ensures |r| <= |s| && r == s[|s| - |r|..]
    ensures r == [] || r[0] !in cutset
    ensures forall i :: 0 <= i < |s| - |r| ==> s[i] in cutset
  {
    if s != [] && s[0] in cutset then TrimLeft(s[1..], cutset) else s
  }

  /** strings.TrimSuffix */
  function TrimSuffix(s: string, suffix: string): (r: string)
    ensures HasSuffix(s, suffix) ==> r + suffix == s
    ensures !HasSuffix(s, suffix) ==> r == s
  {
    if HasSuffix(s, suffix) then s[..|s| - |suffix|] else s
  }

  /** unicode.IsSpace: the white space that strings.TrimSpace removes. */
  predicate IsSpace(c: char) {
    var n := c as int;
    (0x09 <= n <= 0x0D) || n == 0x20 || n == 0x85 || n == 0xA0 || n == 0x1680
    || (0x2000 <= n <= 0x200A) || n == 0x2028 || n == 0x2029 || n == 0x202F
    || n == 0x205F || n == 0x3000
  }

  /** Drops the leading white space, and only that. */
  function TrimLeftSpace(s: string): (r: string)
    ensures |r| <= |s| && r == s[|s| - |r|..]
    ensures r == [] || !IsSpace(r[0])
    ensures forall i :: 0 <= i < |s| - |r| ==> IsSpace(s[i])
  {
    if s != [] && IsSpace(s[0]) then TrimLeftSpace(s[1..]) else s
  }

  /** Drops the trailing white space, and only that. */
  function TrimRightSpace(s: string): (r: string)
    ensures |r| <= |s| && r == s[..|r|]
    ensures r == [] || !IsSpace(r[|r| - 1])
    ensures forall i :: |r| <= i < |s| ==> IsSpace(s[i])
  {
    if s != [] && IsSpace(s[|s| - 1]) then TrimRightSpace(s[..|s| - 1]) else s
  }

  /** strings.TrimSpace: the text between the leading and the trailing white space. */
  function TrimSpace(s: string): string {
    TrimRightSpace(TrimLeftSpace(s))
  }

  /** A text that starts and ends with a visible character loses exactly one trailing blank. */
  lemma TrimSpaceOneBlank(s: string)
    requires s != [] && !IsSpace(s[0]) && !IsSpace(s[|s| - 1])
    ensures TrimSpace(s + " ") == s
  {
    assert (s + " ")[0] == s[0];
    assert TrimLeftSpace(s + " ") == s + " ";
    assert (s + " ")[..|s|] == s;
    assert TrimRightSpace(s) == s;
    assert IsSpace(' ');
  }

  lemma ConcatAssoc(a: string, b: string, c: string)
    ensures (a + b) + c == a + (b + c)
  {
  }

  /** strings.Join */
  function Join(parts: seq<string>, sep: string): string {
    if |parts| == 0 then ""
    else if |parts| == 1 then parts[0]
    else parts[0] + sep + Join(parts[1..], sep)
  }

  function IndexOf(s: string, c: char): (i: nat)
    requires c in s
    ensures i < |s| && s[i] == c && c !in s[..i]
  {
    if s[0] == c then 0
    else
      var j := IndexOf(s[1..], c);
      assert s[..j + 1] == [s[0]] + s[1..][..j];
      j + 1
  }

  /** strings.Split on a one-character separator: the pieces between separators. */
  function Split(s: string, sep: char): (parts: seq<string>)
    ensures |parts| >= 1
    ensures forall i :: 0 <= i < |parts| ==> sep !in parts[i]
    ensures Join(parts, [sep]) == s
    decreases |s|
  {
    if sep !in s then [s]
    else
      var i := IndexOf(s, sep);
      var rest := Split(s[i + 1..], sep);
      assert s == s[..i] + [sep] + s[i + 1..];
      assert ([s[..i]] + rest)[1..] == rest;
      [s[..i]] + rest
  }

  /** IndexOf finds the first occurrence. */
  lemma IndexOfFirst(s: string, c: char, i: nat)
    requires i < |s| && s[i] == c && c !in s[..i]
    ensures IndexOf(s, c) == i
  {
  }

  /** Splitting at a first separator yields the text before it, then the rest split. */
  lemma SplitFirst(a: string, sep: char, b: string)
    requires sep !in a
    ensures Split(a + [sep] + b, sep) == [a] + Split(b, sep)
  {
    var s := a + [sep] + b;
    assert s[..|a|] == a;
    IndexOfFirst(s, sep, |a|);
    assert s[|a| + 1..] == b;
  }

  /** Split undoes Join when no piece holds the separator. */
  lemma {:induction false} SplitJoin(parts: seq<string>, sep: char)
    requires |parts| >= 1
    requires forall i :: 0 <= i < |parts| ==> sep !in parts[i]
    ensures Split(Join(parts, [sep]), sep) == parts
  {
    if |parts| > 1 {
      SplitJoin(parts[1..], sep);
      SplitFirst(parts[0], sep, Join(parts[1..], [sep]));
      assert parts == [parts[0]] + parts[1..];
    }
  }

  /** strconv.FormatBool */
  function FormatBool(b: bool): string {
    if b then "true" else "false"
  }

  predicate IsDigit(c: char) {
    '0' <= c <= '9'
  }

  function Digit(d: nat): (c: char)
    requires d < 10
    ensures IsDigit(c) && c as int - '0' as int == d
  {
    (d + '0' as int) as char
  }

  /** Decimal digits of a natural number, most significant first. */
  function NatText(n: nat): (r: string)
    ensures r != [] && forall i :: 0 <= i < |r| ==> IsDigit(r[i])
  {
    if n < 10 then [Digit(n)] else NatText(n / 10) + [Digit(n % 10)]
  }

  /** strconv.FormatInt(n, 10) */
  function FormatInt(n: int): string {
    if n < 0 then "-" + NatText(-n) else NatText(n)
  }

  /** Reads a run of decimal digits back as a number. */
  function DigitsValue(s: string): int {
    if s == [] then 0 else DigitsValue(s[..|s| - 1]) * 10 + (s[|s| - 1] as int - '0' as int)
  }

  function ParseInt(s: string): int {
    if s != [] && s[0] == '-' then -DigitsValue(s[1..]) else DigitsValue(s)
  }

  lemma {:induction false} DigitsValueNatText(n: nat)
    ensures DigitsValue(NatText(n)) == n
  {
    if n >= 10 {
      DigitsValueNatText(n / 10);
      var s := NatText(n / 10) + [Digit(n % 10)];
      assert s[..|s| - 1] == NatText(n / 10);
    }
  }

  /** The decimal text of an integer reads back as that integer. */
  lemma ParseFormatInt(n: int)
    ensures ParseInt(FormatInt(n)) == n
  {
    if n < 0 {
      DigitsValueNatText(-n);
      assert ("-" + NatText(-n))[1..] == NatText(-n);
    } else {
      DigitsValueNatText(n);
    }
  }

  /** Distinct integers have distinct decimal texts. */
  lemma FormatIntInjective(a: int, b: int)
    requires FormatInt(a) == FormatInt(b)
    ensures a == b
  {
    ParseFormatInt(a);
    ParseFormatInt(b);
  }

  // ---------------------------------------------------------------- strconv.Quote

  function HexDigit(d: nat): (c: char)
    requires d < 16
    ensures IsHex(c) && HexValue(c) == d
  {
    if d < 10 then (d + '0' as int) as char else (d - 10 + 'a' as int) as char
  }

  predicate IsHex(c: char) {
    ('0' <= c <= '9') || ('a' <= c <= 'f')
  }

  function HexValue(c: char): (d: nat)
    requires IsHex(c)
    ensures d < 16
  {
    if c <= '9' then c as int - '0' as int else c as int - 'a' as int + 10
  }

  /** The letter after the backslash for the characters Go escapes by name, if any. */
  function NamedEscape(c: char): Option<char> {
    var n := c as int;
    if c == '"' || c == '\\' then Some(c)
    else if n == 7 then Some('a')
    else if n == 8 then Some('b')
    else if n == 12 then Some('f')
    else if n == 10 then Some('n')
    else if n == 13 then Some('r')
    else if n == 9 then Some('t')
    else if n == 11 then Some('v')
    else None
  }

  /** The character a named escape letter stands for, if it is one. */
  function NamedUnescape(e: char): (r: Option<char>)
    ensures r.Some? ==> NamedEscape(r.value) == Some(e)
  {
    if e == '"' || e == '\\' then Some(e)
    else if e == 'a' then Some(7 as char)
    else if e == 'b' then Some(8 as char)
    else if e == 'f' then Some(12 as char)
    else if e == 'n' then Some(10 as char)
    else if e == 'r' then Some(13 as char)
    else if e == 't' then Some(9 as char)
    else if e == 'v' then Some(11 as char)
    else None
  }

  predicate IsControl(c: char) {
    c as int < 0x20 || c as int == 0x7F
  }

  function EscapeChar(c: char): string {
    match NamedEscape(c)
    case Some(e) => ['\\', e]
    case None =>
      if IsControl(c) then ['\\', 'x', HexDigit(c as int / 16), HexDigit(c as int % 16)]
      else [c]
  }

  function Escape(s: string): string {
    if s == [] then [] else EscapeChar(s[0]) + Escape(s[1..])
  }

  /** strconv.Quote, for text whose non-ASCII characters are all printable. */
  function Quote(s: string): string {
    "\"" + Escape(s) + "\""
  }

  /** A character Quote keeps as it is. */
  predicate Plain(c: char) {
    c != '"' && c != '\\' && !IsControl(c)
  }

  /** Quoting text made of plain characters only adds the two quotes. */
  lemma {:induction false} QuotePlain(s: string)
    requires forall i :: 0 <= i < |s| ==> Plain(s[i])
    ensures Quote(s) == "\"" + s + "\""
    ensures Escape(s) == s
  {
    if s != [] {
      QuotePlain(s[1..]);
      assert s == [s[0]] + s[1..];
    }
  }

  function Cons(c: char, width: nat, rest: Option<(string, nat)>): Option<(string, nat)> {
    match rest
    case None => None
    case Some((text, used)) => Some(([c] + text, used + width))
  }

  /**
   * Reads the body of a quoted string, the opening quote already consumed:
   * the decoded text and how many characters were used, closing quote included.
   */
  function ReadQuoted(t: string): (r: Option<(string, nat)>)
    ensures r.Some? ==> 0 < r.value.1 <= |t|
    decreases |t|
  {
    if t == [] then None
    else if t[0] == '"' then Some(([], 1))
    else if t[0] != '\\' then Cons(t[0], 1, ReadQuoted(t[1..]))
    else if |t| < 2 then None
    else if t[1] == 'x' then
      if |t| >= 4 && IsHex(t[2]) && IsHex(t[3]) then
        Cons((HexValue(t[2]) * 16 + HexValue(t[3])) as char, 4, ReadQuoted(t[4..]))
      else None
    else
      match NamedUnescape(t[1])
      case None => None
      case Some(c) => Cons(c, 2, ReadQuoted(t[2..]))
  }

  lemma ReadEscapedChar(c: char, rest: string)
    ensures ReadQuoted(EscapeChar(c) + rest) == Cons(c, |EscapeChar(c)|, ReadQuoted(rest))
  {
    var t := EscapeChar(c) + rest;
    match NamedEscape(c)
    case Some(e) =>
      assert t[0] == '\\' && t[1] == e && t[2..] == rest;
      if e == 'x' {
        assert false;
      }
    case None =>
      if IsControl(c) {
        var hi, lo := c as int / 16, c as int % 16;
        assert t[0] == '\\' && t[1] == 'x' && t[2] == HexDigit(hi) && t[3] == HexDigit(lo);
        assert t[4..] == rest;
        assert (hi * 16 + lo) as char == c;
      } else {
        assert t[0] == c && t[1..] == rest;
      }
  }

  /** The escaped body followed by the closing quote reads back as the original text. */
  lemma {:induction false} ReadQuotedEscape(s: string, rest: string)
    ensures ReadQuoted(Escape(s) + "\"" + rest) == Some((s, |Escape(s)| + 1))
  {
    if s == [] {
      assert (Escape(s) + "\"" + rest)[0] == '"';
    } else {
      var tail := Escape(s[1..]) + "\"" + rest;
      assert Escape(s) + "\"" + rest == EscapeChar(s[0]) + tail;
      ReadEscapedChar(s[0], tail);
      ReadQuotedEscape(s[1..], rest);
      assert [s[0]] + s[1..] == s;
    }
  }

  /** Reads back what Quote writes: a double-quoted text with Quote's escapes. */
  function Unquote(t: string): Option<string> {
    if t == [] || t[0] != '"' then None
    else match ReadQuoted(t[1..])
      case None => None
      case Some((text, used)) => if used + 1 == |t| then Some(text) else None
  }

  /** Quote is undone by Unquote: quoting loses nothing. */
  lemma UnquoteQuote(s: string)
    ensures Unquote(Quote(s)) == Some(s)
  {
    assert Quote(s)[1..] == Escape(s) + "\"" + "";
    ReadQuotedEscape(s, "");
  }
}

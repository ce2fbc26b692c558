/** Rendering a value as a TOML basic string, and reading it back as section "String" of
    TOML v1.0.0 prescribes.
 */
module Toml {
  import opened Wrappers

  // ---- The renderer: an ordered chain of replacements -------------------------------------

  function Replace(s: string, c: char, with: string): string {
    if s == [] then [] else (if s[0] == c then with else [s[0]]) + Replace(s[1..], c, with)
  }

  function HexDigit(n: nat): (c: char)
    requires n < 16
  {
    "0123456789abcdef"[n]
  }

  /** `{n:04x}` */
  function Hex4(n: nat): (s: string)
    requires n < 0x10000
    ensures |s| == 4
  {
    [HexDigit(n / 4096), HexDigit(n / 256 % 16), HexDigit(n / 16 % 16), HexDigit(n % 16)]
  }

  predicate Forbidden(c: char) {
    c < ' ' || c == '\U{7f}'
  }

  function EscapeControls(s: string): string {
    if s == [] then [] else (if Forbidden(s[0]) then "\\u" + Hex4(s[0] as nat) else [s[0]]) + EscapeControls(s[1..])
  }

  /** Everything between the quotes. */
  function Chain(value: string): string {
    var quoted := Replace(Replace(value, '\\', "\\\\"), '"', "\\\"");
    var short := Replace(Replace(Replace(quoted, '\n', "\\n"), '\r', "\\r"), '\t', "\\t");
    EscapeControls(short)
  }

  function TomlStr(value: string): string {
    "\"" + Chain(value) + "\""
  }

  // ---- One simultaneous escape ----------------------------------------------------------------

  function EscapeChar(c: char): string {
    if c == '\\' then "\\\\"
    else if c == '"' then "\\\""
    else if c == '\n' then "\\n"
    else if c == '\r' then "\\r"
    else if c == '\t' then "\\t"
    else if Forbidden(c) then "\\u" + Hex4(c as nat)
    else [c]
  }

  function Escape(value: string): string {
    if value == [] then [] else EscapeChar(value[0]) + Escape(value[1..])
  }

  lemma {:induction false} ReplaceConcat(s: string, t: string, c: char, with: string)
    ensures Replace(s + t, c, with) == Replace(s, c, with) + Replace(t, c, with)
  {
    if s == [] {
      assert s + t == t;
    } else {
      assert (s + t)[1..] == s[1..] + t;
      ReplaceConcat(s[1..], t, c, with);
    }
  }

  lemma {:induction false} EscapeControlsConcat(s: string, t: string)
    ensures EscapeControls(s + t) == EscapeControls(s) + EscapeControls(t)
  {
    if s == [] {
      assert s + t == t;
    } else {
      assert (s + t)[1..] == s[1..] + t;
      EscapeControlsConcat(s[1..], t);
    }
  }

  lemma ChainConcat(s: string, t: string)
    ensures Chain(s + t) == Chain(s) + Chain(t)
  {
    var s1, t1 := Replace(s, '\\', "\\\\"), Replace(t, '\\', "\\\\");
    var s2, t2 := Replace(s1, '"', "\\\""), Replace(t1, '"', "\\\"");
    var s3, t3 := Replace(s2, '\n', "\\n"), Replace(t2, '\n', "\\n");
    var s4, t4 := Replace(s3, '\r', "\\r"), Replace(t3, '\r', "\\r");
    ReplaceConcat(s, t, '\\', "\\\\");
    ReplaceConcat(s1, t1, '"', "\\\"");
    ReplaceConcat(s2, t2, '\n', "\\n");
    ReplaceConcat(s3, t3, '\r', "\\r");
    ReplaceConcat(s4, t4, '\t', "\\t");
    EscapeControlsConcat(Replace(s4, '\t', "\\t"), Replace(t4, '\t', "\\t"));
  }

  lemma ReplaceOne(a: char, c: char, with: string)
    ensures Replace([a], c, with) == if a == c then with else [a]
  {
    assert [a][1..] == [];
  }

  lemma ReplaceTwo(a: char, b: char, c: char, with: string)
    requires a != c && b != c
    ensures Replace([a, b], c, with) == [a, b]
  {
    assert [a, b][1..] == [b];
    ReplaceOne(b, c, with);
  }

  lemma ControlsOne(a: char)
    ensures EscapeControls([a]) == if Forbidden(a) then "\\u" + Hex4(a as nat) else [a]
  {
    assert [a][1..] == [];
  }

  lemma ControlsTwo(a: char, b: char)
    requires !Forbidden(a) && !Forbidden(b)
    ensures EscapeControls([a, b]) == [a, b]
  {
    assert [a, b][1..] == [b];
    ControlsOne(b);
  }

  /** No later replacement touches what an earlier one produced. */
  lemma ChainOne(c: char)
    ensures Chain([c]) == EscapeChar(c)
  {
    ReplaceOne(c, '\\', "\\\\");
    ReplaceOne(c, '"', "\\\"");
    ReplaceOne(c, '\n', "\\n");
    ReplaceOne(c, '\r', "\\r");
    ReplaceOne(c, '\t', "\\t");
    ControlsOne(c);
    if c == '\\' {
      KeptByRest('\\', '\\');
      ReplaceTwo('\\', '\\', '"', "\\\"");
    } else if c == '"' {
      KeptByRest('\\', '"');
    } else if c == '\n' {
      KeptByShort('\\', 'n');
    } else if c == '\r' {
      KeptByShort('\\', 'r');
    } else if c == '\t' {
      ControlsTwo('\\', 't');
    }
  }

  /** Replacements from the newline on leave a pair of ordinary characters alone. */
  lemma KeptByRest(a: char, b: char)
    requires !Forbidden(a) && !Forbidden(b)
    ensures Replace([a, b], '\n', "\\n") == [a, b] && Replace([a, b], '\r', "\\r") == [a, b]
    ensures Replace([a, b], '\t', "\\t") == [a, b] && EscapeControls([a, b]) == [a, b]
  {
    ReplaceTwo(a, b, '\n', "\\n");
    ReplaceTwo(a, b, '\r', "\\r");
    ReplaceTwo(a, b, '\t', "\\t");
    ControlsTwo(a, b);
  }

  lemma KeptByShort(a: char, b: char)
    requires !Forbidden(a) && !Forbidden(b)
    ensures Replace([a, b], '\r', "\\r") == [a, b] && Replace([a, b], '\t', "\\t") == [a, b] &&
            EscapeControls([a, b]) == [a, b]
  {
    KeptByRest(a, b);
  }

  /** The ordered chain of replacements is one simultaneous per-character escape. */
  lemma {:induction false} ChainIsEscape(value: string)
    ensures Chain(value) == Escape(value)
  {
    if value == [] {
      assert Chain([]) == [];
    } else {
      assert [value[0]] + value[1..] == value;
      ChainConcat([value[0]], value[1..]);
      ChainOne(value[0]);
      ChainIsEscape(value[1..]);
    }
  }

  // ---- Reading a basic string --------------------------------------------------------------------

  function HexValue(c: char): Option<nat> {
    if '0' <= c <= '9' then Some(c as nat - '0' as nat)
    else if 'a' <= c <= 'f' then Some(c as nat - 'a' as nat + 10)
    else if 'A' <= c <= 'F' then Some(c as nat - 'A' as nat + 10)
    else None
  }

  function HexNumber(s: string): Option<nat> {
    if s == [] then Some(0)
    else
      var front, last := HexNumber(s[..|s| - 1]), HexValue(s[|s| - 1]);
      if front.Some? && last.Some? then Some(16 * front.value + last.value) else None
  }

  predicate Scalar(n: nat) {
    n < 0xD800 || 0xE000 <= n < 0x110000
  }

  /** A numeric escape of `len` hex digits after the first two characters. */
  function ReadNumeric(s: string, len: nat): Option<(char, string)> {
    if |s| < 2 + len then None
    else
      var n := HexNumber(s[2..2 + len]);
      if n.Some? && Scalar(n.value) then Some((n.value as char, s[2 + len..])) else None
  }

  function ShortEscape(c: char): Option<char> {
    match c
    case 'b' => Some('\U{8}')
    case 't' => Some('\t')
    case 'n' => Some('\n')
    case 'f' => Some('\U{c}')
    case 'r' => Some('\r')
    case '"' => Some('"')
    case '\\' => Some('\\')
    case _ => None
  }

  /** One character of the body: escaped, or raw where the grammar allows it. */
  function ReadChar(s: string): Option<(char, string)>
    requires s != []
  {
    if s[0] == '\\' then
      if |s| < 2 then None
      else if s[1] == 'u' then ReadNumeric(s, 4)
      else if s[1] == 'U' then ReadNumeric(s, 8)
      else if ShortEscape(s[1]).Some? then Some((ShortEscape(s[1]).value, s[2..])) else None
    else if s[0] == '"' || (Forbidden(s[0]) && s[0] != '\t') then None
    else Some((s[0], s[1..]))
  }

  /** The body up to its closing quote, which has to be the end. */
  function ReadBody(s: string): Option<string>
    decreases |s|
  {
    if s == [] then None
    else if s[0] == '"' then (if |s| == 1 then Some([]) else None)
    else
      match ReadChar(s)
      case None => None
      case Some((c, rest)) =>
        if |rest| < |s| then
          (match ReadBody(rest) case Some(tail) => Some([c] + tail) case None => None)
        else None
  }

  function ReadBasicString(s: string): Option<string> {
    if s == [] || s[0] != '"' then None else ReadBody(s[1..])
  }

  // ---- Round trip ------------------------------------------------------------------------------------

  lemma HexDigitValue(n: nat)
    requires n < 16
    ensures HexValue(HexDigit(n)) == Some(n)
  {
    if n < 10 {
      assert "0123456789abcdef"[n] == "0123456789"[n];
    }
  }

  lemma Hex4Number(n: nat)
    requires n < 0x10000
    ensures HexNumber(Hex4(n)) == Some(n)
  {
    var a, b, c, d := n / 4096, n / 256 % 16, n / 16 % 16, n % 16;
    HexDigitValue(a);
    HexDigitValue(b);
    HexDigitValue(c);
    HexDigitValue(d);
    HexFour(HexDigit(a), HexDigit(b), HexDigit(c), HexDigit(d), a, b, c, d);
    Digits(n);
  }

  lemma Digits(n: nat)
    requires n < 0x10000
    ensures n == 16 * (16 * (16 * (n / 4096) + n / 256 % 16) + n / 16 % 16) + n % 16
  {
    assert n / 16 / 16 == n / 256 && n / 256 / 16 == n / 4096;
  }

  lemma HexFour(p: char, q: char, r: char, s: char, a: nat, b: nat, c: nat, d: nat)
    requires HexValue(p) == Some(a) && HexValue(q) == Some(b) && HexValue(r) == Some(c) && HexValue(s) == Some(d)
    ensures HexNumber([p, q, r, s]) == Some(16 * (16 * (16 * a + b) + c) + d)
  {
    HexSnoc([], p);
    HexSnoc([p], q);
    HexSnoc([p, q], r);
    HexSnoc([p, q, r], s);
    assert [] + [p] == [p] && [p] + [q] == [p, q] && [p, q] + [r] == [p, q, r] && [p, q, r] + [s] == [p, q, r, s];
  }

  lemma {:induction false} HexSnoc(front: string, c: char)
    requires HexValue(c).Some?
    ensures HexNumber(front).Some? ==> HexNumber(front + [c]) == Some(16 * HexNumber(front).value + HexValue(c).value)
  {
    var s := front + [c];
    assert s[..|s| - 1] == front && s[|s| - 1] == c;
  }

  lemma ReadEscaped(c: char, rest: string)
    ensures ReadChar(EscapeChar(c) + rest) == Some((c, rest))
  {
    var s := EscapeChar(c) + rest;
    if Forbidden(c) && c != '\n' && c != '\r' && c != '\t' {
      var n := c as nat;
      assert s[2..6] == Hex4(n) && s[6..] == rest;
      Hex4Number(n);
    } else if |EscapeChar(c)| == 2 {
      assert s[2..] == rest;
    } else {
      assert s[1..] == rest;
    }
  }

  lemma {:induction false} ReadEscape(value: string)
    ensures ReadBody(Escape(value) + "\"") == Some(value)
  {
    if value == [] {
      assert Escape(value) + "\"" == "\"";
    } else {
      var rest := Escape(value[1..]) + "\"";
      assert Escape(value) + "\"" == EscapeChar(value[0]) + rest;
      ReadEscaped(value[0], rest);
      ReadEscape(value[1..]);
      assert [value[0]] + value[1..] == value;
    }
  }

  /** Reading the rendered literal gives the original back, for every string. */
  lemma TomlRoundTrip(value: string)
    ensures ReadBasicString(TomlStr(value)) == Some(value)
  {
    ChainIsEscape(value);
    assert TomlStr(value)[1..] == Escape(value) + "\"";
    ReadEscape(value);
  }

  lemma EscapeCharIsPrintable(c: char, i: nat)
    requires i < |EscapeChar(c)|
    ensures !Forbidden(EscapeChar(c)[i])
  {
    if Forbidden(c) && c != '\n' && c != '\r' && c != '\t' && i >= 2 {
      var n := c as nat;
      assert EscapeChar(c)[i] == Hex4(n)[i - 2];
      HexDigitIsPrintable(n / 4096);
      HexDigitIsPrintable(n / 256 % 16);
      HexDigitIsPrintable(n / 16 % 16);
      HexDigitIsPrintable(n % 16);
    }
  }

  lemma HexDigitIsPrintable(n: nat)
    requires n < 16
    ensures !Forbidden(HexDigit(n))
  {
    HexDigitValue(n);
  }

  lemma {:induction false} EscapeIsPrintable(value: string, i: nat)
    requires i < |Escape(value)|
    ensures !Forbidden(Escape(value)[i])
  {
    if i < |EscapeChar(value[0])| {
      EscapeCharIsPrintable(value[0], i);
    } else {
      EscapeIsPrintable(value[1..], i - |EscapeChar(value[0])|);
    }
  }

  /** No raw control character is left in the literal. */
  lemma TomlHasNoControls(value: string, i: nat)
    requires i < |TomlStr(value)|
    ensures !Forbidden(TomlStr(value)[i])
  {
    ChainIsEscape(value);
    if 0 < i < |TomlStr(value)| - 1 {
      EscapeIsPrintable(value, i - 1);
    }
  }
}

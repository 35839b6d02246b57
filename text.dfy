/**
 * The JavaScript built-ins the CORS guard and the chat route rely on, written out:
 * `String.prototype.split` on one character, `trim`, `Array.prototype.join`,
 * `Number.prototype.toString` on integers, the string escaping of `JSON.stringify`,
 * and ASCII case mapping. Each comes with the partner that pins it down
 * (a parser, an inverse, or the characterising slice property).
 */
module Text {
  import opened Wrappers

  // ---------------------------------------------------------------------------
  // Array.prototype.join and String.prototype.split (one-character separator)

  /** `parts.join(sep)`: the empty list joins to "", a single part to itself. */
  function Join(parts: seq<string>, sep: string): string
  {
    if |parts| == 0 then ""
    else if |parts| == 1 then parts[0]
    else parts[0] + sep + Join(parts[1..], sep)
  }

  /** `s.split(c)`: always at least one piece ("" splits to [""]), no piece holds `c`. */
  function Split(s: string, c: char): (r: seq<string>)
    ensures |r| >= 1
    ensures forall i :: 0 <= i < |r| ==> c !in r[i]
    decreases |s|
  {
    if |s| == 0 then [""]
    else
      var rest := Split(s[1..], c);
      if s[0] == c then [""] + rest
      else [[s[0]] + rest[0]] + rest[1..]
  }

  /** Joining the pieces of a split with the same separator gives the input back. */
  lemma {:induction false} JoinSplit(s: string, c: char)
    ensures Join(Split(s, c), [c]) == s
    decreases |s|
  {
    if |s| > 0 {
      var rest := Split(s[1..], c);
      JoinSplit(s[1..], c);
      if s[0] == c {
        assert Split(s, c) == [""] + rest;
        assert ([""] + rest)[1..] == rest;
        assert s == [c] + s[1..];
      } else {
        var parts := [[s[0]] + rest[0]] + rest[1..];
        assert Split(s, c) == parts;
        if |rest| == 1 {
          assert Join(parts, [c]) == [s[0]] + rest[0];
        } else {
          assert parts[1..] == rest[1..];
          assert Join(rest, [c]) == rest[0] + [c] + Join(rest[1..], [c]);
          assert Join(parts, [c]) == [s[0]] + rest[0] + [c] + Join(rest[1..], [c]);
        }
        assert s == [s[0]] + s[1..];
      }
    }
  }

  /** A string without the separator splits to itself. */
  lemma {:induction false} SplitNoSeparator(a: string, c: char)
    requires c !in a
    ensures Split(a, c) == [a]
    decreases |a|
  {
    if |a| > 0 {
      SplitNoSeparator(a[1..], c);
      assert a == [a[0]] + a[1..];
    }
  }

  /** Splitting stops at the first separator. */
  lemma {:induction false} SplitAtSeparator(a: string, c: char, b: string)
    requires c !in a
    ensures Split(a + [c] + b, c) == [a] + Split(b, c)
    decreases |a|
  {
    var s := a + [c] + b;
    if |a| == 0 {
      assert s == [c] + b;
      assert s[1..] == b;
    } else {
      assert s[1..] == a[1..] + [c] + b;
      assert c !in a[1..];
      SplitAtSeparator(a[1..], c, b);
      assert a == [a[0]] + a[1..];
    }
  }

  /** Splitting a join of separator-free parts gives the parts back. */
  lemma {:induction false} SplitJoin(parts: seq<string>, c: char)
    requires |parts| >= 1
    requires forall i :: 0 <= i < |parts| ==> c !in parts[i]
    ensures Split(Join(parts, [c]), c) == parts
    decreases |parts|
  {
    if |parts| == 1 {
      SplitNoSeparator(parts[0], c);
    } else {
      SplitJoin(parts[1..], c);
      SplitAtSeparator(parts[0], c, Join(parts[1..], [c]));
      assert parts == [parts[0]] + parts[1..];
    }
  }

  // ---------------------------------------------------------------------------
  // String.prototype.trim

  /** The WhiteSpace and LineTerminator code points that `trim` removes. */
  predicate IsJsWhiteSpace(ch: char)
  {
    || ch == '\t' || ch == '\n' || ch as int == 0x0B || ch as int == 0x0C || ch == '\r'
    || ch == ' ' || ch as int == 0xA0 || ch as int == 0x1680
    || (0x2000 <= ch as int <= 0x200A)
    || ch as int == 0x2028 || ch as int == 0x2029 || ch as int == 0x202F
    || ch as int == 0x205F || ch as int == 0x3000 || ch as int == 0xFEFF
  }

  /** The first index at or after `i` that does not hold white space. */
  function SkipStart(s: string, i: nat): (j: nat)
    requires i <= |s|
    ensures i <= j <= |s|
    ensures forall k :: i <= k < j ==> IsJsWhiteSpace(s[k])
    ensures j < |s| ==> !IsJsWhiteSpace(s[j])
    decreases |s| - i
  {
    if i < |s| && IsJsWhiteSpace(s[i]) then SkipStart(s, i + 1) else i
  }

  /** The end of `s[lo..j]` once the white space at its end is dropped. */
  function SkipEnd(s: string, lo: nat, j: nat): (e: nat)
    requires lo <= j <= |s|
    ensures lo <= e <= j
    ensures forall k :: e <= k < j ==> IsJsWhiteSpace(s[k])
    ensures e > lo ==> !IsJsWhiteSpace(s[e - 1])
    decreases j
  {
    if j > lo && IsJsWhiteSpace(s[j - 1]) then SkipEnd(s, lo, j - 1) else j
  }

  /**
   * `s.trim()`: the slice of `s` left after dropping white space at both ends;
   * everything dropped is white space and the result neither starts nor ends with it.
   */
  function Trim(s: string): (r: string)
    ensures var i := SkipStart(s, 0);
      && i + |r| <= |s| && r == s[i..i + |r|]
      && (forall k :: 0 <= k < i ==> IsJsWhiteSpace(s[k]))
      && (forall k :: i + |r| <= k < |s| ==> IsJsWhiteSpace(s[k]))
    ensures r != [] ==> !IsJsWhiteSpace(r[0]) && !IsJsWhiteSpace(r[|r| - 1])
  {
    var i := SkipStart(s, 0);
    s[i..SkipEnd(s, i, |s|)]
  }

  // ---------------------------------------------------------------------------
  // ASCII case mapping

  function LowerChar(ch: char): char
  {
    if 'A' <= ch <= 'Z' then (ch as int + 32) as char else ch
  }

  function UpperChar(ch: char): char
  {
    if 'a' <= ch <= 'z' then (ch as int - 32) as char else ch
  }

  /** Byte-lowercasing of a header name, as the Fetch `Headers` class stores names. */
  function LowerAscii(s: string): string
  {
    seq(|s|, i requires 0 <= i < |s| => LowerChar(s[i]))
  }

  // ---------------------------------------------------------------------------
  // Number.prototype.toString on integers, with its parser

  predicate IsDigit(ch: char) { '0' <= ch <= '9' }

  predicate AllDigits(s: string) { forall i :: 0 <= i < |s| ==> IsDigit(s[i]) }

  function DigitChar(d: nat): char
    requires d < 10
  {
    ('0' as int + d) as char
  }

  /** The decimal numeral of `n`: digits only, no leading zero unless `n` is zero. */
  function NatToDecimal(n: nat): (r: string)
    ensures r != [] && AllDigits(r)
    ensures r[0] == '0' ==> r == "0"
    decreases n
  {
    if n < 10 then [DigitChar(n)] else NatToDecimal(n / 10) + [DigitChar(n % 10)]
  }

  function DecimalValue(s: string): nat
    requires AllDigits(s)
    decreases |s|
  {
    if s == [] then 0
    else 10 * DecimalValue(s[..|s| - 1]) + (s[|s| - 1] as int - '0' as int)
  }

  /** The numeral of `n` reads back as `n`. */
  lemma {:induction false} DecimalRoundTrip(n: nat)
    ensures DecimalValue(NatToDecimal(n)) == n
    decreases n
  {
    if n >= 10 {
      DecimalRoundTrip(n / 10);
      var s := NatToDecimal(n);
      assert s[..|s| - 1] == NatToDecimal(n / 10);
    }
  }

  /** `n.toString()` for an integer `n`. */
  function IntToString(n: int): (r: string)
  {
    if n < 0 then "-" + NatToDecimal(-n) else NatToDecimal(n)
  }

  /** Reads an optionally signed decimal numeral. */
  function ParseInt(s: string): Option<int>
  {
    if |s| >= 2 && s[0] == '-' && AllDigits(s[1..]) then Some(-(DecimalValue(s[1..]) as int))
    else if |s| >= 1 && AllDigits(s) then Some(DecimalValue(s))
    else None
  }

  /** `toString` on integers is injective: its output parses back to the number. */
  lemma IntToStringRoundTrip(n: int)
    ensures ParseInt(IntToString(n)) == Some(n)
  {
    if n < 0 {
      DecimalRoundTrip(-n);
      assert IntToString(n)[1..] == NatToDecimal(-n);
    } else {
      DecimalRoundTrip(n);
    }
  }

  // ---------------------------------------------------------------------------
  // The string escaping of JSON.stringify, with a JSON string-content decoder

  function HexDigit(d: nat): char
    requires d < 16
  {
    if d < 10 then ('0' as int + d) as char else ('a' as int + d - 10) as char
  }

  function HexValue(ch: char): Option<nat>
  {
    if '0' <= ch <= '9' then Some(ch as int - '0' as int)
    else if 'a' <= ch <= 'f' then Some(ch as int - 'a' as int + 10)
    else if 'A' <= ch <= 'F' then Some(ch as int - 'A' as int + 10)
    else None
  }

  /** How JSON.stringify writes one character inside a string literal. */
  function EscapeChar(ch: char): string
  {
    if ch == '"' then "\\\""
    else if ch == '\\' then "\\\\"
    else if ch as int == 0x08 then "\\b"
    else if ch as int == 0x0C then "\\f"
    else if ch == '\n' then "\\n"
    else if ch == '\r' then "\\r"
    else if ch == '\t' then "\\t"
    else if ch as int < 0x20 then "\\u00" + [HexDigit(ch as int / 16), HexDigit(ch as int % 16)]
    else [ch]
  }

  function JsonEscape(s: string): string
    decreases |s|
  {
    if s == [] then [] else EscapeChar(s[0]) + JsonEscape(s[1..])
  }

  /** A character `JSON.stringify` writes as itself. */
  predicate IsPlainJsonChar(ch: char)
  {
    ch != '"' && ch != '\\' && ch as int >= 0x20
  }

  /** Text without quotes, backslashes or control characters is written unchanged. */
  lemma {:induction false} JsonEscapePlain(s: string)
    requires forall i :: 0 <= i < |s| ==> IsPlainJsonChar(s[i])
    ensures JsonEscape(s) == s
    decreases |s|
  {
    if s != [] {
      JsonEscapePlain(s[1..]);
      assert s == [s[0]] + s[1..];
    }
  }

  function Prepend(ch: char, rest: Option<string>): Option<string>
  {
    match rest
    case Some(t) => Some([ch] + t)
    case None => None
  }

  /**
   * Decodes the content of a JSON string literal (between the quotes). Escapes of
   * UTF-16 surrogates are not decoded (a `char` here is a Unicode scalar value).
   */
  function JsonUnescape(t: string): Option<string>
    decreases |t|
  {
    if t == [] then Some([])
    else if t[0] == '\\' then
      if |t| < 2 then None
      else if t[1] == '"' then Prepend('"', JsonUnescape(t[2..]))
      else if t[1] == '\\' then Prepend('\\', JsonUnescape(t[2..]))
      else if t[1] == '/' then Prepend('/', JsonUnescape(t[2..]))
      else if t[1] == 'b' then Prepend(8 as char, JsonUnescape(t[2..]))
      else if t[1] == 'f' then Prepend(12 as char, JsonUnescape(t[2..]))
      else if t[1] == 'n' then Prepend('\n', JsonUnescape(t[2..]))
      else if t[1] == 'r' then Prepend('\r', JsonUnescape(t[2..]))
      else if t[1] == 't' then Prepend('\t', JsonUnescape(t[2..]))
      else if t[1] == 'u' && |t| >= 6
        && HexValue(t[2]).Some? && HexValue(t[3]).Some?
        && HexValue(t[4]).Some? && HexValue(t[5]).Some? then
        var v := HexValue(t[2]).value * 4096 + HexValue(t[3]).value * 256
          + HexValue(t[4]).value * 16 + HexValue(t[5]).value;
        if 0xD800 <= v <= 0xDFFF then None
        else Prepend(v as char, JsonUnescape(t[6..]))
      else None
    else if t[0] == '"' || t[0] as int < 0x20 then None
    else Prepend(t[0], JsonUnescape(t[1..]))
  }

  lemma UnescapeOne(ch: char, rest: string)
    ensures JsonUnescape(EscapeChar(ch) + rest) == Prepend(ch, JsonUnescape(rest))
  {
    var e := EscapeChar(ch);
    var t := e + rest;
    if ch as int < 0x20 && ch != '\n' && ch != '\r' && ch != '\t'
      && ch as int != 0x08 && ch as int != 0x0C {
      var hi, lo := ch as int / 16, ch as int % 16;
      assert t[0] == '\\' && t[1] == 'u' && t[2] == '0' && t[3] == '0';
      assert t[4] == HexDigit(hi) && t[5] == HexDigit(lo);
      assert HexValue(t[4]) == Some(hi);
      assert HexValue(t[5]) == Some(lo);
      assert t[6..] == rest;
    } else if |e| == 2 {
      assert t[2..] == rest;
    } else {
      assert t[1..] == rest;
    }
  }

  /** Decoding what JSON.stringify wrote gives back the original string. */
  lemma {:induction false} JsonRoundTrip(s: string)
    ensures JsonUnescape(JsonEscape(s)) == Some(s)
    decreases |s|
  {
    if s != [] {
      JsonRoundTrip(s[1..]);
      UnescapeOne(s[0], JsonEscape(s[1..]));
      assert s == [s[0]] + s[1..];
    }
  }
}

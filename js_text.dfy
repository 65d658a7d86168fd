/**
 * The string primitives the source relies on: `String.prototype.split` with a
 * one-character separator, `Number(string)` for numeric literals (`Infinity` aside), and
 * the zero-padded decimal rendering used by `Date.prototype.toISOString`.
 */
module JsText {
  import opened Wrappers

  /** s.split(sep) for a one-character separator. */
  function Split(s: string, sep: char): (r: seq<string>)
    ensures |r| >= 1
    ensures forall i :: 0 <= i < |r| ==> sep !in r[i]
    ensures Join(r, sep) == s
  {
    if |s| == 0 then [""]
    else if s[0] == sep then
      assert s == [sep] + s[1..];
      [""] + Split(s[1..], sep)
    else
      var t := Split(s[1..], sep);
      assert [s[0]] + Join(t, sep) == s;
      JoinHead(t, sep, [s[0]]);
      [[s[0]] + t[0]] + t[1..]
  }

  /** parts.join(sep), the inverse of Split. */
  function Join(parts: seq<string>, sep: char): string
    requires |parts| >= 1
  {
    if |parts| == 1 then parts[0] else parts[0] + [sep] + Join(parts[1..], sep)
  }

  lemma JoinHead(t: seq<string>, sep: char, c: string)
    requires |t| >= 1
    ensures Join([c + t[0]] + t[1..], sep) == c + Join(t, sep)
  {
    var u := [c + t[0]] + t[1..];
    assert u[1..] == t[1..];
  }

  /** Splitting a join of separator-free parts gives the parts back. */
  lemma {:induction false} SplitJoin(parts: seq<string>, sep: char)
    requires |parts| >= 1
    requires forall i :: 0 <= i < |parts| ==> sep !in parts[i]
    ensures Split(Join(parts, sep), sep) == parts
  {
    if |parts| == 1 {
      SplitNoSep(parts[0], sep);
    } else {
      SplitJoin(parts[1..], sep);
      SplitPrefix(parts[0], Join(parts[1..], sep), sep);
      assert Split(Join(parts, sep), sep) == [parts[0]] + parts[1..];
    }
  }

  lemma {:induction false} SplitNoSep(s: string, sep: char)
    requires sep !in s
    ensures Split(s, sep) == [s]
  {
    if |s| > 0 {
      SplitNoSep(s[1..], sep);
      assert [s[0]] + s[1..] == s;
    }
  }

  lemma {:induction false} SplitPrefix(a: string, rest: string, sep: char)
    requires sep !in a
    ensures Split(a + [sep] + rest, sep) == [a] + Split(rest, sep)
  {
    if |a| == 0 {
      assert a + [sep] + rest == [sep] + rest;
      assert ([sep] + rest)[1..] == rest;
    } else {
      assert (a + [sep] + rest)[1..] == a[1..] + [sep] + rest;
      SplitPrefix(a[1..], rest, sep);
      assert [a[0]] + a[1..] == a;
    }
  }

  predicate IsDigit(c: char)
  {
    '0' <= c <= '9'
  }

  predicate AllDigits(s: string)
  {
    forall i :: 0 <= i < |s| ==> IsDigit(s[i])
  }

  function DigitChar(d: nat): (c: char)
    requires d < 10
    ensures IsDigit(c) && c as int - '0' as int == d
  {
    ('0' as int + d) as char
  }

  /** The value of a string of decimal digits, most significant first. */
  function DigitsValue(s: string): nat
    requires AllDigits(s)
  {
    if |s| == 0 then 0
    else DigitsValue(s[..|s| - 1]) * 10 + (s[|s| - 1] as int - '0' as int)
  }

  /** 10^w as an integer. */
  function Pow10Int(w: nat): (r: nat)
    ensures r >= 1
  {
    if w == 0 then 1 else 10 * Pow10Int(w - 1)
  }

  /** n rendered in exactly w digits, zero-padded on the left (n < 10^w). */
  function Padded(n: nat, w: nat): (r: string)
    requires n < Pow10Int(w)
    ensures |r| == w && AllDigits(r)
  {
    if w == 0 then "" else Padded(n / 10, w - 1) + [DigitChar(n % 10)]
  }

  /** The padded digits spell n. */
  lemma {:induction false} PaddedValue(n: nat, w: nat)
    requires n < Pow10Int(w)
    ensures DigitsValue(Padded(n, w)) == n
  {
    if w > 0 {
      var r := Padded(n, w);
      assert r[..|r| - 1] == Padded(n / 10, w - 1);
      PaddedValue(n / 10, w - 1);
    }
  }

  /**
   * The white space and line terminators `Number` trims: tab, line feed,
   * vertical tab, form feed, carriage return, space, no-break space, the
   * other Unicode space separators, the line and paragraph separators and
   * the byte order mark.
   */
  predicate IsJsSpace(c: char)
  {
    || '\t' <= c <= '\r' || c == ' ' || c == '\U{A0}' || c == '\U{1680}'
    || '\U{2000}' <= c <= '\U{200A}' || c == '\U{2028}' || c == '\U{2029}'
    || c == '\U{202F}' || c == '\U{205F}' || c == '\U{3000}' || c == '\U{FEFF}'
  }

  predicate AllJsSpace(s: string)
  {
    forall i :: 0 <= i < |s| ==> IsJsSpace(s[i])
  }

  /** s without its leading white space. */
  function TrimStart(s: string): string
  {
    if |s| == 0 || !IsJsSpace(s[0]) then s else TrimStart(s[1..])
  }

  /** s without its trailing white space. */
  function TrimEnd(s: string): string
  {
    if |s| == 0 || !IsJsSpace(s[|s| - 1]) then s else TrimEnd(s[..|s| - 1])
  }

  /** s.trim(): both ends stripped of white space. */
  function Trim(s: string): string
  {
    TrimEnd(TrimStart(s))
  }

  /** Trimming white space leaves nothing. */
  lemma {:induction false} TrimOfSpaces(s: string)
    ensures AllJsSpace(s) ==> TrimStart(s) == "" && Trim(s) == ""
  {
    if |s| > 0 && AllJsSpace(s) {
      assert IsJsSpace(s[0]);
      assert AllJsSpace(s[1..]) by {
        forall i | 0 <= i < |s| - 1 ensures IsJsSpace(s[1..][i]) {
          assert s[1..][i] == s[i + 1];
        }
      }
      TrimOfSpaces(s[1..]);
    }
  }

  /** The value of the digit c in the given radix (2 to 16), or None. */
  function RadixDigit(c: char, radix: nat): (r: Option<nat>)
    requires 2 <= radix <= 16
    ensures r.Some? ==> r.value < radix
  {
    var v :=
      if '0' <= c <= '9' then c as int - '0' as int
      else if 'a' <= c <= 'f' then c as int - 'a' as int + 10
      else if 'A' <= c <= 'F' then c as int - 'A' as int + 10
      else 16;
    if v < radix then Some(v) else None
  }

  /** The value of a string of digits in the given radix, most significant first; None if one is not a digit. */
  function RadixValue(s: string, radix: nat): (r: Option<nat>)
    requires 2 <= radix <= 16
  {
    if |s| == 0 then Some(0)
    else
      match (RadixValue(s[..|s| - 1], radix), RadixDigit(s[|s| - 1], radix))
      case (Some(high), Some(d)) => Some(high * radix + d)
      case _ => None
  }

  /** A non-empty string of radix digits: the `0x`, `0o` and `0b` literals. */
  function RadixInteger(s: string, radix: nat): (r: Option<real>)
    requires 2 <= radix <= 16
    ensures s == "" ==> r == None
  {
    if s == "" then None
    else
      match RadixValue(s, radix)
      case Some(v) => Some(v as real)
      case None => None
  }

  /** m times 10^e, for a whole exponent of either sign. */
  function Scale(m: real, e: int): real
  {
    if e >= 0 then m * Pow10Int(e) as real else m / Pow10Int(-e) as real
  }

  /** The value of `digits[.digits]` or `.digits` (at least one digit), or None. */
  function DecimalMantissa(s: string): Option<real>
  {
    if '.' in s then
      var k := FirstIndex(s, '.');
      var whole, frac := s[..k], s[k + 1..];
      if AllDigits(whole) && AllDigits(frac) && |whole| + |frac| > 0 then
        Some(DigitsValue(whole) as real + DigitsValue(frac) as real / Pow10Int(|frac|) as real)
      else None
    else if AllDigits(s) && |s| > 0 then Some(DigitsValue(s) as real)
    else None
  }

  /** The exponent after `e`: an optional sign and at least one digit. */
  function Exponent(s: string): Option<int>
  {
    if |s| > 0 && (s[0] == '+' || s[0] == '-') then
      var digits := s[1..];
      if AllDigits(digits) && |digits| > 0 then
        var v: int := DigitsValue(digits);
        Some(if s[0] == '-' then -v else v)
      else None
    else if AllDigits(s) && |s| > 0 then Some(DigitsValue(s))
    else None
  }

  /** The position of the first `e` or `E` in s, if any. */
  function ExponentMark(s: string): (k: Option<nat>)
    ensures k.None? <==> 'e' !in s && 'E' !in s
    ensures k.Some? ==> k.value < |s| && (s[k.value] == 'e' || s[k.value] == 'E')
    ensures k.Some? ==> 'e' !in s[..k.value] && 'E' !in s[..k.value]
  {
    if |s| == 0 then None
    else if s[0] == 'e' || s[0] == 'E' then Some(0)
    else
      match ExponentMark(s[1..])
      case Some(k) =>
        assert s[..k + 1] == [s[0]] + s[1..][..k];
        Some(k + 1)
      case None =>
        assert s == [s[0]] + s[1..];
        None
  }

  /** The value of an unsigned decimal literal: a mantissa and an optional exponent, or None. */
  function UnsignedDecimal(s: string): Option<real>
  {
    match ExponentMark(s)
    case None => DecimalMantissa(s)
    case Some(k) =>
      match (DecimalMantissa(s[..k]), Exponent(s[k + 1..]))
      case (Some(m), Some(e)) => Some(Scale(m, e))
      case _ => None
  }

  function FirstIndex(s: string, c: char): (k: nat)
    requires c in s
    ensures k < |s| && s[k] == c && c !in s[..k]
  {
    if s[0] == c then 0 else
      var k := FirstIndex(s[1..], c);
      assert s[1..][..k] == s[1..k + 1];
      k + 1
  }

  /** Number() of a trimmed, non-empty text. */
  function NumericLiteral(t: string): Option<real>
  {
    if |t| >= 2 && t[0] == '0' && (t[1] == 'x' || t[1] == 'X') then RadixInteger(t[2..], 16)
    else if |t| >= 2 && t[0] == '0' && (t[1] == 'o' || t[1] == 'O') then RadixInteger(t[2..], 8)
    else if |t| >= 2 && t[0] == '0' && (t[1] == 'b' || t[1] == 'B') then RadixInteger(t[2..], 2)
    else if |t| > 0 && t[0] == '+' then UnsignedDecimal(t[1..])
    else if |t| > 0 && t[0] == '-' then
      match UnsignedDecimal(t[1..])
      case Some(v) => Some(-v)
      case None => None
    else UnsignedDecimal(t)
  }

  /**
   * Number(s) on a string: white space around the literal is ignored, a text
   * of white space only is 0, and the literal is a `0x`/`0o`/`0b` integer or
   * a decimal with an optional sign, fraction and exponent. Anything else,
   * and `Infinity`, is None.
   */
  function JsNumber(s: string): (r: Option<real>)
    ensures AllJsSpace(s) ==> r == Some(0.0)
  {
    TrimOfSpaces(s);
    var t := Trim(s);
    if t == "" then Some(0.0) else NumericLiteral(t)
  }

  /** A text with no white space at either end is its own trim. */
  lemma TrimUntrimmed(s: string)
    requires |s| > 0 && !IsJsSpace(s[0]) && !IsJsSpace(s[|s| - 1])
    ensures Trim(s) == s
  {
  }

  /** A string of decimal digits is its own trim. */
  lemma DigitsUntrimmed(s: string)
    requires AllDigits(s) && |s| > 0
    ensures Trim(s) == s
  {
    assert !IsJsSpace(s[0]) by { assert IsDigit(s[0]); }
    assert !IsJsSpace(s[|s| - 1]) by { assert IsDigit(s[|s| - 1]); }
    TrimUntrimmed(s);
  }

  /** A string of decimal digits is a literal with their value. */
  lemma DigitsLiteral(s: string)
    requires AllDigits(s) && |s| > 0
    ensures NumericLiteral(s) == Some(DigitsValue(s) as real)
  {
    assert 'e' !in s && 'E' !in s && '.' !in s by {
      forall i | 0 <= i < |s| ensures s[i] != 'e' && s[i] != 'E' && s[i] != '.' {
        assert IsDigit(s[i]);
      }
    }
    assert ExponentMark(s) == None;
    assert UnsignedDecimal(s) == Some(DigitsValue(s) as real);
    assert IsDigit(s[0]) && (|s| < 2 || IsDigit(s[1]));
  }

  /** Number() of a text without surrounding white space reads the literal itself. */
  lemma JsNumberOfTrimmed(s: string)
    requires Trim(s) == s && s != ""
    ensures JsNumber(s) == NumericLiteral(s)
  {
  }

  /** Number() of a non-empty string of decimal digits is their value. */
  lemma DigitsReadBack(s: string)
    requires AllDigits(s) && |s| > 0
    ensures JsNumber(s) == Some(DigitsValue(s) as real)
  {
    DigitsUntrimmed(s);
    DigitsLiteral(s);
    JsNumberOfTrimmed(s);
  }

  /** Number() reads back every zero-padded rendering of a natural number. */
  lemma PaddedReadsBack(n: nat, w: nat)
    requires n < Pow10Int(w) && w > 0
    ensures JsNumber(Padded(n, w)) == Some(n as real)
  {
    PaddedValue(n, w);
    DigitsReadBack(Padded(n, w));
  }

  lemma {:induction false} TrimStartSpaces(a: string, x: string)
    requires AllJsSpace(a)
    ensures TrimStart(a + x) == TrimStart(x)
  {
    if |a| > 0 {
      assert (a + x)[1..] == a[1..] + x;
      assert (a + x)[0] == a[0] && IsJsSpace(a[0]);
      assert AllJsSpace(a[1..]) by {
        forall i | 0 <= i < |a| - 1 ensures IsJsSpace(a[1..][i]) {
          assert a[1..][i] == a[i + 1];
        }
      }
      TrimStartSpaces(a[1..], x);
    } else {
      assert a + x == x;
    }
  }

  lemma {:induction false} TrimStartKeepsTail(s: string, b: string)
    requires !AllJsSpace(s)
    ensures TrimStart(s + b) == TrimStart(s) + b
  {
    if IsJsSpace(s[0]) {
      assert (s + b)[1..] == s[1..] + b;
      TrimStartKeepsTail(s[1..], b);
    }
  }

  lemma {:induction false} TrimEndSpaces(x: string, b: string)
    requires AllJsSpace(b)
    ensures TrimEnd(x + b) == TrimEnd(x)
  {
    if |b| > 0 {
      var init := b[..|b| - 1];
      assert (x + b)[..|x + b| - 1] == x + init;
      assert (x + b)[|x + b| - 1] == b[|b| - 1] && IsJsSpace(b[|b| - 1]);
      assert AllJsSpace(init) by {
        forall i | 0 <= i < |init| ensures IsJsSpace(init[i]) {
          assert init[i] == b[i];
        }
      }
      TrimEndSpaces(x, init);
    } else {
      assert x + b == x;
    }
  }

  /** White space around a text changes nothing Number() reads. */
  lemma WhitespaceIgnored(a: string, s: string, b: string)
    requires AllJsSpace(a) && AllJsSpace(b)
    ensures JsNumber(a + s + b) == JsNumber(s)
  {
    assert a + s + b == a + (s + b);
    TrimStartSpaces(a, s + b);
    if AllJsSpace(s) {
      assert AllJsSpace(s + b);
    } else {
      TrimStartKeepsTail(s, b);
      TrimEndSpaces(TrimStart(s), b);
    }
  }

  /** Number() of digits, an exponent mark and an exponent text splits at the mark. */
  lemma ExponentAt(m: string, mark: char, e: string)
    requires AllDigits(m) && |m| > 0 && |e| > 0 && IsDigit(e[|e| - 1]) && (mark == 'e' || mark == 'E')
    ensures JsNumber(m + [mark] + e) ==
      (match Exponent(e) case Some(x) => Some(Scale(DigitsValue(m) as real, x)) case None => None)
  {
    var s := m + [mark] + e;
    assert IsDigit(s[0]) && s[|s| - 1] == e[|e| - 1];
    assert !IsJsSpace(s[0]) && !IsJsSpace(s[|s| - 1]);
    TrimUntrimmed(s);
    JsNumberOfTrimmed(s);
    assert IsDigit(s[1]) || s[1] == mark;
    DigitLed(s);
    UnsignedAt(m, mark, e);
  }

  /** A literal that starts with a digit and no radix prefix is an unsigned decimal. */
  lemma DigitLed(s: string)
    requires |s| >= 2 && IsDigit(s[0]) && (IsDigit(s[1]) || s[1] == 'e' || s[1] == 'E')
    ensures NumericLiteral(s) == UnsignedDecimal(s)
  {
  }

  /** An unsigned literal splits at its first exponent mark. */
  lemma UnsignedAt(m: string, mark: char, e: string)
    requires AllDigits(m) && |m| > 0 && (mark == 'e' || mark == 'E')
    ensures UnsignedDecimal(m + [mark] + e) ==
      (match Exponent(e) case Some(x) => Some(Scale(DigitsValue(m) as real, x)) case None => None)
  {
    assert '.' !in m && 'e' !in m && 'E' !in m by {
      forall i | 0 <= i < |m| ensures m[i] != '.' && m[i] != 'e' && m[i] != 'E' {
        assert IsDigit(m[i]);
      }
    }
    ExponentMarkAt(m, mark, e);
    var s := m + [mark] + e;
    assert s[..|m|] == m && s[|m| + 1..] == e;
    assert DecimalMantissa(m) == Some(DigitsValue(m) as real);
  }

  lemma ExponentMarkAt(m: string, mark: char, e: string)
    requires 'e' !in m && 'E' !in m && (mark == 'e' || mark == 'E')
    ensures ExponentMark(m + [mark] + e) == Some(|m|)
  {
    var s := m + [mark] + e;
    assert s[|m|] == mark;
  }

  /** A cell of decimal digits with white space around it reads as the digits' value. */
  lemma SpacedDigits(a: string, d: string, b: string)
    requires AllJsSpace(a) && AllJsSpace(b) && AllDigits(d) && |d| > 0
    ensures JsNumber(a + d + b) == Some(DigitsValue(d) as real)
  {
    WhitespaceIgnored(a, d, b);
    DigitsReadBack(d);
  }

  lemma TwoDigits(s: string)
    requires |s| == 2 && AllDigits(s)
    ensures DigitsValue(s) == (s[0] as int - '0' as int) * 10 + (s[1] as int - '0' as int)
  {
    assert s[..1][..0] == [];
    assert DigitsValue(s[..1]) == s[0] as int - '0' as int;
  }

  /** Spaces around a cell's digits are ignored, and a blank cell reads as 0. */
  // The texts come in as parameters fixed by the precondition: stated as
  // literals in the ensures, the solver keeps unfolding Trim and Number on them.
  lemma PaddedCellExamples(leading: string, trailing: string, blank: string)
    requires leading == " 12" && trailing == "12 " && blank == " "
    ensures JsNumber(leading) == Some(12.0) && JsNumber(trailing) == Some(12.0)
    ensures JsNumber(blank) == Some(0.0)
  {
    assert |blank| == 1 && IsJsSpace(blank[0]);
    assert AllJsSpace(blank) && AllJsSpace("");
    var twelve := leading[1..];
    assert twelve == trailing[..2] && |twelve| == 2 && twelve[0] == '1' && twelve[1] == '2';
    assert AllDigits(twelve);
    TwoDigits(twelve);
    assert leading == blank + twelve + "";
    SpacedDigits(blank, twelve, "");
    assert trailing == "" + twelve + blank;
    SpacedDigits("", twelve, blank);
  }

  lemma OneDigit(s: string)
    requires |s| == 1 && IsDigit(s[0])
    ensures AllDigits(s) && DigitsValue(s) == s[0] as int - '0' as int
  {
    assert s[..0] == [];
  }

  /** `1e3` is a thousand and `15E-1` one and a half. */
  // The texts come in as parameters fixed by the precondition: stated as
  // literals in the ensures, the solver keeps unfolding Trim and Number on them.
  lemma ExponentExamples(thousand: string, oneAndAHalf: string)
    requires thousand == "1e3" && oneAndAHalf == "15E-1"
    ensures JsNumber(thousand) == Some(1000.0) && JsNumber(oneAndAHalf) == Some(1.5)
  {
    var one, three := thousand[..1], thousand[2..];
    assert thousand == one + ['e'] + three;
    OneDigit(one);
    OneDigit(three);
    ExponentAt(one, 'e', three);
    assert Exponent(three) == Some(3);
    assert Pow10Int(3) == 1000 by {
      assert Pow10Int(1) == 10 && Pow10Int(2) == 100;
    }
    assert Scale(1.0, 3) == 1000.0;
    var fifteen, minusOne := oneAndAHalf[..2], oneAndAHalf[3..];
    assert oneAndAHalf == fifteen + ['E'] + minusOne;
    assert AllDigits(fifteen);
    TwoDigits(fifteen);
    OneDigit(minusOne[1..]);
    ExponentAt(fifteen, 'E', minusOne);
    assert Exponent(minusOne) == Some(-1);
    assert Pow10Int(1) == 10;
    assert Scale(15.0, -1) == 1.5;
  }

  /** Hexadecimal and binary literals are read; a sign before them is NaN. */
  // The texts come in as parameters fixed by the precondition: stated as
  // literals in the ensures, the solver keeps unfolding Trim and Number on them.
  lemma RadixExamples(hex: string, bin: string, signedHex: string)
    requires hex == "0x10" && bin == "0b11" && signedHex == "-0x10"
    ensures JsNumber(hex) == Some(16.0) && JsNumber(bin) == Some(3.0)
    ensures JsNumber(signedHex) == None
  {
    TrimUntrimmed(hex);
    JsNumberOfTrimmed(hex);
    assert hex[2..] == "10" && "10"[..1] == "1" && "1"[..0] == "";
    assert RadixValue("10", 16) == Some(16);
    TrimUntrimmed(bin);
    JsNumberOfTrimmed(bin);
    assert bin[2..] == "11" && "11"[..1] == "1";
    assert RadixValue("11", 2) == Some(3);
    TrimUntrimmed(signedHex);
    JsNumberOfTrimmed(signedHex);
    assert signedHex[1..] == hex;
    assert ExponentMark(hex) == None;
    assert '.' !in hex;
    assert !AllDigits(hex) by { assert !IsDigit(hex[1]); }
    assert UnsignedDecimal(hex) == None;
  }
}

/**
 * The two decimal parsers the deposit chaincode uses: Go's
 * `strconv.ParseUint(s, 10, 64)` and `strconv.ParseInt(s, 10, 64)`, with
 * their failure kinds and the text of their errors, together with the
 * decimal form they read back.
 */
module Strconv {
  import opened Wrappers
  import opened Uint64

  /** `strconv.ErrSyntax` or `strconv.ErrRange`. */
  datatype NumError = Syntax | Range

  const MAX_UINT64: nat := TWO_64 - 1

  predicate IsDigit(c: char)
  {
    '0' <= c <= '9'
  }

  function DigitValue(c: char): nat
    requires IsDigit(c)
  {
    c as int - '0' as int
  }

  /** The value `n` becomes after the digits of `s` are shifted in from the left. */
  function Fold(n: nat, s: string): nat
    requires forall i | 0 <= i < |s| :: IsDigit(s[i])
    decreases s
  {
    if s == [] then n else Fold(n * 10 + DigitValue(s[0]), s[1..])
  }

  /**
   * The digit loop of `ParseUint` from accumulated value `n`: a non-digit is
   * a syntax error and the first digit that takes the value past 2^64 - 1 a
   * range error, whichever comes first.
   */
  function Scan(s: string, n: nat): Result<nat, NumError>
  {
    if s == [] then Ok(n)
    else if !IsDigit(s[0]) then Err(Syntax)
    else if n * 10 + DigitValue(s[0]) > MAX_UINT64 then Err(Range)
    else Scan(s[1..], n * 10 + DigitValue(s[0]))
  }

  /** `strconv.ParseUint(s, 10, 64)`. */
  function ParseUint(s: string): (r: Result<U64, NumError>)
    ensures r.Ok? ==> s != [] && forall i | 0 <= i < |s| :: IsDigit(s[i])
  {
    if s == [] then Err(Syntax)
    else
      ScanDigitsOnly(s, 0);
      match Scan(s, 0)
      case Err(e) => Err(e)
      case Ok(n) => ScanBounded(s, 0); Ok(n)
  }

  /** `strconv.ParseInt(s, 10, 64)`: an optional sign, then `ParseUint`'s loop, then the int64 range. */
  function ParseInt(s: string): Result<I64, NumError>
  {
    if s == [] then Err(Syntax)
    else
      var neg := s[0] == '-';
      var rest := if s[0] == '+' || s[0] == '-' then s[1..] else s;
      match ParseUint(rest)
      case Err(Syntax) => Err(Syntax)
      case Err(Range) => Err(Range)
      case Ok(un) =>
        if !neg && un >= TWO_63 then Err(Range)
        else if neg && un > TWO_63 then Err(Range)
        else
          var v: I64 := if neg then 0 - un else un;
          Ok(v)
  }

  /**
   * The text of a parse error (`NumError.Error`): `strconv.ParseInt: parsing
   * "s": invalid syntax` and the like, with the input written as `Quote` writes it.
   */
  function ErrorText(fn: string, s: string, e: NumError): string
  {
    fn + ": parsing " + Quote(s) + ": " + (if e == Syntax then "invalid syntax" else "value out of range")
  }

  // ---------------------------------------------------------------------------
  // strconv.Quote
  // ---------------------------------------------------------------------------

  const LOWER_HEX: string := "0123456789abcdef"

  /**
   * `strconv.IsPrint` on the characters up to U+00FF: the ASCII graphic
   * characters and space, and U+00A1 to U+00FF except the soft hyphen.
   * Characters above U+00FF are taken as printable.
   */
  predicate IsPrint(c: char)
  {
    var v := c as int;
    (0x20 <= v <= 0x7E) || (0xA1 <= v && v != 0xAD)
  }

  /** The last `n` hex digits of `v`, lower case, most significant first. */
  function HexDigits(v: nat, n: nat): (r: string)
    ensures |r| == n
  {
    if n == 0 then [] else HexDigits(v / 16, n - 1) + [LOWER_HEX[v % 16]]
  }

  /** The letter of the one-letter escape of a control character, if it has one. */
  function EscapeLetter(v: int): Option<char>
  {
    if v == 7 then Some('a')
    else if v == 8 then Some('b')
    else if v == 12 then Some('f')
    else if v == 10 then Some('n')
    else if v == 13 then Some('r')
    else if v == 9 then Some('t')
    else if v == 11 then Some('v')
    else None
  }

  /**
   * How `Quote` writes one character: the quote and the backslash behind a
   * backslash, a printable character as itself, a control character with a
   * one-letter escape by it, other characters below U+0020 and DEL as `\x`
   * and two hex digits, and the rest (all below U+0100 here) as `\u` and four.
   */
  function EscapeChar(c: char): (r: string)
    ensures r != []
    ensures r[0] == '\\' <==> c == '"' || c == '\\' || !IsPrint(c)
  {
    var v := c as int;
    if c == '"' || c == '\\' then ['\\', c]
    else if IsPrint(c) then [c]
    else if EscapeLetter(v).Some? then ['\\', EscapeLetter(v).value]
    else if v < 0x20 || v == 0x7F then ['\\', 'x'] + HexDigits(v, 2)
    else ['\\', 'u'] + HexDigits(v, 4)
  }

  /** The characters of `s`, each written as `EscapeChar` writes it. */
  function Escaped(s: string): string
  {
    if s == [] then [] else EscapeChar(s[0]) + Escaped(s[1..])
  }

  /** `strconv.Quote`: the escaped characters between double quotes. */
  function Quote(s: string): string
  {
    "\"" + Escaped(s) + "\""
  }

  // ---------------------------------------------------------------------------
  // Reading a quoted text back
  // ---------------------------------------------------------------------------

  /** The value of a lower-case hex digit. */
  function HexValue(c: char): Option<nat>
  {
    if '0' <= c <= '9' then Some(c as int - '0' as int)
    else if 'a' <= c <= 'f' then Some(c as int - 'a' as int + 10)
    else None
  }

  /** The number a string of lower-case hex digits spells, most significant first. */
  function FromHex(t: string): Option<nat>
  {
    if t == [] then Some(0)
    else
      match (FromHex(t[..|t| - 1]), HexValue(t[|t| - 1]))
      case (Some(hi), Some(lo)) => Some(hi * 16 + lo)
      case _ => None
  }

  /** The control character a one-letter escape stands for. */
  function LetterValue(e: char): Option<char>
  {
    if e == 'a' then Some(7 as char)
    else if e == 'b' then Some(8 as char)
    else if e == 'f' then Some(12 as char)
    else if e == 'n' then Some(10 as char)
    else if e == 'r' then Some(13 as char)
    else if e == 't' then Some(9 as char)
    else if e == 'v' then Some(11 as char)
    else None
  }

  /** The number of hex digits after `\x`, `\u` and `\U`. */
  function HexWidth(e: char): nat
  {
    if e == 'x' then 2 else if e == 'u' then 4 else if e == 'U' then 8 else 0
  }

  function Prepend(c: char, r: Option<string>): Option<string>
  {
    match r
    case Some(t) => Some([c] + t)
    case None => None
  }

  /** The characters an escaped text stands for, or nothing for a malformed escape. */
  function Unescape(t: string): Option<string>
    decreases |t|
  {
    if t == [] then Some([])
    else if t[0] != '\\' then Prepend(t[0], Unescape(t[1..]))
    else if |t| < 2 then None
    else
      var e := t[1];
      if e == '"' || e == '\\' then Prepend(e, Unescape(t[2..]))
      else if LetterValue(e).Some? then Prepend(LetterValue(e).value, Unescape(t[2..]))
      else if HexWidth(e) == 0 || |t| < 2 + HexWidth(e) then None
      else
        match FromHex(t[2..2 + HexWidth(e)])
        case None => None
        case Some(v) =>
          if 0 <= v < 0xD800 || 0xE000 <= v < 0x11_0000 then Prepend(v as char, Unescape(t[2 + HexWidth(e)..]))
          else None
  }

  /** The shortest decimal form of a number (`strconv.FormatUint`). */
  function FormatNat(x: nat): (r: string)
    ensures r != [] && forall i | 0 <= i < |r| :: IsDigit(r[i])
  {
    var d := ['0' + (x % 10) as char];
    if x < 10 then d else FormatNat(x / 10) + d
  }

  /** The decimal form of a signed number (`strconv.FormatInt`). */
  function FormatInt(i: int): string
  {
    if i < 0 then "-" + FormatNat(-i) else FormatNat(i)
  }

  /** 16 to the power `n`. */
  function Pow16(n: nat): nat
  {
    if n == 0 then 1 else 16 * Pow16(n - 1)
  }

  // ---------------------------------------------------------------------------
  // Lemmas
  // ---------------------------------------------------------------------------

  lemma {:induction false} ScanDigitsOnly(s: string, n: nat)
    ensures Scan(s, n).Ok? ==> forall i | 0 <= i < |s| :: IsDigit(s[i])
  {
    if s != [] && IsDigit(s[0]) && n * 10 + DigitValue(s[0]) <= MAX_UINT64 {
      ScanDigitsOnly(s[1..], n * 10 + DigitValue(s[0]));
      assert forall i | 1 <= i < |s| :: s[i] == s[1..][i - 1];
    }
  }

  lemma {:induction false} ScanBounded(s: string, n: nat)
    requires n <= MAX_UINT64
    ensures Scan(s, n).Ok? ==> Scan(s, n).value <= MAX_UINT64
  {
    if s != [] && IsDigit(s[0]) && n * 10 + DigitValue(s[0]) <= MAX_UINT64 {
      ScanBounded(s[1..], n * 10 + DigitValue(s[0]));
    }
  }

  lemma {:induction false} FoldAtLeast(n: nat, s: string)
    requires forall i | 0 <= i < |s| :: IsDigit(s[i])
    ensures Fold(n, s) >= n
    decreases s
  {
    if s != [] {
      FoldAtLeast(n * 10 + DigitValue(s[0]), s[1..]);
    }
  }

  /** On digits whose value fits, the loop computes exactly the folded value. */
  lemma {:induction false} ScanFits(s: string, n: nat)
    requires forall i | 0 <= i < |s| :: IsDigit(s[i])
    requires Fold(n, s) <= MAX_UINT64
    ensures Scan(s, n) == Ok(Fold(n, s))
  {
    if s != [] {
      FoldAtLeast(n * 10 + DigitValue(s[0]), s[1..]);
      ScanFits(s[1..], n * 10 + DigitValue(s[0]));
    }
  }

  lemma {:induction false} FoldAppend(n: nat, s: string, c: char)
    requires forall i | 0 <= i < |s| :: IsDigit(s[i])
    requires IsDigit(c)
    ensures Fold(n, s + [c]) == Fold(n, s) * 10 + DigitValue(c)
    decreases s
  {
    if s != [] {
      assert (s + [c])[1..] == s[1..] + [c];
      FoldAppend(n * 10 + DigitValue(s[0]), s[1..], c);
    }
  }

  lemma {:induction false} FoldFormat(x: nat)
    ensures Fold(0, FormatNat(x)) == x
  {
    var d := '0' + (x % 10) as char;
    if x >= 10 {
      FoldFormat(x / 10);
      FoldAppend(0, FormatNat(x / 10), d);
    }
  }

  /** `ParseUint` reads back every uint64 from its decimal form. */
  lemma ParseUintFormat(x: U64)
    ensures ParseUint(FormatNat(x)) == Ok(x)
  {
    FoldFormat(x);
    ScanFits(FormatNat(x), 0);
  }

  /** `ParseInt` reads back every int64 from its decimal form. */
  lemma ParseIntFormat(i: I64)
    ensures ParseInt(FormatInt(i)) == Ok(i)
  {
    if i < 0 {
      var u: int := i;
      ParseUintFormat(-u);
      assert FormatInt(i)[1..] == FormatNat(-u);
    } else {
      ParseUintFormat(i);
    }
  }

  /** Once the folded value passes the uint64 range, the loop stops with a range error. */
  lemma {:induction false} ScanOverflows(s: string, n: nat)
    requires forall i | 0 <= i < |s| :: IsDigit(s[i])
    requires n <= MAX_UINT64 < Fold(n, s)
    ensures Scan(s, n) == Err(Range)
  {
    var m := n * 10 + DigitValue(s[0]);
    if m <= MAX_UINT64 {
      ScanOverflows(s[1..], m);
    }
  }

  /** Every number past the uint64 range, in decimal, is a range error, never a wrapped value. */
  lemma ParseUintOverflow(x: nat)
    requires x >= TWO_64
    ensures ParseUint(FormatNat(x)) == Err(Range)
  {
    FoldFormat(x);
    ScanOverflows(FormatNat(x), 0);
  }

  /**
   * A non-digit anywhere but as a leading sign makes both parsers fail: with a
   * syntax error, or with a range error when the digits before it already overflow.
   */
  lemma ParseRejectsNonDigits(s: string, i: nat)
    requires i < |s| && !IsDigit(s[i]) && (i > 0 || (s[0] != '+' && s[0] != '-'))
    ensures ParseUint(s).Err? && ParseInt(s).Err?
  {
  }

  /** A sign with no digits after it is a syntax error for both parsers. */
  lemma SignAloneIsSyntaxError(s: string)
    requires s == "+" || s == "-"
    ensures ParseUint(s) == Err(Syntax) && ParseInt(s) == Err(Syntax)
  {
  }

  lemma HexDigitValue(k: nat)
    requires k < 16
    ensures HexValue(LOWER_HEX[k]) == Some(k)
  {
  }

  /** The hex digits of a number below 16^n spell it back. */
  lemma {:induction false} HexRoundTrip(v: nat, n: nat)
    requires v < Pow16(n)
    ensures FromHex(HexDigits(v, n)) == Some(v)
  {
    if n > 0 {
      var t := HexDigits(v, n);
      assert t[..|t| - 1] == HexDigits(v / 16, n - 1);
      HexRoundTrip(v / 16, n - 1);
      HexDigitValue(v % 16);
    }
  }

  lemma LetterRoundTrip(v: int)
    requires EscapeLetter(v).Some?
    ensures LetterValue(EscapeLetter(v).value).Some?
    ensures LetterValue(EscapeLetter(v).value).value as int == v
  {
  }

  lemma HexEscapeRoundTrip(c: char, e: char, n: nat, t: string)
    requires HexWidth(e) == n > 0 && c as int < Pow16(n)
    requires e != '"' && e != '\\' && LetterValue(e).None?
    ensures Unescape(['\\', e] + HexDigits(c as int, n) + t) == Prepend(c, Unescape(t))
  {
    var u := ['\\', e] + HexDigits(c as int, n) + t;
    assert u[0] == '\\' && u[1] == e && |u| >= 2 + n;
    assert u[2..2 + n] == HexDigits(c as int, n) && u[2 + n..] == t;
    HexRoundTrip(c as int, n);
    assert (c as int) as char == c;
  }

  /** Reading back the escape of one character gives the character, and the rest is read on. */
  lemma EscapeCharRoundTrip(c: char, t: string)
    ensures Unescape(EscapeChar(c) + t) == Prepend(c, Unescape(t))
  {
    var v := c as int;
    var u := EscapeChar(c) + t;
    if c == '"' || c == '\\' {
      assert u[2..] == t;
    } else if IsPrint(c) {
      assert u[1..] == t;
    } else if EscapeLetter(v).Some? {
      LetterRoundTrip(v);
      assert u[2..] == t;
    } else if v < 0x20 || v == 0x7F {
      HexEscapeRoundTrip(c, 'x', 2, t);
    } else {
      HexEscapeRoundTrip(c, 'u', 4, t);
    }
  }

  /** `Quote` loses nothing: the escaped text reads back as the original. */
  lemma {:induction false} QuoteRoundTrip(s: string)
    ensures Unescape(Escaped(s)) == Some(s)
    ensures Quote(s)[1..|Quote(s)| - 1] == Escaped(s)
  {
    if s != [] {
      QuoteRoundTrip(s[1..]);
      EscapeCharRoundTrip(s[0], Escaped(s[1..]));
      assert [s[0]] + s[1..] == s;
    }
  }

  /** Text of printable characters other than the quote and the backslash is quoted as it is. */
  lemma {:induction false} QuotePlainText(s: string)
    requires forall i | 0 <= i < |s| :: IsPrint(s[i]) && s[i] != '"' && s[i] != '\\'
    ensures Escaped(s) == s
  {
    if s != [] {
      QuotePlainText(s[1..]);
    }
  }

  /** A double quote in the input is written back with a backslash before it. */
  lemma QuoteEscapesQuoteMark()
    ensures Quote("1\"2") == "\"1\\\"2\""
  {
  }
}

/**
 * Python's `int(text)` on a string in base 10, the way the bot uses it to read
 * a number typed by the user or a `client_reference_id` sent by the payment
 * processor, and `str(n)`, its inverse on integers.
 *
 * `int` ignores surrounding whitespace, takes one optional sign, then one or
 * more decimal digits in which single underscores may separate two digits
 * (`int(" 1_000 ")` is 1000, `int("1__0")` and `int("_1")` fail). A failed
 * parse (Python raises ValueError) is `None`.
 */
module PyInt {
  import opened Wrappers

  /**
   * The ASCII characters `int()` skips around a number: space, tab, line feed,
   * vertical tab, form feed and carriage return. The separators U+001C to
   * U+001F, which `str.isspace` accepts, are not among them.
   */
  predicate IsSpace(c: char) {
    c == ' ' || c == '\t' || c == '\n' || c == '\U{B}' || c == '\U{C}' || c == '\r'
  }

  predicate IsDigit(c: char) {
    '0' <= c <= '9'
  }

  predicate AllDigits(s: string) {
    forall i :: 0 <= i < |s| ==> IsDigit(s[i])
  }

  predicate AllSpaces(s: string) {
    forall i :: 0 <= i < |s| ==> IsSpace(s[i])
  }

  function DigitValue(c: char): nat
    requires IsDigit(c)
  {
    c as int - '0' as int
  }

  function DigitChar(d: nat): (c: char)
    requires d < 10
    ensures IsDigit(c) && DigitValue(c) == d
  {
    ('0' as int + d) as char
  }

  /** Drops leading whitespace: the result is a suffix of `s` that does not start with a space. */
  function TrimLeft(s: string): (t: string)
    ensures |t| <= |s| && t == s[|s| - |t|..]
    ensures |t| > 0 ==> !IsSpace(t[0])
    ensures AllSpaces(s[..|s| - |t|])
  {
    if |s| > 0 && IsSpace(s[0]) then
      var t := TrimLeft(s[1..]);
      assert s[..|s| - |t|] == [s[0]] + s[1..][..|s[1..]| - |t|];
      t
    else s
  }

  /** Drops trailing whitespace: the result is a prefix of `s` that does not end with a space. */
  function TrimRight(s: string): (t: string)
    ensures |t| <= |s| && t == s[..|t|]
    ensures |t| > 0 ==> !IsSpace(t[|t| - 1])
    ensures AllSpaces(s[|t|..])
  {
    if |s| > 0 && IsSpace(s[|s| - 1]) then
      var t := TrimRight(s[..|s| - 1]);
      assert s[|t|..] == s[..|s| - 1][|t|..] + [s[|s| - 1]];
      t
    else s
  }

  /** `str.strip()`: every character that survives is a character of `s`. */
  function Strip(s: string): (t: string)
    ensures forall c :: c in t ==> c in s
    ensures |t| > 0 ==> !IsSpace(t[0]) && !IsSpace(t[|t| - 1])
  {
    var u := TrimLeft(s);
    var t := TrimRight(u);
    SuffixChars(s, |s| - |u|);
    PrefixChars(u, |t|);
    t
  }

  lemma SuffixChars(s: string, k: nat)
    requires k <= |s|
    ensures forall c :: c in s[k..] ==> c in s
  {
    forall c | c in s[k..] ensures c in s {
      var i :| 0 <= i < |s| - k && s[k..][i] == c;
      assert s[k + i] == c;
    }
  }

  lemma PrefixChars(s: string, k: nat)
    requires k <= |s|
    ensures forall c :: c in s[..k] ==> c in s
  {
    forall c | c in s[..k] ensures c in s {
      var i :| 0 <= i < k && s[..k][i] == c;
      assert s[i] == c;
    }
  }

  /** Digits separated by single underscores, starting and ending with a digit. */
  predicate IsDigitRun(b: string) {
    && |b| > 0
    && IsDigit(b[0])
    && IsDigit(b[|b| - 1])
    && (forall i :: 0 <= i < |b| ==> IsDigit(b[i]) || b[i] == '_')
    && (forall i :: 0 <= i < |b| - 1 ==> b[i] == '_' ==> b[i + 1] != '_')
  }

  /** The digits of a run, with its separators removed. */
  function DropUnderscores(b: string): (d: string)
    ensures (forall i :: 0 <= i < |b| ==> IsDigit(b[i]) || b[i] == '_') ==> AllDigits(d)
    ensures AllDigits(b) ==> d == b
    ensures |b| > 0 && IsDigit(b[0]) ==> |d| > 0
  {
    if b == [] then []
    else (if b[0] == '_' then [] else [b[0]]) + DropUnderscores(b[1..])
  }

  /** The value of a string of decimal digits, most significant first. */
  function DigitsValue(s: string): nat
    requires AllDigits(s)
  {
    if s == [] then 0 else DigitsValue(s[..|s| - 1]) * 10 + DigitValue(s[|s| - 1])
  }

  function ParseUnsigned(b: string): Option<nat> {
    if IsDigitRun(b) then Some(DigitsValue(DropUnderscores(b))) else None
  }

  /** Python's `int(s)`: `None` where Python raises ValueError. */
  function ParseInt(s: string): (r: Option<int>)
    ensures r.Some? ==> exists i :: 0 <= i < |s| && IsDigit(s[i])
    ensures r.Some? && r.value < 0 ==> '-' in s
  {
    ParseStripped(Strip(s))
  }

  /** An optional sign and a run of digits, once the whitespace is gone. */
  function ParseStripped(t: string): (r: Option<int>)
    ensures r.Some? ==> (|t| > 0 && IsDigit(t[0])) || (|t| > 1 && IsDigit(t[1]))
    ensures r.Some? && r.value < 0 ==> |t| > 0 && t[0] == '-'
    ensures r.Some? ==> IsDigit(t[0]) || t[0] == '+' || t[0] == '-'
  {
    if |t| > 0 && (t[0] == '+' || t[0] == '-') then
      match ParseUnsigned(t[1..])
      case Some(n) =>
        var v: int := if t[0] == '-' then -(n as int) else n;
        Some(v)
      case None => None
    else
      ParseUnsigned(t)
  }

  /** Python's `str(n)` for a non-negative integer. */
  function FormatNat(n: nat): (s: string)
    ensures |s| > 0 && AllDigits(s)
  {
    if n < 10 then [DigitChar(n)] else FormatNat(n / 10) + [DigitChar(n % 10)]
  }

  /** Python's `str(n)`. */
  function FormatInt(n: int): (s: string)
    ensures |s| > 0 && (s[0] == '-' <==> n < 0)
    ensures n >= 0 ==> AllDigits(s)
    ensures n < 0 ==> AllDigits(s[1..])
  {
    if n < 0 then "-" + FormatNat(-n) else FormatNat(n)
  }

  lemma {:induction false} ValueOfFormat(n: nat)
    ensures DigitsValue(FormatNat(n)) == n
  {
    if n >= 10 {
      var s := FormatNat(n);
      assert s[..|s| - 1] == FormatNat(n / 10);
      ValueOfFormat(n / 10);
    }
  }

  lemma DigitsAreARun(s: string)
    requires |s| > 0 && AllDigits(s)
    ensures IsDigitRun(s) && DropUnderscores(s) == s
  {
  }

  /** A plain run of digits is read as its decimal value. */
  lemma ParseDigits(s: string)
    requires |s| > 0 && AllDigits(s)
    ensures ParseInt(s) == Some(DigitsValue(s))
  {
    assert IsDigit(s[0]) && IsDigit(s[|s| - 1]);
    StripUnpadded(s);
    DigitsAreARun(s);
    assert ParseUnsigned(s) == Some(DigitsValue(s));
  }

  /** A minus sign before a run of digits negates its value. */
  lemma ParseNegatedDigits(t: string)
    requires |t| > 1 && t[0] == '-' && AllDigits(t[1..])
    ensures ParseInt(t) == Some(-(DigitsValue(t[1..]) as int))
  {
    var s := t[1..];
    assert IsDigit(s[|s| - 1]) && t[|t| - 1] == s[|s| - 1];
    StripUnpadded(t);
    DigitsAreARun(s);
    assert ParseUnsigned(s) == Some(DigitsValue(s));
  }

  /** `int(str(n)) == n` for every integer. */
  lemma ParseFormat(n: int)
    ensures ParseInt(FormatInt(n)) == Some(n)
  {
    var t := FormatInt(n);
    if n < 0 {
      var digits := FormatNat(-n);
      assert t == "-" + digits;
      assert t[0] == '-' && t[1..] == digits;
      ValueOfFormat(-n);
      assert DigitsValue(t[1..]) == -n;
      ParseNegatedDigits(t);
    } else {
      assert t == FormatNat(n);
      ValueOfFormat(n);
      ParseDigits(t);
    }
  }

  /** The whitespace around a number is ignored: `int(" 6 ") == 6`. */
  lemma ParsePadded(before: string, n: int, after: string)
    requires AllSpaces(before) && AllSpaces(after)
    ensures ParseInt(before + FormatInt(n) + after) == Some(n)
  {
    var s := FormatInt(n);
    var padded := before + s + after;
    assert padded == before + (s + after);
    TrimLeftSpaces(before, s + after);
    TrimRightSpaces(s, after);
    assert Strip(padded) == s;
    StripUnpadded(s);
    ParseFormat(n);
  }

  lemma StripUnpadded(s: string)
    requires |s| > 0 && !IsSpace(s[0]) && !IsSpace(s[|s| - 1])
    ensures Strip(s) == s
  {
  }

  lemma {:induction false} TrimLeftSpaces(pre: string, s: string)
    requires AllSpaces(pre) && |s| > 0 && !IsSpace(s[0])
    ensures TrimLeft(pre + s) == s
  {
    if pre != [] {
      assert (pre + s)[1..] == pre[1..] + s;
      TrimLeftSpaces(pre[1..], s);
    } else {
      assert pre + s == s;
    }
  }

  lemma {:induction false} TrimRightSpaces(s: string, post: string)
    requires AllSpaces(post) && |s| > 0 && !IsSpace(s[|s| - 1])
    ensures TrimRight(s + post) == s
  {
    if post != [] {
      assert (s + post)[..|s + post| - 1] == s + post[..|post| - 1];
      TrimRightSpaces(s, post[..|post| - 1]);
    } else {
      assert s + post == s;
    }
  }

  /**
   * `int()` does not skip the information separators U+001C to U+001F: a
   * text that starts with one is refused (`int("\x1c5")` raises).
   */
  lemma LeadingSeparatorRefused(s: string)
    requires |s| > 0 && '\U{1C}' <= s[0] <= '\U{1F}'
    ensures ParseInt(s) == None
  {
    StripKeepsFirst(s);
  }

  /** Stripping a text that does not start with whitespace keeps its first character. */
  lemma StripKeepsFirst(s: string)
    requires |s| > 0 && !IsSpace(s[0])
    ensures |Strip(s)| > 0 && Strip(s)[0] == s[0]
  {
    assert TrimLeft(s) == s;
  }

  /** The ASCII padding around an answer is skipped: `int(" 5\n")` is 5. */
  lemma PaddedAnswer()
    ensures ParseInt(" 5\n") == Some(5)
  {
    assert FormatInt(5) == "5";
    ParsePadded(" ", 5, "\n");
    assert " " + "5" + "\n" == " 5\n";
  }

  /** A text without a decimal digit is never a number: the bedtime answer "vers huit heures" is refused. */
  lemma NoDigitNoNumber(s: string)
    requires forall i :: 0 <= i < |s| ==> !IsDigit(s[i])
    ensures ParseInt(s) == None
  {
    var t := Strip(s);
    if |t| > 0 {
      assert t[0] in s;
      if |t| > 1 {
        assert t[1] in s;
      }
    }
  }
}

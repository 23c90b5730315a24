/**
 * The string operations the components rely on: ASCII case mapping
 * (`toUpperCase` / `toLowerCase`), `includes`, `startsWith`, `trim`,
 * and decimal rendering and parsing of integers (`toString` / `parseInt`).
 */
module Text {
  import opened Wrappers

  // ---------------------------------------------------------------------
  // Case mapping (ASCII letters only)
  // ---------------------------------------------------------------------

  function UpperChar(c: char): char {
    if 'a' <= c <= 'z' then (c as int - 32) as char else c
  }

  function LowerChar(c: char): char {
    if 'A' <= c <= 'Z' then (c as int + 32) as char else c
  }

  function ToUpper(s: string): (r: string)
    ensures |r| == |s|
    ensures forall i :: 0 <= i < |s| ==> r[i] == UpperChar(s[i])
  {
    if |s| == 0 then "" else [UpperChar(s[0])] + ToUpper(s[1..])
  }

  function ToLower(s: string): (r: string)
    ensures |r| == |s|
    ensures forall i :: 0 <= i < |s| ==> r[i] == LowerChar(s[i])
  {
    if |s| == 0 then "" else [LowerChar(s[0])] + ToLower(s[1..])
  }

  /** Upper-casing twice is upper-casing once. */
  lemma ToUpperIdempotent(s: string)
    ensures ToUpper(ToUpper(s)) == ToUpper(s)
  {
  }

  /** Lower-casing forgets any earlier upper-casing. */
  lemma LowerOfUpper(s: string)
    ensures ToLower(ToUpper(s)) == ToLower(s)
  {
  }

  // ---------------------------------------------------------------------
  // Substrings and prefixes
  // ---------------------------------------------------------------------

  predicate OccursAt(t: string, s: string, i: int) {
    0 <= i && i + |t| <= |s| && s[i..i + |t|] == t
  }

  /** JavaScript `s.includes(t)`. */
  predicate Includes(s: string, t: string) {
    exists i :: 0 <= i <= |s| && OccursAt(t, s, i)
  }

  /** The empty string is included in every string. */
  lemma IncludesEmpty(s: string)
    ensures Includes(s, "")
  {
    assert OccursAt("", s, 0);
  }

  /** JavaScript `s.startsWith(p)`. */
  predicate StartsWith(s: string, p: string) {
    |p| <= |s| && s[..|p|] == p
  }

  // ---------------------------------------------------------------------
  // trim
  // ---------------------------------------------------------------------

  /** The characters `String.prototype.trim` removes: white space (including
      every space separator) and line terminators. */
  predicate IsSpace(c: char) {
    || c == ' ' || c == '\t' || c == '\n' || c == '\r'
    || c == '\U{B}' || c == '\U{C}' || c == '\U{A0}' || c == '\U{1680}'
    || ('\U{2000}' <= c <= '\U{200A}')
    || c == '\U{2028}' || c == '\U{2029}' || c == '\U{202F}' || c == '\U{205F}'
    || c == '\U{3000}' || c == '\U{FEFF}'
  }

  function TrimStart(s: string): (r: string)
    ensures |r| <= |s|
    ensures r == s[|s| - |r|..]
    ensures |r| > 0 ==> !IsSpace(r[0])
    ensures forall i :: 0 <= i < |s| - |r| ==> IsSpace(s[i])
  {
    if |s| > 0 && IsSpace(s[0]) then TrimStart(s[1..]) else s
  }

  function TrimEnd(s: string): (r: string)
    ensures |r| <= |s|
    ensures r == s[..|r|]
    ensures |r| > 0 ==> !IsSpace(r[|r| - 1])
    ensures forall i :: |r| <= i < |s| ==> IsSpace(s[i])
  {
    if |s| > 0 && IsSpace(s[|s| - 1]) then TrimEnd(s[..|s| - 1]) else s
  }

  /** JavaScript `s.trim()`. */
  function Trim(s: string): string {
    TrimEnd(TrimStart(s))
  }

  /** A string made of white space only (the empty string included). */
  predicate Blank(s: string) {
    forall i :: 0 <= i < |s| ==> IsSpace(s[i])
  }

  /** A blank head vanishes under `TrimStart`. */
  lemma {:induction false} TrimStartBlankHead(a: string, b: string)
    requires Blank(a)
    ensures TrimStart(a + b) == TrimStart(b)
  {
    if |a| > 0 {
      assert (a + b)[1..] == a[1..] + b;
      TrimStartBlankHead(a[1..], b);
    } else {
      assert a + b == b;
    }
  }

  /** A head with some non-space character absorbs `TrimStart`. */
  lemma {:induction false} TrimStartSolidHead(a: string, b: string)
    requires !Blank(a)
    ensures TrimStart(a + b) == TrimStart(a) + b
  {
    if IsSpace(a[0]) {
      assert (a + b)[1..] == a[1..] + b;
      TrimStartSolidHead(a[1..], b);
    }
  }

  /** A blank tail vanishes under `TrimEnd`. */
  lemma {:induction false} TrimEndBlankTail(a: string, b: string)
    requires Blank(b)
    ensures TrimEnd(a + b) == TrimEnd(a)
    decreases |b|
  {
    if |b| > 0 {
      assert (a + b)[..|a + b| - 1] == a + b[..|b| - 1];
      TrimEndBlankTail(a, b[..|b| - 1]);
    } else {
      assert a + b == a;
    }
  }

  /** A tail with some non-space character absorbs `TrimEnd`. */
  lemma {:induction false} TrimEndSolidTail(a: string, b: string)
    requires !Blank(b)
    ensures TrimEnd(a + b) == a + TrimEnd(b)
    decreases |b|
  {
    if IsSpace(b[|b| - 1]) {
      assert (a + b)[..|a + b| - 1] == a + b[..|b| - 1];
      TrimEndSolidTail(a, b[..|b| - 1]);
    }
  }

  /** `(f + ' ' + l).trim()`: a blank part disappears with the separating space,
      and between two non-blank parts the inner white space is kept. */
  lemma JoinTrim(f: string, l: string)
    ensures Blank(f) ==> Trim(f + " " + l) == Trim(l)
    ensures !Blank(f) && Blank(l) ==> Trim(f + " " + l) == Trim(f)
    ensures !Blank(f) && !Blank(l) ==> Trim(f + " " + l) == TrimStart(f) + " " + TrimEnd(l)
  {
    if Blank(f) {
      JoinTrimBlankFirst(f, l);
    } else if Blank(l) {
      JoinTrimBlankLast(f, l);
    } else {
      JoinTrimSolid(f, l);
    }
  }

  lemma JoinTrimBlankFirst(f: string, l: string)
    requires Blank(f)
    ensures Trim(f + " " + l) == Trim(l)
  {
    assert Blank(f + " ") by {
      assert forall i :: 0 <= i < |f| ==> (f + " ")[i] == f[i];
      assert (f + " ")[|f|] == ' ';
    }
    TrimStartBlankHead(f + " ", l);
  }

  lemma JoinTrimBlankLast(f: string, l: string)
    requires !Blank(f) && Blank(l)
    ensures Trim(f + " " + l) == Trim(f)
  {
    var t := TrimStart(f);
    assert f + " " + l == f + (" " + l);
    TrimStartSolidHead(f, " " + l);
    BlankSpaceHead(l);
    TrimEndBlankTail(t, " " + l);
  }

  lemma BlankSpaceHead(l: string)
    requires Blank(l)
    ensures Blank(" " + l)
  {
    forall i | 0 <= i < |l| + 1
      ensures IsSpace((" " + l)[i])
    {
      if i > 0 {
        assert (" " + l)[i] == l[i - 1];
      }
    }
  }

  lemma JoinTrimSolid(f: string, l: string)
    requires !Blank(f) && !Blank(l)
    ensures Trim(f + " " + l) == TrimStart(f) + " " + TrimEnd(l)
  {
    var t := TrimStart(f);
    ConcatAssoc(f, " ", l);
    TrimStartSolidHead(f, " " + l);
    ConcatAssoc(t, " ", l);
    TrimEndSolidTail(t + " ", l);
  }

  lemma ConcatAssoc(a: string, b: string, c: string)
    ensures a + b + c == a + (b + c)
  {
  }

  /** A string without surrounding white space. */
  predicate IsTrimmed(s: string) {
    |s| == 0 || (!IsSpace(s[0]) && !IsSpace(s[|s| - 1]))
  }

  /** `trim()` yields '' exactly when the string is all white space. */
  lemma TrimEmptyIff(s: string)
    ensures Trim(s) == "" <==> forall i :: 0 <= i < |s| ==> IsSpace(s[i])
  {
    var a := TrimStart(s);
    if Trim(s) == "" {
      // TrimEnd of a non-empty TrimStart result keeps its first character
      assert |a| == 0;
    } else {
      var b := TrimEnd(a);
      assert !IsSpace(b[0]);
      assert b[0] == a[0] == s[|s| - |a|];
    }
  }

  /** A trimmed string is its own trim. */
  lemma TrimOfTrimmed(s: string)
    requires IsTrimmed(s)
    ensures Trim(s) == s
  {
  }

  /** A leading blank disappears under `trim()` when the rest is trimmed. */
  lemma TrimLeadingBlank(s: string)
    requires IsTrimmed(s)
    ensures Trim(" " + s) == s
  {
    assert (" " + s)[1..] == s;
  }

  /** A trailing blank disappears under `trim()` when the rest is trimmed. */
  lemma TrimTrailingBlank(s: string)
    requires IsTrimmed(s)
    ensures Trim(s + " ") == s
  {
    if |s| == 0 {
      assert TrimStart(" ") == "";
    } else {
      assert TrimStart(s + " ") == s + " ";
      assert (s + " ")[..|s|] == s;
    }
  }

  // ---------------------------------------------------------------------
  // Decimal integers: Number.prototype.toString and parseInt(_, 10)
  // ---------------------------------------------------------------------

  predicate IsDigit(c: char) {
    '0' <= c <= '9'
  }

  function DigitChar(d: int): (c: char)
    requires 0 <= d < 10
    ensures IsDigit(c)
  {
    ('0' as int + d) as char
  }

  function DigitValue(c: char): int
    requires IsDigit(c)
  {
    c as int - '0' as int
  }

  function NatToString(n: nat): (s: string)
    ensures |s| > 0
    ensures forall i :: 0 <= i < |s| ==> IsDigit(s[i])
  {
    if n < 10 then [DigitChar(n)] else NatToString(n / 10) + [DigitChar(n % 10)]
  }

  /** `n.toString()` for an integer-valued number. */
  function IntToString(n: int): (s: string)
    ensures |s| > 0
  {
    if n < 0 then "-" + NatToString(-n) else NatToString(n)
  }

  /** The longest prefix of `s` made of decimal digits. */
  function LeadingDigits(s: string): (r: string)
    ensures |r| <= |s| && r == s[..|r|]
    ensures forall i :: 0 <= i < |r| ==> IsDigit(r[i])
    ensures |r| < |s| ==> !IsDigit(s[|r|])
  {
    if |s| > 0 && IsDigit(s[0]) then [s[0]] + LeadingDigits(s[1..]) else ""
  }

  /** The value of a run of decimal digits, most significant first. */
  function DigitsValue(ds: string): nat
    requires forall i :: 0 <= i < |ds| ==> IsDigit(ds[i])
  {
    if |ds| == 0 then 0 else DigitsValue(ds[..|ds| - 1]) * 10 + DigitValue(ds[|ds| - 1])
  }

  function SignedDigits(negative: bool, rest: string): Option<int> {
    var ds := LeadingDigits(rest);
    if |ds| == 0 then None
    else if negative then Some(0 - DigitsValue(ds))
    else Some(DigitsValue(ds) as int)
  }

  /** `parseInt(s, 10)`: leading white space, an optional sign, then the longest
      run of digits; `None` stands for NaN (no digit where one is needed). */
  function ParseInt(s: string): (r: Option<int>)
    ensures var t := TrimStart(s);
            var signed := |t| > 0 && (t[0] == '-' || t[0] == '+');
            var u := if signed then t[1..] else t;
            (r.None? <==> |u| == 0 || !IsDigit(u[0]))
            && (r.Some? && !(|t| > 0 && t[0] == '-') ==> r.value >= 0)
            && (r.Some? && |t| > 0 && t[0] == '-' ==> r.value <= 0)
  {
    var t := TrimStart(s);
    if |t| > 0 && (t[0] == '-' || t[0] == '+') then SignedDigits(t[0] == '-', t[1..])
    else SignedDigits(false, t)
  }

  lemma {:induction false} LeadingDigitsOfDigits(s: string)
    requires forall i :: 0 <= i < |s| ==> IsDigit(s[i])
    ensures LeadingDigits(s) == s
  {
    if |s| > 0 {
      LeadingDigitsOfDigits(s[1..]);
    }
  }

  lemma {:induction false} DigitsValueOfNat(n: nat)
    ensures DigitsValue(NatToString(n)) == n
  {
    var s := NatToString(n);
    if n >= 10 {
      DigitsValueOfNat(n / 10);
      assert s[..|s| - 1] == NatToString(n / 10);
    }
  }

  /** Digits parse back to their value. */
  lemma DigitsParse(negative: bool, n: nat)
    ensures SignedDigits(negative, NatToString(n)) == Some(if negative then 0 - n else n as int)
  {
    LeadingDigitsOfDigits(NatToString(n));
    DigitsValueOfNat(n);
  }

  /** Rendering an integer and parsing it back gives the integer again. */
  lemma IntRoundTrip(n: int)
    ensures ParseInt(IntToString(n)) == Some(n)
  {
    var s := IntToString(n);
    assert !IsSpace(s[0]);
    assert TrimStart(s) == s;
    if n < 0 {
      assert s[1..] == NatToString(-n);
      DigitsParse(true, -n);
    } else {
      assert s[0] != '-' && s[0] != '+';
      DigitsParse(false, n);
    }
  }
}

/**
 * The JavaScript string operations the viewer uses: `indexOf`, `includes`,
 * `replace` with a string pattern, `trim`, `toLowerCase`, `split(" ")[0]`
 * and `parseFloat`.
 */
module JsStrings {
  import opened JsValues

  /** `p` occurs in `s` starting at index `i`. */
  predicate OccursAt(s: string, p: string, i: int) {
    0 <= i && i + |p| <= |s| && s[i..i + |p|] == p
  }

  /** The first occurrence of `p` in `s` at or after `from`. */
  function IndexFrom(s: string, p: string, from: nat): (r: Option<nat>)
    decreases |s| - from
    ensures r.Some? ==> from <= r.value && OccursAt(s, p, r.value)
    ensures r.Some? ==> forall j :: from <= j < r.value ==> !OccursAt(s, p, j)
    ensures r.None? ==> forall j :: from <= j ==> !OccursAt(s, p, j)
  {
    if from + |p| > |s| then None
    else if s[from..from + |p|] == p then Some(from)
    else IndexFrom(s, p, from + 1)
  }

  /** `s.indexOf(p)`, with None for -1. */
  function IndexOf(s: string, p: string): (r: Option<nat>)
    ensures r.Some? ==> OccursAt(s, p, r.value) && forall j :: 0 <= j < r.value ==> !OccursAt(s, p, j)
    ensures r.None? ==> forall j :: !OccursAt(s, p, j)
  {
    IndexFrom(s, p, 0)
  }

  /** `s.includes(p)`. */
  predicate Includes(s: string, p: string)
  {
    IndexOf(s, p).Some?
  }

  lemma IncludesIff(s: string, p: string)
    ensures Includes(s, p) <==> exists i :: OccursAt(s, p, i)
  {
  }

  /** `s.replace(p, "")`: only the first occurrence of `p` is removed. */
  function RemoveFirst(s: string, p: string): string
  {
    match IndexOf(s, p)
    case None => s
    case Some(i) => s[..i] + s[i + |p|..]
  }

  /** Without an occurrence nothing changes; otherwise exactly the first
      occurrence is cut out. */
  lemma RemoveFirstSpec(s: string, p: string)
    ensures (forall j :: !OccursAt(s, p, j)) ==> RemoveFirst(s, p) == s
    ensures forall i :: OccursAt(s, p, i) && (forall j :: 0 <= j < i ==> !OccursAt(s, p, j)) ==>
      RemoveFirst(s, p) == s[..i] + s[i + |p|..]
  {
    var r := IndexOf(s, p);
    forall i | OccursAt(s, p, i) && (forall j :: 0 <= j < i ==> !OccursAt(s, p, j))
      ensures RemoveFirst(s, p) == s[..i] + s[i + |p|..]
    {
      assert r.Some?;
      assert !(r.value < i) && !(r.value > i);
    }
  }

  /** Removing a pattern from the front of a string that starts with it. */
  lemma RemoveLeading(p: string, rest: string)
    ensures RemoveFirst(p + rest, p) == rest
  {
    var s := p + rest;
    assert OccursAt(s, p, 0) by {
      assert s[0..|p|] == p;
    }
    RemoveFirstSpec(s, p);
    assert s[..0] + s[|p|..] == rest;
  }

  /** Removing the first `c` from a string whose only `c` is its last
      character. */
  lemma RemoveTrailingChar(s: string, c: char)
    requires c !in s
    ensures RemoveFirst(s + [c], [c]) == s
  {
    var t := s + [c];
    assert OccursAt(t, [c], |s|) by {
      assert t[|s|..|s| + 1] == [c];
    }
    forall j | 0 <= j < |s| ensures !OccursAt(t, [c], j) {
      assert t[j..j + 1] == [s[j]];
    }
    RemoveFirstSpec(t, [c]);
    assert t[..|s|] + t[|s| + 1..] == s;
  }

  /** StrWhiteSpaceChar of ECMA-262: WhiteSpace (tab, VT, FF, space,
      U+00A0, U+FEFF and the Zs category) and LineTerminator. */
  predicate IsSpace(c: char) {
    || c == '\U{9}' || c == '\U{B}' || c == '\U{C}' || c == ' '
    || c == '\U{A0}' || c == '\U{FEFF}'
    || c == '\U{1680}' || ('\U{2000}' <= c <= '\U{200A}') || c == '\U{202F}'
    || c == '\U{205F}' || c == '\U{3000}'
    || c == '\n' || c == '\r' || c == '\U{2028}' || c == '\U{2029}'
  }

  /** `s` without its leading whitespace. */
  function SkipSpaces(s: string): string {
    if |s| > 0 && IsSpace(s[0]) then SkipSpaces(s[1..]) else s
  }

  /** The number of leading whitespace characters. */
  function LeadingSpaces(s: string): (n: nat)
    ensures n <= |s|
  {
    if |s| == 0 || !IsSpace(s[0]) then 0 else 1 + LeadingSpaces(s[1..])
  }

  /** `LeadingSpaces` counts exactly the whitespace run at the start. */
  lemma {:induction false} LeadingSpacesSpec(s: string)
    ensures forall i :: 0 <= i < LeadingSpaces(s) ==> IsSpace(s[i])
    ensures LeadingSpaces(s) < |s| ==> !IsSpace(s[LeadingSpaces(s)])
    decreases |s|
  {
    if |s| > 0 && IsSpace(s[0]) {
      LeadingSpacesSpec(s[1..]);
      assert forall i :: 1 <= i < |s| ==> s[i] == s[1..][i - 1];
    }
  }

  /** The length of `s` without its trailing whitespace. */
  function EndBeforeSpaces(s: string): (n: nat)
    ensures n <= |s|
  {
    if |s| == 0 || !IsSpace(s[|s| - 1]) then |s| else EndBeforeSpaces(s[..|s| - 1])
  }

  /** `EndBeforeSpaces` stops right after the last non-whitespace
      character. */
  lemma {:induction false} EndBeforeSpacesSpec(s: string)
    ensures forall i :: EndBeforeSpaces(s) <= i < |s| ==> IsSpace(s[i])
    ensures EndBeforeSpaces(s) > 0 ==> !IsSpace(s[EndBeforeSpaces(s) - 1])
    decreases |s|
  {
    if |s| > 0 && IsSpace(s[|s| - 1]) {
      EndBeforeSpacesSpec(s[..|s| - 1]);
    }
  }

  /** `s.trim()`. */
  function Trim(s: string): (r: string)
    ensures |r| <= |s|
  {
    var t := s[LeadingSpaces(s)..];
    t[..EndBeforeSpaces(t)]
  }

  /** A trimmed string neither starts nor ends with whitespace. */
  lemma TrimEnds(s: string)
    ensures var r := Trim(s); r != [] ==> !IsSpace(r[0]) && !IsSpace(r[|r| - 1])
  {
    var a := LeadingSpaces(s);
    var t := s[a..];
    LeadingSpacesSpec(s);
    EndBeforeSpacesSpec(t);
    var r := Trim(s);
    if r != [] {
      assert r[0] == s[a];
    }
  }

  /** Trimming cuts whitespace, and only whitespace, off both ends. */
  lemma TrimIsSlice(s: string)
    ensures exists a, b ::
      (&& 0 <= a <= b <= |s| && Trim(s) == s[a..b]
       && (forall i :: 0 <= i < a ==> IsSpace(s[i]))
       && (forall i :: b <= i < |s| ==> IsSpace(s[i])))
  {
    var a := LeadingSpaces(s);
    var t := s[a..];
    var b := a + EndBeforeSpaces(t);
    LeadingSpacesSpec(s);
    EndBeforeSpacesSpec(t);
    assert Trim(s) == s[a..b];
    assert forall i :: b <= i < |s| ==> s[i] == t[i - a];
  }

  /** A string without surrounding whitespace is its own trim. */
  lemma TrimOfTrimmed(s: string)
    requires s != [] ==> !IsSpace(s[0]) && !IsSpace(s[|s| - 1])
    ensures Trim(s) == s
  {
    assert LeadingSpaces(s) == 0;
    assert s[0..] == s;
  }

  predicate IsUpper(c: char) {
    'A' <= c <= 'Z'
  }

  /** `toLowerCase` on one character, over the ASCII letters. */
  function LowerChar(c: char): (r: char)
    ensures IsUpper(c) ==> r as int == c as int + 32
    ensures !IsUpper(r)
    ensures IsSpace(r) <==> IsSpace(c)
    ensures !IsUpper(c) ==> r == c
  {
    if IsUpper(c) then (c as int - 'A' as int + 'a' as int) as char else c
  }

  /** `s.toLowerCase()`. */
  function Lower(s: string): (r: string)
    ensures |r| == |s|
  {
    seq(|s|, i requires 0 <= i < |s| => LowerChar(s[i]))
  }

  lemma LowerHasNoUpper(s: string)
    ensures forall i :: 0 <= i < |Lower(s)| ==> !IsUpper(Lower(s)[i])
  {
    forall i | 0 <= i < |Lower(s)| ensures !IsUpper(Lower(s)[i]) {
      assert Lower(s)[i] == LowerChar(s[i]);
    }
  }

  /** A string without upper-case letters is its own lower-case form. */
  lemma LowerOfLower(s: string)
    requires forall i :: 0 <= i < |s| ==> !IsUpper(s[i])
    ensures Lower(s) == s
  {
    forall i | 0 <= i < |s| ensures Lower(s)[i] == s[i] {
      assert Lower(s)[i] == LowerChar(s[i]);
    }
  }

  /** Lower-casing a trimmed string gives a string with no upper-case
      letter and no surrounding whitespace. */
  lemma LowerTrimIsNormal(s: string)
    ensures var c := Lower(Trim(s));
      && (forall i :: 0 <= i < |c| ==> !IsUpper(c[i]))
      && (c != [] ==> !IsSpace(c[0]) && !IsSpace(c[|c| - 1]))
  {
    var t := Trim(s);
    TrimEnds(s);
    LowerHasNoUpper(t);
    var c := Lower(t);
    if c != [] {
      assert c[0] == LowerChar(t[0]) && c[|c| - 1] == LowerChar(t[|t| - 1]);
    }
  }

  lemma NoUpperAppend(a: string, b: string)
    requires forall i :: 0 <= i < |a| ==> !IsUpper(a[i])
    requires forall i :: 0 <= i < |b| ==> !IsUpper(b[i])
    ensures forall i :: 0 <= i < |a + b| ==> !IsUpper((a + b)[i])
  {
    forall i | |a| <= i < |a + b| ensures !IsUpper((a + b)[i]) {
      assert (a + b)[i] == b[i - |a|];
    }
  }

  /** Lower-casing works character by character, so it distributes over
      concatenation. */
  lemma LowerAppend(a: string, b: string)
    ensures Lower(a + b) == Lower(a) + Lower(b)
  {
    forall i | 0 <= i < |a + b| ensures Lower(a + b)[i] == (Lower(a) + Lower(b))[i] {
      if i < |a| {
        assert (a + b)[i] == a[i];
      } else {
        assert (a + b)[i] == b[i - |a|];
      }
    }
  }

  /** Lower-casing twice is lower-casing once. */
  lemma LowerIdempotent(s: string)
    ensures Lower(Lower(s)) == Lower(s)
  {
  }

  /** `s.split(" ")[0]`: everything before the first space. */
  function FirstWord(s: string): (r: string)
    ensures |r| <= |s|
  {
    if |s| == 0 || s[0] == ' ' then [] else [s[0]] + FirstWord(s[1..])
  }

  /** The first word has no space and is followed by one, unless it is the
      whole string. */
  lemma {:induction false} FirstWordSpec(s: string)
    ensures FirstWord(s) == s[..|FirstWord(s)|]
    ensures forall i :: 0 <= i < |FirstWord(s)| ==> s[i] != ' '
    ensures |FirstWord(s)| < |s| ==> s[|FirstWord(s)|] == ' '
    decreases |s|
  {
    if |s| > 0 && s[0] != ' ' {
      FirstWordSpec(s[1..]);
      assert forall i :: 1 <= i < |s| ==> s[i] == s[1..][i - 1];
    }
  }

  /** The first word ends at the first space. */
  lemma FirstWordAt(s: string, n: nat)
    requires n < |s| && s[n] == ' ' && forall i :: 0 <= i < n ==> s[i] != ' '
    ensures FirstWord(s) == s[..n]
  {
    FirstWordSpec(s);
    assert |FirstWord(s)| == n;
  }

  predicate IsDigit(c: char) {
    '0' as int <= c as int <= '9' as int
  }

  /** The leading run of decimal digits. */
  function Digits(s: string): (d: string)
    ensures |d| <= |s|
  {
    if |s| > 0 && IsDigit(s[0]) then [s[0]] + Digits(s[1..]) else []
  }

  /** What follows the leading run of digits. */
  function AfterDigits(s: string): (rest: string)
    ensures |rest| <= |s|
  {
    if |s| > 0 && IsDigit(s[0]) then AfterDigits(s[1..]) else s
  }

  /** `Digits` and `AfterDigits` split `s` at the first non-digit. */
  lemma {:induction false} DigitsSpec(s: string)
    ensures s == Digits(s) + AfterDigits(s)
    ensures forall i :: 0 <= i < |Digits(s)| ==> IsDigit(s[i])
    ensures AfterDigits(s) != [] ==> !IsDigit(AfterDigits(s)[0])
    decreases |s|
  {
    if |s| > 0 && IsDigit(s[0]) {
      DigitsSpec(s[1..]);
      assert s == [s[0]] + s[1..];
      assert forall i :: 1 <= i < |Digits(s)| ==> Digits(s)[i] == Digits(s[1..])[i - 1];
    }
  }

  /** The value of a string of decimal digits. */
  function DigitsValue(d: string): int {
    if |d| == 0 then 0 else 10 * DigitsValue(d[..|d| - 1]) + (d[|d| - 1] as int - '0' as int)
  }

  /** A string of digits has a non-negative value. */
  lemma {:induction false} DigitsValueNat(d: string)
    requires forall i :: 0 <= i < |d| ==> IsDigit(d[i])
    ensures DigitsValue(d) >= 0
    decreases |d|
  {
    if |d| > 0 {
      DigitsValueNat(d[..|d| - 1]);
    }
  }

  /** `x` divided by ten `k` times. */
  function Shift(x: real, k: nat): real {
    if k == 0 then x else Shift(x, k - 1) / 10.0
  }

  /** An unsigned decimal literal at the start of `u`: digits, optionally
      a point and more digits, with at least one digit in all. */
  function ParseUnsigned(u: string): Option<real>
  {
    var whole := Digits(u);
    var rest := AfterDigits(u);
    var frac := if |rest| > 0 && rest[0] == '.' then Digits(rest[1..]) else "";
    if |whole| == 0 && |frac| == 0 then None
    else Some(Shift(DigitsValue(whole + frac) as real, |frac|))
  }

  /** `parseFloat(s)` for decimal literals: optional leading whitespace, an
      optional sign, then an unsigned literal; the rest of the string is
      ignored. None stands for NaN. */
  function ParseFloat(s: string): Option<real>
  {
    var t := SkipSpaces(s);
    var signed := |t| > 0 && (t[0] == '-' || t[0] == '+');
    var u := if signed then t[1..] else t;
    match ParseUnsigned(u)
    case None => None
    case Some(x) => Some(if signed && t[0] == '-' then -x else x)
  }

  /** A plain string of digits parses to its value. */
  lemma ParseFloatDigits(d: string)
    requires |d| > 0 && forall i :: 0 <= i < |d| ==> IsDigit(d[i])
    ensures ParseFloat(d) == Some(DigitsValue(d) as real)
  {
    assert !IsSpace(d[0]) && d[0] != '-' && d[0] != '+';
    AllDigits(d);
    assert Digits(d) + "" == d;
  }

  lemma {:induction false} AllDigits(d: string)
    requires forall i :: 0 <= i < |d| ==> IsDigit(d[i])
    ensures Digits(d) == d && AfterDigits(d) == ""
    decreases |d|
  {
    if |d| > 0 {
      assert forall i :: 0 <= i < |d| - 1 ==> d[1..][i] == d[i + 1];
      AllDigits(d[1..]);
    }
  }

  /** Ten to the power `k`. */
  function Pow10(k: nat): (p: nat)
    ensures p >= 1
  {
    if k == 0 then 1 else 10 * Pow10(k - 1)
  }

  /** Shifting by `k` places divides by ten to the power `k`. */
  lemma {:induction false} ShiftIsDivision(x: real, k: nat)
    ensures Shift(x, k) == x / Pow10(k) as real
    decreases k
  {
    if k > 0 {
      ShiftIsDivision(x, k - 1);
      assert Pow10(k) as real == 10.0 * Pow10(k - 1) as real;
    }
  }

  /** A literal "WHOLE.FRACTION" parses to its value: the digits read as
      one number, divided by ten once for every fraction digit. */
  lemma ParseFloatDecimal(w: string, f: string)
    requires forall i :: 0 <= i < |w| ==> IsDigit(w[i])
    requires forall i :: 0 <= i < |f| ==> IsDigit(f[i])
    requires |w| + |f| > 0
    ensures ParseFloat(w + "." + f) == Some(DigitsValue(w + f) as real / Pow10(|f|) as real)
  {
    var rest := "." + f;
    var s := w + rest;
    assert w + "." + f == s;
    assert s[0] == (if |w| > 0 then w[0] else '.');
    assert SkipSpaces(s) == s;
    ParseUnsignedDecimal(w, f);
    ShiftIsDivision(DigitsValue(w + f) as real, |f|);
  }

  /** The unsigned part of `ParseFloatDecimal`. */
  lemma ParseUnsignedDecimal(w: string, f: string)
    requires forall i :: 0 <= i < |w| ==> IsDigit(w[i])
    requires forall i :: 0 <= i < |f| ==> IsDigit(f[i])
    requires |w| + |f| > 0
    ensures ParseUnsigned(w + ("." + f)) == Some(Shift(DigitsValue(w + f) as real, |f|))
  {
    var rest := "." + f;
    DigitsPrefix(w, rest);
    assert rest[1..] == f;
    AllDigits(f);
  }

  /** The digit scan of digits followed by a non-digit stops at the
      non-digit. */
  lemma {:induction false} DigitsPrefix(w: string, rest: string)
    requires forall i :: 0 <= i < |w| ==> IsDigit(w[i])
    requires |rest| > 0 && !IsDigit(rest[0])
    ensures Digits(w + rest) == w && AfterDigits(w + rest) == rest
    decreases |w|
  {
    if |w| > 0 {
      assert (w + rest)[1..] == w[1..] + rest;
      DigitsPrefix(w[1..], rest);
    } else {
      assert w + rest == rest;
    }
  }

  /** A string with no digit at all is NaN. */
  lemma ParseFloatNeedsDigit(s: string)
    requires NoDigit(s)
    ensures ParseFloat(s) == None
  {
    SkipSpacesSuffix(s);
    var t := SkipSpaces(s);
    var u := if |t| > 0 && (t[0] == '-' || t[0] == '+') then t[1..] else t;
    assert NoDigit(u);
    var rest := AfterDigits(u);
    assert rest == u;
    if |rest| > 0 && rest[0] == '.' {
      assert NoDigit(rest[1..]);
    }
  }

  predicate NoDigit(s: string) {
    forall i :: 0 <= i < |s| ==> !IsDigit(s[i])
  }

  /** Skipping whitespace leaves a suffix of the string. */
  lemma {:induction false} SkipSpacesSuffix(s: string)
    ensures NoDigit(s) ==> NoDigit(SkipSpaces(s))
    decreases |s|
  {
    if |s| > 0 && IsSpace(s[0]) {
      assert NoDigit(s) ==> NoDigit(s[1..]);
      SkipSpacesSuffix(s[1..]);
    }
  }
}

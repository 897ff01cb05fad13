/**
 * The few `java.lang.String` operations the enumerations rely on, restricted to
 * ASCII: case conversion, `trim`, decimal rendering of a non-negative `int`, and
 * the space-separated join the postfix encoder uses for its operands.
 */
module JavaStrings {

  predicate IsLowerLetter(c: char) { 'a' <= c <= 'z' }

  predicate IsUpperLetter(c: char) { 'A' <= c <= 'Z' }

  predicate IsDigit(c: char) { '0' <= c <= '9' }

  /** Every character of `s` is an ASCII upper-case letter (an enum constant such as `SDIFF`). */
  predicate IsUpperWord(s: string) {
    forall i :: 0 <= i < |s| ==> IsUpperLetter(s[i])
  }

  /** Every character of `s` is an ASCII lower-case letter (a name such as `sdiff`). */
  predicate IsLowerWord(s: string) {
    forall i :: 0 <= i < |s| ==> IsLowerLetter(s[i])
  }

  /** `s` starts with a lower-case letter, as the constants named after XCSP3 elements and attributes do. */
  predicate StartsLowerCase(s: string) {
    s != [] && IsLowerLetter(s[0])
  }

  predicate IsDigits(s: string) {
    forall i :: 0 <= i < |s| ==> IsDigit(s[i])
  }

  /** `Character.toUpperCase` on ASCII; any other character is left as it is. */
  function UpperChar(c: char): (u: char)
    ensures !IsLowerLetter(u)
    ensures IsLowerLetter(c) ==> IsUpperLetter(u) && u as int + 32 == c as int
    ensures !IsLowerLetter(c) ==> u == c
  {
    if IsLowerLetter(c) then (c as int - 32) as char else c
  }

  /** `Character.toLowerCase` on ASCII; any other character is left as it is. */
  function LowerChar(c: char): (l: char)
    ensures !IsUpperLetter(l)
    ensures IsUpperLetter(c) ==> IsLowerLetter(l) && UpperChar(l) == c
    ensures !IsUpperLetter(c) ==> l == c
  {
    if IsUpperLetter(c) then (c as int + 32) as char else c
  }

  /** `String.toUpperCase`: every lower-case letter is replaced by its capital, nothing else changes. */
  function ToUpper(s: string): (u: string)
    ensures |u| == |s|
    ensures forall i :: 0 <= i < |s| ==> u[i] == UpperChar(s[i])
  {
    if s == [] then [] else [UpperChar(s[0])] + ToUpper(s[1..])
  }

  /** `String.toLowerCase`: every capital is replaced by its lower-case letter, nothing else changes. */
  function ToLower(s: string): (l: string)
    ensures |l| == |s|
    ensures forall i :: 0 <= i < |s| ==> l[i] == LowerChar(s[i])
  {
    if s == [] then [] else [LowerChar(s[0])] + ToLower(s[1..])
  }

  /** Lower-casing an upper-case word gives a lower-case word that upper-cases back to it. */
  lemma UpperWordRoundTrip(s: string)
    requires IsUpperWord(s)
    ensures IsLowerWord(ToLower(s))
    ensures ToUpper(ToLower(s)) == s
  {
  }

  /** `String.trim`: removes every leading and trailing character whose code is at most that of the space. */
  function Trim(s: string): (t: string)
    ensures |t| <= |s|
    ensures t == [] || (t[0] > ' ' && t[|t| - 1] > ' ')
  {
    TrimEnd(TrimStart(s))
  }

  function TrimStart(s: string): (t: string)
    ensures |t| <= |s| && t == s[|s| - |t|..]
    ensures t == [] || t[0] > ' '
    ensures forall i :: 0 <= i < |s| - |t| ==> s[i] <= ' '
  {
    if s != [] && s[0] <= ' ' then TrimStart(s[1..]) else s
  }

  function TrimEnd(s: string): (t: string)
    ensures |t| <= |s| && t == s[..|t|]
    ensures t == [] || t[|t| - 1] > ' '
    ensures t != [] ==> t[0] == s[0]
    ensures forall i :: |t| <= i < |s| ==> s[i] <= ' '
  {
    if s != [] && s[|s| - 1] <= ' ' then TrimEnd(s[..|s| - 1]) else s
  }

  predicate IsBlank(s: string) {
    forall i :: 0 <= i < |s| ==> s[i] <= ' '
  }

  /**
   * `trim` returns exactly the core of a padded string: whatever blanks surround
   * a word that starts and ends with a printable character are removed, and the
   * word itself is kept intact.
   */
  lemma {:induction false} TrimPadded(p: string, w: string, q: string)
    requires IsBlank(p) && IsBlank(q)
    requires w == [] || (w[0] > ' ' && w[|w| - 1] > ' ')
    ensures Trim(p + w + q) == w
  {
    if w == [] {
      assert p + w + q == p + q;
      TrimStartBlank(p + q);
    } else {
      TrimStartPadded(p, w + q);
      assert p + w + q == p + (w + q);
      TrimEndPadded(w, q);
    }
  }

  lemma {:induction false} TrimStartBlank(s: string)
    requires IsBlank(s)
    ensures TrimStart(s) == []
  {
    if s != [] {
      TrimStartBlank(s[1..]);
    }
  }

  lemma {:induction false} TrimStartPadded(p: string, r: string)
    requires IsBlank(p)
    requires r == [] || r[0] > ' '
    ensures TrimStart(p + r) == r
  {
    if p != [] {
      assert (p + r)[1..] == p[1..] + r;
      TrimStartPadded(p[1..], r);
    } else {
      assert p + r == r;
    }
  }

  lemma {:induction false} TrimEndPadded(w: string, q: string)
    requires IsBlank(q)
    requires w == [] || w[|w| - 1] > ' '
    ensures TrimEnd(w + q) == w
  {
    if q != [] {
      assert (w + q)[..|w + q| - 1] == w + q[..|q| - 1];
      TrimEndPadded(w, q[..|q| - 1]);
    } else {
      assert w + q == w;
    }
  }

  function DigitChar(d: int): (c: char)
    requires 0 <= d < 10
    ensures IsDigit(c) && c as int - '0' as int == d
  {
    ('0' as int + d) as char
  }

  /**
   * The decimal text of a non-negative `int`, as string concatenation with an
   * `int` produces it: at least one digit and no leading zero.
   */
  function DecimalString(n: nat): (r: string)
    ensures r != [] && IsDigits(r)
    ensures r[0] == '0' ==> n == 0 && r == "0"
    decreases n
  {
    if n < 10 then [DigitChar(n)] else DecimalString(n / 10) + [DigitChar(n % 10)]
  }

  /** The number a string of decimal digits denotes, read from left to right. */
  function DecimalValue(ds: string): nat
    requires IsDigits(ds)
  {
    if ds == [] then 0 else DecimalValue(ds[..|ds| - 1]) * 10 + (ds[|ds| - 1] as int - '0' as int)
  }

  /** Reading back the decimal text of a count gives the count. */
  lemma {:induction false} DecimalRoundTrip(n: nat)
    ensures DecimalValue(DecimalString(n)) == n
    decreases n
  {
    var r := DecimalString(n);
    if n >= 10 {
      DecimalRoundTrip(n / 10);
      assert r[..|r| - 1] == DecimalString(n / 10);
    }
  }

  /** `XUtility.join` of an operand array: the operands in order, separated by single spaces. */
  function Join(ss: seq<string>): string
  {
    if |ss| == 0 then "" else if |ss| == 1 then ss[0] else ss[0] + " " + Join(ss[1..])
  }
}

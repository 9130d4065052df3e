/**
 * String helpers shared by the server and the client: substring search
 * (String.prototype.includes, the literal parts of the regular expressions),
 * decimal text of integers (template literals, JSX text) and JavaScript's
 * parseInt as the route handlers use it.
 */
module Text {
  import opened Wrappers

  /** `pat` occurs in `s` starting at index `i`. */
  predicate Occurs(s: string, pat: string, i: int)
  {
    0 <= i && i + |pat| <= |s| && s[i..i + |pat|] == pat
  }

  /** The first index at or after `from` where `pat` occurs, if any (String.prototype.indexOf). */
  function IndexOf(s: string, pat: string, from: nat): (r: Option<nat>)
    ensures r.Some? ==> from <= r.value
    decreases |s| - from
  {
    if from + |pat| > |s| then None
    else if s[from..from + |pat|] == pat then Some(from)
    else IndexOf(s, pat, from + 1)
  }

  /** IndexOf finds the first occurrence at or after `from`, and fails only when there is none. */
  lemma {:induction false} IndexOfSpec(s: string, pat: string, from: nat)
    ensures IndexOf(s, pat, from).Some? ==> Occurs(s, pat, IndexOf(s, pat, from).value)
    ensures IndexOf(s, pat, from).Some? ==> forall i :: from <= i < IndexOf(s, pat, from).value ==> !Occurs(s, pat, i)
    ensures IndexOf(s, pat, from).None? ==> forall i :: from <= i ==> !Occurs(s, pat, i)
    decreases |s| - from
  {
    if from + |pat| <= |s| && s[from..from + |pat|] != pat {
      IndexOfSpec(s, pat, from + 1);
    }
  }

  /** What IndexOf finds is an occurrence. */
  lemma IndexOfFound(s: string, pat: string, from: nat)
    requires IndexOf(s, pat, from).Some?
    ensures Occurs(s, pat, IndexOf(s, pat, from).value)
  {
    IndexOfSpec(s, pat, from);
  }

  /** An occurrence at or after `from` bounds where IndexOf stops. */
  lemma IndexOfFirst(s: string, pat: string, from: nat, i: int)
    requires from <= i && Occurs(s, pat, i)
    ensures IndexOf(s, pat, from).Some? && IndexOf(s, pat, from).value <= i
  {
    IndexOfSpec(s, pat, from);
  }

  /** When IndexOf fails, nothing occurs at or after `from`. */
  lemma IndexOfNone(s: string, pat: string, from: nat, i: int)
    requires IndexOf(s, pat, from).None? && from <= i
    ensures !Occurs(s, pat, i)
  {
    IndexOfSpec(s, pat, from);
  }

  /** String.prototype.includes. */
  predicate Contains(s: string, pat: string)
  {
    IndexOf(s, pat, 0).Some?
  }

  /** Contains holds exactly when some occurrence exists. */
  lemma ContainsIff(s: string, pat: string)
    ensures Contains(s, pat) <==> exists i :: Occurs(s, pat, i)
  {
    IndexOfSpec(s, pat, 0);
  }

  /** One witness is enough for Contains. */
  lemma ContainsAt(s: string, pat: string, i: int)
    requires Occurs(s, pat, i)
    ensures Contains(s, pat)
  {
    IndexOfSpec(s, pat, 0);
  }

  /** A pattern occurs where it is spliced in. */
  lemma OccursBetween(a: string, pat: string, b: string)
    ensures Occurs(a + pat + b, pat, |a|)
  {
    assert (a + pat + b)[|a|..|a| + |pat|] == pat;
  }

  /** A pattern spliced into a string is contained in it. */
  lemma ContainsSpliced(a: string, pat: string, b: string)
    ensures Contains(a + pat + b, pat)
  {
    OccursBetween(a, pat, b);
    ContainsAt(a + pat + b, pat, |a|);
  }

  /** The characters `.` refuses to match without the s flag. */
  predicate IsLineTerminator(c: char)
  {
    c == '\n' || c == '\r' || c == '\U{2028}' || c == '\U{2029}'
  }

  predicate IsDigit(c: char)
  {
    '0' <= c <= '9'
  }

  predicate AllDigits(s: string)
  {
    forall i :: 0 <= i < |s| ==> IsDigit(s[i])
  }

  function DigitValue(c: char): (d: nat)
    requires IsDigit(c)
    ensures d < 10
  {
    (c as int) - ('0' as int)
  }

  function DigitChar(d: nat): (c: char)
    requires d < 10
    ensures IsDigit(c) && DigitValue(c) == d
  {
    (('0' as int) + d) as char
  }

  /** The length of the longest prefix of `s` made of decimal digits. */
  function DigitRun(s: string): (n: nat)
    ensures n <= |s|
    ensures AllDigits(s[..n])
    ensures n < |s| ==> !IsDigit(s[n])
  {
    if s == [] || !IsDigit(s[0]) then 0
    else
      var n := 1 + DigitRun(s[1..]);
      assert s[..n] == [s[0]] + s[1..][..n - 1];
      n
  }

  /** The value of a run of decimal digits, most significant first. */
  function DigitsValue(ds: string): nat
    requires AllDigits(ds)
  {
    if ds == [] then 0
    else 10 * DigitsValue(ds[..|ds| - 1]) + DigitValue(ds[|ds| - 1])
  }

  /** The decimal text of a natural number, without leading zeros. */
  function DecimalText(n: nat): (s: string)
    ensures |s| > 0 && AllDigits(s)
    ensures n > 0 ==> s[0] != '0'
  {
    if n < 10 then [DigitChar(n)]
    else DecimalText(n / 10) + [DigitChar(n % 10)]
  }

  /** String(i) for an integer: a minus sign for negative values. */
  function IntText(i: int): string
  {
    if i < 0 then "-" + DecimalText(-i) else DecimalText(i)
  }

  /**
   * parseInt(s) with no radix, as the id routes call it: an optional sign,
   * then the longest run of decimal digits, whatever follows ignored;
   * None stands for NaN, returned when no digit follows the sign.
   */
  function ParseInt(s: string): (r: Option<int>)
    ensures r.None? <==> (var b := Unsigned(s); b == [] || !IsDigit(b[0]))
  {
    var body := Unsigned(s);
    var n := DigitRun(body);
    if n == 0 then None
    else
      var v: int := DigitsValue(body[..n]);
      Some(if |s| > 0 && s[0] == '-' then -v else v)
  }

  /** `s` without its leading sign character, if it has one. */
  function Unsigned(s: string): string
  {
    if |s| > 0 && (s[0] == '-' || s[0] == '+') then s[1..] else s
  }

  /** Digits read back from DecimalText give the number. */
  lemma {:induction false} DecimalTextValue(n: nat)
    ensures DigitsValue(DecimalText(n)) == n
  {
    var s := DecimalText(n);
    if n >= 10 {
      assert s[..|s| - 1] == DecimalText(n / 10);
      DecimalTextValue(n / 10);
    }
  }

  /** The digit run of digits followed by a non-digit is exactly those digits. */
  lemma DigitRunOf(d: string, rest: string)
    requires AllDigits(d)
    requires rest == [] || !IsDigit(rest[0])
    ensures DigitRun(d + rest) == |d|
    ensures (d + rest)[..|d|] == d
  {
    assert (d + rest)[..|d|] == d;
  }

  /** parseInt reads back every integer's text, and stops at the first non-digit after it. */
  lemma ParseIntText(i: int, rest: string)
    requires rest == [] || !IsDigit(rest[0])
    ensures ParseInt(IntText(i) + rest) == Some(i)
  {
    var m: nat := if i < 0 then -i else i;
    var d := DecimalText(m);
    var s := IntText(i) + rest;
    DigitRunOf(d, rest);
    DecimalTextValue(m);
    if i < 0 {
      assert s == "-" + (d + rest);
    } else {
      assert s == d + rest;
    }
    assert Unsigned(s) == d + rest;
    assert DigitsValue(Unsigned(s)[..DigitRun(Unsigned(s))]) == m;
  }

  /** In particular, a decimal id round-trips through parseInt. */
  lemma ParseIntDecimal(n: nat)
    ensures ParseInt(DecimalText(n)) == Some(n)
  {
    ParseIntText(n, []);
    assert IntText(n) + [] == DecimalText(n);
  }

  /** A segment that starts with a letter is NaN to parseInt. */
  lemma ParseIntRejectsWord(s: string)
    requires |s| > 0 && ('a' <= s[0] <= 'z' || 'A' <= s[0] <= 'Z')
    ensures ParseInt(s) == None
  {
  }
}

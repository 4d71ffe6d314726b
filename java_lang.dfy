/** Value-level models of the few pieces of the Java platform that the two
    handlers lean on: null strings in concatenation, 32-bit `int` arithmetic,
    `Integer.toString` and `String.lastIndexOf`. */
module JavaLang {

  datatype Option<T> = None | Some(value: T)

  /** How a handler call ends: it returns an `int`, or an exception escapes it. */
  datatype Outcome = Returned(value: int) | Threw

  /** `"" + s` for a Java `String` that may be null. */
  function Show(s: Option<string>): string
  {
    if s.Some? then s.value else "null"
  }

  /** `StringUtils.isEmpty`: null, or of length zero. */
  predicate IsEmpty(s: Option<string>)
  {
    s.None? || s.value == ""
  }

  /** The value stored under `key` in a Java map, null when the key is absent. */
  function Lookup(m: map<string, string>, key: string): Option<string>
  {
    if key in m then Some(m[key]) else None
  }

  const TWO_TO_32: int := 0x1_0000_0000
  const INT_MIN: int := -0x8000_0000
  const INT_MAX: int := 0x7fff_ffff

  /** The value a Java `int` holds after arithmetic whose exact result is `n`. */
  function Int32(n: int): (r: int)
    ensures INT_MIN <= r <= INT_MAX
    ensures (n - r) % TWO_TO_32 == 0
    ensures INT_MIN <= n <= INT_MAX ==> r == n
  {
    (n - INT_MIN) % TWO_TO_32 + INT_MIN
  }

  /** An `int` value is fixed by its residue modulo 2^32. */
  lemma Int32Unique(n: int, r: int)
    requires INT_MIN <= r <= INT_MAX
    requires (n - r) % TWO_TO_32 == 0
    ensures Int32(n) == r
  {
    var q := Int32(n);
    var a := (n - r) / TWO_TO_32;
    var b := (n - q) / TWO_TO_32;
    assert n - r == TWO_TO_32 * a;
    assert n - q == TWO_TO_32 * b;
    assert q - r == TWO_TO_32 * (a - b);
  }

  /** Adding into an `int` step by step wraps like wrapping the exact total once. */
  lemma Int32Accumulate(acc: int, k: int)
    ensures Int32(Int32(acc) + k) == Int32(acc + k)
  {
    var w := Int32(acc);
    var r := Int32(w + k);
    var a := (acc - w) / TWO_TO_32;
    var b := (w + k - r) / TWO_TO_32;
    assert acc - w == TWO_TO_32 * a;
    assert w + k - r == TWO_TO_32 * b;
    assert acc + k - r == TWO_TO_32 * (a + b);
    Int32Unique(acc + k, r);
  }

  predicate IsDigit(c: char)
  {
    '0' <= c <= '9'
  }

  predicate AllDigits(s: string)
  {
    forall i :: 0 <= i < |s| ==> IsDigit(s[i])
  }

  function DigitChar(d: int): char
    requires 0 <= d <= 9
  {
    (48 + d) as char
  }

  /** Decimal digits of a natural number, most significant first. */
  function NatString(n: nat): string
    decreases n
  {
    if n < 10 then [DigitChar(n)] else NatString(n / 10) + [DigitChar(n % 10)]
  }

  function DigitsValue(s: string): nat
    requires AllDigits(s)
  {
    if s == [] then 0 else 10 * DigitsValue(s[..|s| - 1]) + (s[|s| - 1] as int - 48)
  }

  /** `Integer.toString(n)`, which is what `":" + port` appends. */
  function DecimalString(n: int): string
  {
    if n < 0 then "-" + NatString(-n) else NatString(n)
  }

  /** `Integer.parseInt` on plain decimal text: an optional minus sign, then digits. */
  function ParseDecimal(s: string): Option<int>
  {
    if |s| > 0 && s[0] == '-' then
      if |s| > 1 && AllDigits(s[1..]) then Some(0 - DigitsValue(s[1..]) as int) else None
    else if |s| > 0 && AllDigits(s) then Some(DigitsValue(s))
    else None
  }

  lemma {:induction false} NatStringDigits(n: nat)
    ensures |NatString(n)| > 0 && AllDigits(NatString(n))
    ensures DigitsValue(NatString(n)) == n
  {
    if n >= 10 {
      NatStringDigits(n / 10);
      var s := NatString(n / 10) + [DigitChar(n % 10)];
      assert s[..|s| - 1] == NatString(n / 10);
    }
  }

  /** `Integer.toString` loses nothing: the text parses back to the number. */
  lemma DecimalRoundTrip(n: int)
    ensures ParseDecimal(DecimalString(n)) == Some(n)
  {
    if n < 0 {
      NatStringDigits(-n);
      assert DecimalString(n)[1..] == NatString(-n);
    } else {
      NatStringDigits(n);
    }
  }

  /** `s.indexOf(pat, k) == k`: `pat` occurs in `s` starting at `k`. */
  predicate OccursAt(s: string, pat: string, k: int)
  {
    0 <= k && k + |pat| <= |s| && s[k..k + |pat|] == pat
  }

  /** The last start index not after `k` at which `pat` occurs, or -1. */
  function LastIndexAtOrBefore(s: string, pat: string, k: int): (r: int)
    requires k <= |s| - |pat|
    decreases k + 1
    ensures r == -1 || 0 <= r <= k
    ensures r >= 0 ==> OccursAt(s, pat, r)
    ensures forall j :: r < j <= k ==> !OccursAt(s, pat, j)
  {
    if k < 0 then -1
    else if s[k..k + |pat|] == pat then k
    else LastIndexAtOrBefore(s, pat, k - 1)
  }

  /** `s.lastIndexOf(pat)`: the last start index of `pat` in `s`, or -1 when it does not occur. */
  function LastIndexOf(s: string, pat: string): (r: int)
    ensures r == -1 <==> forall j :: !OccursAt(s, pat, j)
    ensures r >= 0 ==> OccursAt(s, pat, r) && forall j :: r < j ==> !OccursAt(s, pat, j)
  {
    LastIndexAtOrBefore(s, pat, |s| - |pat|)
  }
}

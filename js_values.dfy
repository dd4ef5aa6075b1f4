/** Values as the data-access layer handles them: optional option fields with
    JavaScript truthiness, the scalar parameters bound to a query, and the
    decimal text that a template literal `${n}` produces for an integer. */
module JsValues {

  datatype Option<+T> = None | Some(value: T)

  /** A positional parameter handed to the database driver. */
  datatype Value = Str(s: string) | Num(n: int)

  /** `if (x)` on a string option: `None` stands for both undefined and null;
      these and "" are falsy. */
  predicate TruthyString(x: Option<string>) {
    x.Some? && x.value != ""
  }

  /** `if (x)` on a numeric option: undefined, null and 0 are falsy. */
  predicate TruthyNumber(x: Option<int>) {
    x.Some? && x.value != 0
  }

  predicate IsDigit(c: char) {
    '0' <= c <= '9'
  }

  function DigitChar(d: nat): (c: char)
    requires d < 10
    ensures IsDigit(c)
  {
    ('0' as int + d) as char
  }

  function DigitValue(c: char): (r: Option<nat>)
    ensures r.Some? <==> IsDigit(c)
    ensures r.Some? ==> r.value < 10 && DigitChar(r.value) == c
  {
    if IsDigit(c) then Some(c as int - '0' as int) else None
  }

  /** Decimal digits of a natural number, most significant first, no leading zeros. */
  function NatString(n: nat): (s: string)
    ensures 1 <= |s|
    ensures forall i :: 0 <= i < |s| ==> IsDigit(s[i])
    ensures |s| > 1 ==> s[0] != '0'
    ensures s[0] == '0' <==> n == 0
    decreases n
  {
    if n < 10 then [DigitChar(n)] else NatString(n / 10) + [DigitChar(n % 10)]
  }

  /** The text `${n}` produces for an integer `n`: a `-` exactly when `n` is
      negative, then the digits of its magnitude, with no leading zero. */
  function IntString(n: int): (s: string)
    ensures 1 <= |s|
    ensures s[0] == '-' <==> n < 0
    ensures forall i :: (if n < 0 then 1 else 0) <= i < |s| ==> IsDigit(s[i])
    ensures n < 0 ==> 2 <= |s| && s[1] != '0'
    ensures 0 <= n && 1 < |s| ==> s[0] != '0'
  {
    if n < 0 then "-" + NatString(-n) else NatString(n)
  }

  /** Reads a non-empty run of decimal digits. */
  function ParseNat(s: string): Option<nat>
    decreases |s|
  {
    if s == [] then None
    else
      match DigitValue(s[|s| - 1])
      case None => None
      case Some(d) =>
        if |s| == 1 then Some(d)
        else
          match ParseNat(s[..|s| - 1])
          case None => None
          case Some(p) => Some(10 * p + d)
  }

  /** Reads an optionally negative decimal integer. */
  function ParseInt(s: string): Option<int> {
    var digits := if |s| > 0 && s[0] == '-' then s[1..] else s;
    match ParseNat(digits)
    case None => None
    case Some(p) => if digits == s then Some(p) else Some(0 - p)
  }

  lemma {:induction false} ParseNatString(n: nat)
    ensures ParseNat(NatString(n)) == Some(n)
    decreases n
  {
    var s := NatString(n);
    if n >= 10 {
      var front := NatString(n / 10);
      assert s == front + [DigitChar(n % 10)];
      assert s[..|s| - 1] == front;
      ParseNatString(n / 10);
    }
  }

  /** Decimal text loses nothing: the integer is recovered from it. */
  lemma ParseIntString(n: int)
    ensures ParseInt(IntString(n)) == Some(n)
  {
    if n < 0 {
      assert IntString(n)[1..] == NatString(-n);
      ParseNatString(-n);
    } else {
      ParseNatString(n);
    }
  }

  /** Distinct integers have distinct decimal texts. */
  lemma IntStringInjective(m: int, n: int)
    requires IntString(m) == IntString(n)
    ensures m == n
  {
    ParseIntString(m);
    ParseIntString(n);
  }
}

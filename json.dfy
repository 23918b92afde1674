/** The abstract JSON document the proxy rewrites.

    A request body is the member map of its top-level object. The lookups
    below mirror how the proxy reads a value through gjson: `Get` is a lookup
    with `Exists()`, `StringOf` is `String()` and `IntOf` is `Int()`.
    Numbers are integers. */
module Json {
  import opened Wrappers

  datatype Json =
    | Null
    | Bool(b: bool)
    | Num(n: int)
    | Str(s: string)
    | Arr(items: seq<Json>)
    | Obj(fields: map<string, Json>)

  /** A request body: the members of its top-level object. */
  type Doc = map<string, Json>

  /** Looks up a member; `None` when the key does not exist. */
  function Get(d: map<string, Json>, key: string): Option<Json>
  {
    if key in d then Some(d[key]) else None
  }

  /** The text of a value as gjson's `String()` gives it: "" for a missing
      value or null, the literal for booleans and numbers, the string itself
      for strings. Arrays and objects read as "" (see README, Left out). */
  function StringOf(v: Option<Json>): string
  {
    match v
    case Some(Bool(b)) => if b then "true" else "false"
    case Some(Num(n)) => DecimalText(n)
    case Some(Str(s)) => s
    case _ => ""
  }

  /** The integer of a value as gjson's `Int()` gives it: an integer literal
      or a decimal string read with int64 wrap-around, 1 for true, and 0 for
      everything else
      (a missing value, null, false, an unparsable string, arrays, objects). */
  function IntOf(v: Option<Json>): int
  {
    match v
    case Some(Bool(b)) => if b then 1 else 0
    case Some(Num(n)) => Wrap64(n)
    case Some(Str(s)) => (match ParseInt(s) case Some(n) => n case None => 0)
    case _ => 0
  }

  predicate IsDigit(c: char)
  {
    '0' <= c <= '9'
  }

  predicate AllDigits(s: string)
  {
    |s| > 0 && forall i :: 0 <= i < |s| ==> IsDigit(s[i])
  }

  function DigitChar(d: nat): (c: char)
    requires d < 10
  {
    ('0' as int + d) as char
  }

  /** The decimal digits of a natural number, most significant first. */
  function Digits(n: nat): (s: string)
    ensures AllDigits(s)
  {
    if n < 10 then [DigitChar(n)] else Digits(n / 10) + [DigitChar(n % 10)]
  }

  /** The decimal text of an integer, with a leading '-' when negative. */
  function DecimalText(n: int): string
  {
    if n < 0 then "-" + Digits(-n) else Digits(n)
  }

  /** The value of a string of decimal digits. */
  function DigitsValue(s: string): int
    requires forall i :: 0 <= i < |s| ==> IsDigit(s[i])
  {
    if s == [] then 0 else 10 * DigitsValue(s[..|s| - 1]) + (s[|s| - 1] as int - '0' as int)
  }

  /** Two's-complement 64-bit wrap-around: the int64 congruent to `x`
      modulo 2^64. */
  function Wrap64(x: int): int
  {
    var m := x % 0x1_0000_0000_0000_0000;
    if m >= 0x8000_0000_0000_0000 then m - 0x1_0000_0000_0000_0000 else m
  }

  /** gjson's integer parser for strings: an optional '-' followed by at
      least one decimal digit and nothing else. The digits accumulate in an
      int64, so the value wraps around modulo 2^64. */
  function ParseInt(s: string): Option<int>
  {
    if |s| > 0 && s[0] == '-' then
      if AllDigits(s[1..]) then Some(Wrap64(-DigitsValue(s[1..]))) else None
    else if AllDigits(s) then Some(Wrap64(DigitsValue(s)))
    else None
  }

  lemma {:induction false} DigitsValueOfDigits(n: nat)
    ensures DigitsValue(Digits(n)) == n
  {
    if n >= 10 {
      var s := Digits(n);
      assert s[..|s| - 1] == Digits(n / 10);
      DigitsValueOfDigits(n / 10);
    }
  }

  /** Integers in the int64 range are their own wrap. */
  lemma Wrap64InRange(x: int)
    requires -0x8000_0000_0000_0000 <= x < 0x8000_0000_0000_0000
    ensures Wrap64(x) == x
  {
    if x < 0 {
      assert x % 0x1_0000_0000_0000_0000 == x + 0x1_0000_0000_0000_0000;
    }
  }

  /** The decimal text of n reads as n wrapped to 64 bits; so a
      `max_tokens` sent as the string "n" is compared like n itself
      whenever n fits in an int64. */
  lemma ParseDecimalText(n: int)
    ensures ParseInt(DecimalText(n)) == Some(Wrap64(n))
    ensures -0x8000_0000_0000_0000 <= n < 0x8000_0000_0000_0000 ==>
              IntOf(Some(Str(StringOf(Some(Num(n)))))) == n
  {
    if n < 0 {
      var s := DecimalText(n);
      assert s[1..] == Digits(-n);
      DigitsValueOfDigits(-n);
    } else {
      DigitsValueOfDigits(n);
    }
    if -0x8000_0000_0000_0000 <= n < 0x8000_0000_0000_0000 {
      Wrap64InRange(n);
    }
  }

  /** An integer literal and its decimal string have the same integer
      reading. */
  lemma NumberReadsLikeText(n: int)
    ensures IntOf(Some(Str(DecimalText(n)))) == IntOf(Some(Num(n)))
  {
    ParseDecimalText(n);
  }

  /** 2^64 reads as 0, as a number and as a decimal string. */
  lemma TwoToThe64ReadsZero()
    ensures IntOf(Some(Num(0x1_0000_0000_0000_0000))) == 0
    ensures IntOf(Some(Str(DecimalText(0x1_0000_0000_0000_0000)))) == 0
  {
    ParseDecimalText(0x1_0000_0000_0000_0000);
  }

  /** `strings.Contains`: `t` occurs somewhere in `s`. */
  predicate Contains(s: string, t: string)
  {
    exists i :: 0 <= i <= |s| - |t| && t <= s[i..]
  }

  lemma ContainsInside(a: string, t: string, b: string)
    ensures Contains(a + t + b, t)
  {
    var s := a + t + b;
    assert s[|a|..] == t + b;
  }
}

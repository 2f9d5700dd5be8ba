/** Rendering integers as text the way Kotlin string templates (`"$n"`, base 10) and
    JavaScript's `n.toString(16)` (lower-case hexadecimal) do, and reading them back.
    Both put a '-' in front of a negative value and never emit leading zeros. */
module Numerals {
  import opened Outcome

  predicate ValidBase(base: nat)
  {
    2 <= base <= 16
  }

  /** The digit character for 0 <= d < 16: '0'..'9' then 'a'..'f'. */
  function DigitChar(d: nat): (c: char)
    requires d < 16
    ensures c != '-'
  {
    if d < 10 then ('0' as int + d) as char else ('a' as int + d - 10) as char
  }

  function DigitValue(c: char): Option<nat>
  {
    if '0' <= c <= '9' then Some(c as int - '0' as int)
    else if 'a' <= c <= 'f' then Some(c as int - 'a' as int + 10)
    else None
  }

  lemma DigitCharRoundTrip(d: nat)
    requires d < 16
    ensures DigitValue(DigitChar(d)) == Some(d)
  {
  }

  /** The digits of n in the given base, most significant first. */
  function Digits(n: nat, base: nat): (s: string)
    requires ValidBase(base)
    ensures |s| >= 1 && s[0] != '-'
    decreases n
  {
    if n < base then [DigitChar(n)] else Digits(n / base, base) + [DigitChar(n % base)]
  }

  /** `n.toString()` in the given base. */
  function Signed(n: int, base: nat): string
    requires ValidBase(base)
  {
    if n < 0 then "-" + Digits(-n, base) else Digits(n, base)
  }

  /** Kotlin's `"$n"`: base 10, with a '-' exactly when n is negative. */
  function Decimal(n: int): (s: string)
    ensures |s| >= 1 && (s[0] == '-' <==> n < 0)
  {
    Signed(n, 10)
  }

  /** JavaScript's `n.toString(16)`: lower-case base 16, with a '-' exactly when n is
      negative. */
  function Hex(n: int): (s: string)
    ensures |s| >= 1 && (s[0] == '-' <==> n < 0)
  {
    Signed(n, 16)
  }

  /** What `Decimal` and `Hex` write reads back as the number they were given. */
  lemma RenderingsReadBack(n: int)
    ensures ParseInt(Decimal(n), 10) == Some(n)
    ensures ParseInt(Hex(n), 16) == Some(n)
  {
    SignedRoundTrip(n, 10);
    SignedRoundTrip(n, 16);
  }

  /** Reads a non-empty string of digits of the given base; None if any character is not one. */
  function ParseNat(s: string, base: nat): Option<nat>
    requires ValidBase(base)
    decreases |s|
  {
    if s == [] then None
    else
      var d := DigitValue(s[|s| - 1]);
      if d.None? || d.value >= base then None
      else if |s| == 1 then Some(d.value)
      else match ParseNat(s[..|s| - 1], base)
        case None => None
        case Some(high) => Some(high * base + d.value)
  }

  /** Reads an optionally negative number of the given base. */
  function ParseInt(s: string, base: nat): Option<int>
    requires ValidBase(base)
  {
    if |s| > 0 && s[0] == '-' then
      match ParseNat(s[1..], base)
      case None => None
      case Some(v) => Some(-(v as int))
    else
      match ParseNat(s, base)
      case None => None
      case Some(v) => Some(v)
  }

  /** Reading back the digits of n gives n. */
  lemma {:induction false} DigitsRoundTrip(n: nat, base: nat)
    requires ValidBase(base)
    ensures ParseNat(Digits(n, base), base) == Some(n)
    decreases n
  {
    if n < base {
      DigitCharRoundTrip(n);
    } else {
      var q, d := n / base, n % base;
      DivShrinks(n, base);
      DigitsRoundTrip(q, base);
      DigitCharRoundTrip(d);
      var high := Digits(q, base);
      ParseAppend(high, q, d, base);
      assert Digits(n, base) == high + [DigitChar(d)];
      Recompose(n, base);
      assert q * base + d == n;
    }
  }

  lemma DivShrinks(n: nat, base: nat)
    requires base >= 2 && n >= 1
    ensures n / base < n
  {
  }

  lemma Recompose(n: nat, base: nat)
    requires base > 0
    ensures (n / base) * base + n % base == n
  {
  }

  /** Appending one more digit multiplies the value read so far by the base. */
  lemma ParseAppend(high: string, v: nat, d: nat, base: nat)
    requires ValidBase(base) && d < base && high != []
    requires ParseNat(high, base) == Some(v)
    requires DigitValue(DigitChar(d)) == Some(d)
    ensures ParseNat(high + [DigitChar(d)], base) == Some(v * base + d)
  {
    var s := high + [DigitChar(d)];
    assert s[..|s| - 1] == high;
  }

  /** Reading back `n.toString(base)` gives n, for negative n too. */
  lemma SignedRoundTrip(n: int, base: nat)
    requires ValidBase(base)
    ensures ParseInt(Signed(n, base), base) == Some(n)
  {
    if n < 0 {
      DigitsRoundTrip(-n, base);
      assert Signed(n, base)[1..] == Digits(-n, base);
    } else {
      DigitsRoundTrip(n, base);
    }
  }

  /** The number written between a known prefix and suffix, if the text has that shape. */
  function ParseEmbedded(text: string, prefix: string, suffix: string, base: nat): Option<int>
    requires ValidBase(base)
  {
    if |text| >= |prefix| + |suffix|
       && text[..|prefix|] == prefix
       && text[|text| - |suffix|..] == suffix
    then ParseInt(text[|prefix|..|text| - |suffix|], base)
    else None
  }

  /** A number rendered between a prefix and a suffix can be read back out of the text. */
  lemma EmbeddedRoundTrip(prefix: string, n: int, suffix: string, base: nat)
    requires ValidBase(base)
    ensures ParseEmbedded(prefix + Signed(n, base) + suffix, prefix, suffix, base) == Some(n)
  {
    var body := Signed(n, base);
    var text := prefix + body + suffix;
    assert text[..|prefix|] == prefix;
    assert text[|text| - |suffix|..] == suffix;
    assert text[|prefix|..|text| - |suffix|] == body;
    SignedRoundTrip(n, base);
  }
}

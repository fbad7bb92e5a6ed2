/** Bytes and characters as the driver sees them: the reply bytes it turns into
    characters, Python's notion of trailing whitespace, and the decimal text of
    integers written by an f-string and read back by int(). */
module Text {

  import opened Errors

  newtype byte = x: int | 0 <= x < 256

  /** chr(x) for a reply byte. */
  function Chr(b: byte): char {
    (b as int) as char
  }

  /** ''.join([chr(x) for x in reply]) */
  function DecodeBytes(raw: seq<byte>): string {
    seq(|raw|, i requires 0 <= i < |raw| => Chr(raw[i]))
  }

  /** The characters below 256 that Python's str.isspace() accepts, so that
      str.rstrip() with no argument removes them. */
  predicate IsSpace(c: char) {
    var n := c as int;
    (9 <= n <= 13) || (28 <= n <= 31) || n == 32 || n == 0x85 || n == 0xA0
  }

  /** str.rstrip(): drops whitespace from the end. */
  function RStrip(s: string): (r: string)
    ensures r <= s
  {
    if s != [] && IsSpace(s[|s| - 1]) then RStrip(s[..|s| - 1]) else s
  }

  /** RStrip keeps the longest prefix that does not end in whitespace. */
  lemma {:induction false} RStripSpec(s: string)
    ensures RStrip(s) <= s
    ensures RStrip(s) == [] || !IsSpace(RStrip(s)[|RStrip(s)| - 1])
    ensures forall i :: |RStrip(s)| <= i < |s| ==> IsSpace(s[i])
  {
    if s != [] && IsSpace(s[|s| - 1]) {
      RStripSpec(s[..|s| - 1]);
    }
  }

  predicate IsDigit(c: char) {
    '0' <= c <= '9'
  }

  predicate AllDigits(s: string) {
    forall i :: 0 <= i < |s| ==> IsDigit(s[i])
  }

  function DigitChar(d: nat): (c: char)
    requires d < 10
    ensures IsDigit(c)
  {
    ('0' as int + d) as char
  }

  function DigitValue(c: char): (d: nat)
    requires IsDigit(c)
    ensures d < 10 && DigitChar(d) == c
  {
    c as int - '0' as int
  }

  /** The decimal digits of a natural number, most significant first, without leading zeros. */
  function NatToString(n: nat): (s: string)
    ensures |s| >= 1 && AllDigits(s)
    ensures |s| > 1 ==> s[0] != '0'
    ensures n < 10 <==> |s| == 1
    decreases n
  {
    if n < 10 then [DigitChar(n)] else NatToString(n / 10) + [DigitChar(n % 10)]
  }

  /** str(n) / f'{n}' for an integer. */
  function IntToString(n: int): (s: string)
    ensures |s| >= 1
    ensures n >= 0 ==> AllDigits(s)
    ensures n < 0 ==> s[0] == '-' && AllDigits(s[1..])
  {
    if n < 0 then "-" + NatToString(-n) else NatToString(n)
  }

  /** The value of a string of decimal digits (leading zeros allowed, as int() allows them). */
  function DigitsValue(s: string): nat
    requires AllDigits(s)
  {
    if s == [] then 0 else DigitsValue(s[..|s| - 1]) * 10 + DigitValue(s[|s| - 1])
  }

  /** int(s) for a string with no surrounding whitespace and no underscores:
      an optional sign followed by at least one decimal digit. */
  function ParseInt(s: string): (r: Option<int>)
    ensures r.Some? ==> |s| >= 1 && IsDigit(s[|s| - 1])
    ensures AllDigits(s) && s != [] ==> r == Some(DigitsValue(s))
  {
    if s == [] then None
    else if s[0] == '-' || s[0] == '+' then
      if |s| > 1 && AllDigits(s[1..]) then
        var magnitude: int := DigitsValue(s[1..]);
        Some(if s[0] == '-' then -magnitude else magnitude)
      else None
    else if AllDigits(s) then Some(DigitsValue(s))
    else None
  }

  /** int() accepts exactly an optional sign followed by at least one digit: digits
      alone give their value, '+' keeps it and '-' negates it; any other text gives
      no value. */
  lemma ParseIntSpec(s: string)
    ensures ParseInt(s).Some? <==>
              (s != [] && AllDigits(s)) || (|s| > 1 && (s[0] == '-' || s[0] == '+') && AllDigits(s[1..]))
    ensures s != [] && AllDigits(s) ==> ParseInt(s) == Some(DigitsValue(s))
    ensures |s| > 1 && s[0] == '+' && AllDigits(s[1..]) ==> ParseInt(s) == Some(DigitsValue(s[1..]))
    ensures |s| > 1 && s[0] == '-' && AllDigits(s[1..]) ==> ParseInt(s) == Some(-(DigitsValue(s[1..]) as int))
  {
    if s != [] && (s[0] == '-' || s[0] == '+') {
      assert !IsDigit(s[0]);
    }
  }

  lemma {:induction false} NatRoundTrip(n: nat)
    ensures DigitsValue(NatToString(n)) == n
    decreases n
  {
    if n >= 10 {
      var s := NatToString(n);
      assert s[..|s| - 1] == NatToString(n / 10);
      NatRoundTrip(n / 10);
    }
  }

  /** Printing an integer and reading it back with int() gives the integer. */
  lemma IntRoundTrip(n: int)
    ensures ParseInt(IntToString(n)) == Some(n)
  {
    if n < 0 {
      var digits := NatToString(-n);
      NatRoundTrip(-n);
      var s := "-" + digits;
      assert s[0] == '-' && s[1..] == digits && |s| > 1;
      assert AllDigits(s[1..]);
      assert ParseInt(s) == Some(n);
    } else {
      NatRoundTrip(n);
    }
  }
}

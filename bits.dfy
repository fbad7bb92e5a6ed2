/** The occupied-address bitmap of the RS-485 bus: the reply's integer is written in
    binary with format(n, 'b'), each binary digit is read back with int(), and the
    list is reversed so that index i stands for bit i (index 0 is the conflict flag). */
module Bits {

  import opened Errors
  import opened Text

  /** format(n, 'b') for n >= 0: binary digits, most significant first, no leading zeros. */
  function NatToBinary(n: nat): (s: string)
    ensures |s| >= 1
    ensures forall i :: 0 <= i < |s| ==> s[i] == '0' || s[i] == '1'
    decreases n
  {
    if n < 2 then [DigitChar(n)] else NatToBinary(n / 2) + [DigitChar(n % 2)]
  }

  /** format(n, 'b') for any integer: a negative number gets a leading '-'. */
  function FormatBinary(n: int): (s: string)
    ensures n >= 0 ==> |s| >= 1 && forall i :: 0 <= i < |s| ==> s[i] == '0' || s[i] == '1'
    ensures n < 0 ==> |s| >= 2 && s[0] == '-'
  {
    if n < 0 then "-" + NatToBinary(-n) else NatToBinary(n)
  }

  /** [int(s) for s in text]: every character read back as a one-character int(). */
  function DigitList(s: string): (r: Result<seq<int>>)
    ensures r.Ok? <==> AllDigits(s)
    ensures r.Ok? ==> |r.value| == |s|
    ensures r.Ok? ==> forall i :: 0 <= i < |s| ==> r.value[i] == DigitValue(s[i]) as int
    ensures r.Err? ==> r.error == ValueError(InvalidLiteralMsg)
  {
    if s == [] then Ok([])
    else if !IsDigit(s[0]) then Err(ValueError(InvalidLiteralMsg))
    else
      var rest :- DigitList(s[1..]);
      Ok([DigitValue(s[0]) as int] + rest)
  }

  /** s[::-1] */
  function Reverse<T>(s: seq<T>): (r: seq<T>)
    ensures |r| == |s|
    ensures forall i :: 0 <= i < |s| ==> r[i] == s[|s| - 1 - i]
  {
    if s == [] then [] else Reverse(s[1..]) + [s[0]]
  }

  /** Lines 548-549 of the driver, applied to the integer int(reply). */
  function BinaryAddressMap(n: int): (r: Result<seq<int>>)
    ensures r.Ok? <==> n >= 0
    ensures r.Ok? ==> |r.value| >= 1 && forall i :: 0 <= i < |r.value| ==> r.value[i] == 0 || r.value[i] == 1
    ensures r.Err? ==> r.error == ValueError(InvalidLiteralMsg)
  {
    var digits :- DigitList(FormatBinary(n));
    Ok(Reverse(digits))
  }

  /** The bits of n, least significant first; a single 0 for n == 0. */
  function LsbBits(n: nat): seq<int>
    decreases n
  {
    if n < 2 then [n] else [n % 2] + LsbBits(n / 2)
  }

  /** The number whose bits, least significant first, are `bits`. */
  function FromBits(bits: seq<int>): int {
    if bits == [] then 0 else bits[0] + 2 * FromBits(bits[1..])
  }

  function Pow2(i: nat): (p: nat)
    ensures p >= 1
  {
    if i == 0 then 1 else 2 * Pow2(i - 1)
  }

  lemma DigitListAppend(s: string, c: char)
    requires AllDigits(s) && IsDigit(c)
    ensures DigitList(s + [c]) == Ok(DigitList(s).value + [DigitValue(c) as int])
  {
    var t := s + [c];
    assert AllDigits(t);
    var d, ds := DigitList(t).value, DigitList(s).value;
    assert d == ds + [DigitValue(c) as int] by {
      forall i | 0 <= i < |d| ensures d[i] == (ds + [DigitValue(c) as int])[i] {
        if i < |s| {
          assert t[i] == s[i];
        }
      }
    }
  }

  lemma ReverseAppend<T>(s: seq<T>, x: T)
    ensures Reverse(s + [x]) == [x] + Reverse(s)
  {
    var r := Reverse(s + [x]);
    forall i | 0 <= i < |r| ensures r[i] == ([x] + Reverse(s))[i] {
      if i > 0 {
        assert r[i] == (s + [x])[|s| - i] == s[|s| - 1 - (i - 1)];
      }
    }
  }

  /** The bitmap of a non-negative number is its bit list, least significant bit first. */
  lemma {:induction false} BinaryAddressMapIsLsbBits(n: nat)
    ensures BinaryAddressMap(n) == Ok(LsbBits(n))
    decreases n
  {
    if n >= 2 {
      BinaryAddressMapIsLsbBits(n / 2);
      BinaryAddressMapStep(n);
    } else {
      BinaryAddressMapOfBit(n);
    }
  }

  lemma BinaryAddressMapOfBit(n: nat)
    requires n < 2
    ensures BinaryAddressMap(n) == Ok([n])
  {
    var s := FormatBinary(n);
    assert s == [DigitChar(n)] && s[1..] == [];
    assert DigitValue(DigitChar(n)) == n;
    assert AllDigits(s);
    var d := DigitList(s).value;
    assert |d| == 1 && d[0] == n;
    assert d == [n];
    assert Reverse([n]) == [n];
  }

  /** One more binary digit at the end of format(n, 'b') is one more bit at the front. */
  lemma BinaryAddressMapStep(n: nat)
    requires n >= 2
    requires BinaryAddressMap(n / 2) == Ok(LsbBits(n / 2))
    ensures BinaryAddressMap(n) == Ok(LsbBits(n))
  {
    var head := NatToBinary(n / 2);
    var c := DigitChar(n % 2);
    assert FormatBinary(n) == head + [c] by {
      assert FormatBinary(n) == NatToBinary(n);
    }
    assert FormatBinary(n / 2) == head;
    assert AllDigits(head);
    DigitListAppend(head, c);
    assert DigitValue(c) == n % 2;
    ReverseAppend(DigitList(head).value, n % 2);
  }

  /** A negative number cannot be read back: int('-') raises a ValueError. */
  lemma BinaryAddressMapOfNegative(n: int)
    requires n < 0
    ensures BinaryAddressMap(n) == Err(ValueError(InvalidLiteralMsg))
  {
    assert !IsDigit(FormatBinary(n)[0]);
  }

  /** The bit list is a binary representation of n: 0/1 entries, no leading zero,
      reading back to n, and as long as the binary representation of n. */
  lemma {:induction false} LsbBitsRepresent(n: nat)
    ensures |LsbBits(n)| >= 1
    ensures forall i :: 0 <= i < |LsbBits(n)| ==> LsbBits(n)[i] == 0 || LsbBits(n)[i] == 1
    ensures n > 0 ==> LsbBits(n)[|LsbBits(n)| - 1] == 1
    ensures FromBits(LsbBits(n)) == n
    ensures n < Pow2(|LsbBits(n)|)
    ensures n > 0 ==> Pow2(|LsbBits(n)| - 1) <= n
    decreases n
  {
    if n >= 2 {
      LsbBitsRepresent(n / 2);
      var rest := LsbBits(n / 2);
      assert LsbBits(n)[1..] == rest;
    }
  }

  lemma DivHalf(n: nat, p: nat)
    requires p >= 1
    ensures (n / 2) / p == n / (2 * p)
  {
    var q, a, b := n / 2, (n / 2) / p, (n / 2) % p;
    assert n == 2 * p * a + (2 * b + n % 2);
    assert 0 <= 2 * b + n % 2 < 2 * p;
    DivUnique(n, 2 * p, a, 2 * b + n % 2);
  }

  lemma DivUnique(n: nat, d: nat, a: nat, r: nat)
    requires d >= 1 && r < d && n == d * a + r
    ensures n / d == a
  {
    var q, m := n / d, n % d;
    assert d * q + m == d * a + r;
    if q > a {
      assert d * (q - a) == r - m;
      MulAtLeast(d, q - a);
    } else if q < a {
      assert d * (a - q) == m - r;
      MulAtLeast(d, a - q);
    }
  }

  lemma MulAtLeast(d: nat, k: int)
    requires k >= 1
    ensures d * k >= d
  {
    assert d * k == d + d * (k - 1);
  }

  /** Entry i of the bit list is bit i of n. */
  lemma {:induction false} LsbBitsAt(n: nat, i: nat)
    requires i < |LsbBits(n)|
    ensures LsbBits(n)[i] == (n / Pow2(i)) % 2
    decreases n
  {
    if i > 0 {
      assert n >= 2;
      LsbBitsAt(n / 2, i - 1);
      DivHalf(n, Pow2(i - 1));
    }
  }
  /** The bit lists of 5 and 6. */
  lemma SmallBitLists()
    ensures LsbBits(5) == [1, 0, 1]
    ensures LsbBits(6) == [0, 1, 1]
  {
    assert LsbBits(1) == [1];
    assert LsbBits(5) == [1] + LsbBits(2) == [1] + ([0] + LsbBits(1));
    assert LsbBits(6) == [0] + LsbBits(3) == [0] + ([1] + LsbBits(1));
  }
  /** Every entry of the bit list is the matching bit of n. */
  lemma LsbBitsAreBits(n: nat)
    ensures forall i :: 0 <= i < |LsbBits(n)| ==> LsbBits(n)[i] == (n / Pow2(i)) % 2
  {
    forall i | 0 <= i < |LsbBits(n)|
      ensures LsbBits(n)[i] == (n / Pow2(i)) % 2
    {
      LsbBitsAt(n, i);
    }
  }
}

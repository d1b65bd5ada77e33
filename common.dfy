/** Small helpers shared by the modules of the model: an optional value,
    the prefix of a buffer before its terminator, and decimal formatting
    as a C++ output stream writes an `int`. */
module Common {

  datatype Option<+T> = None | Some(value: T)

  /** The elements of `s` before the first occurrence of `nul`: what a
      C-style reader of a terminated buffer sees. */
  function UpToNul<T(==)>(s: seq<T>, nul: T): (r: seq<T>)
    ensures |r| <= |s| && r == s[..|r|]
    ensures nul !in r
    ensures |r| < |s| ==> s[|r|] == nul
  {
    if s == [] || s[0] == nul then [] else [s[0]] + UpToNul(s[1..], nul)
  }

  /** A buffer without the terminator is read back whole. */
  lemma {:induction false} UpToNulOfFree<T>(s: seq<T>, nul: T)
    requires nul !in s
    ensures UpToNul(s, nul) == s
  {
    if s != [] {
      UpToNulOfFree(s[1..], nul);
    }
  }

  /** A terminator-free prefix that ends at a terminator, or at the end,
      is exactly what is read. */
  lemma {:induction false} UpToNulAt<T>(s: seq<T>, nul: T, n: nat)
    requires n <= |s| && nul !in s[..n]
    requires n == |s| || s[n] == nul
    ensures UpToNul(s, nul) == s[..n]
  {
    if n > 0 {
      assert s[1..][..n - 1] == s[1..n];
      assert s[0] == s[..n][0];
      UpToNulAt(s[1..], nul, n - 1);
    }
  }

  /** Reading up to the terminator twice reads no further than once. */
  lemma UpToNulIdempotent<T>(s: seq<T>, nul: T)
    ensures UpToNul(UpToNul(s, nul), nul) == UpToNul(s, nul)
  {
    UpToNulOfFree(UpToNul(s, nul), nul);
  }

  function DigitChar(d: nat): (c: char)
    requires d < 10
    ensures '0' <= c <= '9'
  {
    ['0', '1', '2', '3', '4', '5', '6', '7', '8', '9'][d]
  }

  /** Decimal digits of a natural number, most significant first. */
  function NatDecimal(n: nat): (s: string)
    ensures |s| >= 1
    ensures forall i :: 0 <= i < |s| ==> '0' <= s[i] <= '9'
    decreases n
  {
    if n < 10 then [DigitChar(n)] else NatDecimal(n / 10) + [DigitChar(n % 10)]
  }

  /** The value that a string of decimal digits denotes. */
  function DigitsValue(s: string): nat
    requires forall i :: 0 <= i < |s| ==> '0' <= s[i] <= '9'
  {
    if s == [] then 0 else 10 * DigitsValue(s[..|s| - 1]) + ((s[|s| - 1] as int) - ('0' as int))
  }

  /** Formatting then reading the digits gives the number back. */
  lemma {:induction false} NatDecimalValue(n: nat)
    ensures DigitsValue(NatDecimal(n)) == n
    decreases n
  {
    if n >= 10 {
      var s := NatDecimal(n);
      assert s[..|s| - 1] == NatDecimal(n / 10);
      NatDecimalValue(n / 10);
    }
  }

  /** An `int` as `std::stringstream << n` writes it: a minus sign for
      negative numbers, then the decimal digits of the magnitude. */
  function IntDecimal(n: int): (s: string)
    ensures |s| >= 1
    ensures n < 0 <==> s[0] == '-'
  {
    if n < 0 then "-" + NatDecimal(-n) else NatDecimal(n)
  }
}

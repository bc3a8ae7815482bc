/** Byte strings, optional values and decimal numerals, as the servers use them. */
module GoText {

  newtype byte = x: int | 0 <= x < 256

  // A Go string or byte slice.
  type Text = seq<byte>

  datatype Option<+T> = None | Some(value: T)

  // An ASCII literal written as a Dafny string.
  function Ascii(s: string): (t: Text)
    requires forall i :: 0 <= i < |s| ==> (s[i] as int) < 128
    ensures |t| == |s| && forall i :: 0 <= i < |s| ==> t[i] as int == s[i] as int
  {
    seq(|s|, i requires 0 <= i < |s| => (s[i] as int) as byte)
  }

  const NUL: byte := 0

  // The number of bytes in front of the first NUL, or all of them.
  function BeforeNul(p: Text): (i: nat)
    ensures i <= |p| && NUL !in p[..i] && (i < |p| ==> p[i] == NUL)
  {
    if p == [] || p[0] == NUL then 0 else
      var i := BeforeNul(p[1..]);
      assert p[..1 + i] == [p[0]] + p[1..][..i];
      1 + i
  }

  lemma {:induction false} BeforeFirstNul(t: Text, rest: Text)
    requires NUL !in t
    ensures BeforeNul(t + [NUL] + rest) == |t|
  {
    var p := t + [NUL] + rest;
    if t != [] {
      BeforeFirstNul(t[1..], rest);
      assert p[1..] == t[1..] + [NUL] + rest;
    }
  }

  const MINUS: byte := 45
  const PLUS: byte := 43

  const MIN_INT := -0x8000_0000_0000_0000
  const MAX_INT := 0x7fff_ffff_ffff_ffff

  // strconv.Itoa on a non-negative number.
  function Digits(n: nat): (t: Text)
    ensures t != []
  {
    if n < 10 then [(48 + n) as byte] else Digits(n / 10) + [(48 + n % 10) as byte]
  }

  // strconv.Itoa, and fmt's %d.
  function Itoa(n: int): Text {
    if n < 0 then [MINUS] + Digits(-n) else Digits(n)
  }

  predicate IsDigit(b: byte) {
    48 <= b <= 57
  }

  // The number a digit string denotes; None when it is empty or holds another character.
  function Magnitude(t: Text): Option<nat> {
    if t == [] || !IsDigit(t[|t| - 1]) then None
    else
      var d := t[|t| - 1] as int - 48;
      if |t| == 1 then Some(d)
      else
        match Magnitude(t[..|t| - 1])
        case None => None
        case Some(high) => Some(10 * high + d)
  }

  // strconv.Atoi: an optional sign, at least one digit, a 64-bit result.
  function Atoi(t: Text): Option<int> {
    var signed := t != [] && (t[0] == MINUS || t[0] == PLUS);
    match Magnitude(if signed then t[1..] else t)
    case None => None
    case Some(m) =>
      var v := if signed && t[0] == MINUS then 0 - m else m;
      if MIN_INT <= v <= MAX_INT then Some(v) else None
  }

  lemma {:induction false} MagnitudeOfDigits(n: nat)
    ensures Magnitude(Digits(n)) == Some(n)
    ensures forall i :: 0 <= i < |Digits(n)| ==> IsDigit(Digits(n)[i])
  {
    if n >= 10 {
      MagnitudeOfDigits(n / 10);
      var t := Digits(n);
      assert t[..|t| - 1] == Digits(n / 10);
    }
  }

  lemma DigitsInjective(m: nat, n: nat)
    requires Digits(m) == Digits(n)
    ensures m == n
  {
    MagnitudeOfDigits(m);
    MagnitudeOfDigits(n);
  }

  // Parsing undoes printing on every 64-bit integer, negative ones included.
  lemma AtoiUndoesItoa(n: int)
    requires MIN_INT <= n <= MAX_INT
    ensures Atoi(Itoa(n)) == Some(n)
  {
    MagnitudeOfDigits(if n < 0 then -n else n);
    if n < 0 {
      assert Itoa(n)[1..] == Digits(-n);
    } else {
      assert IsDigit(Itoa(n)[0]);
    }
  }

  // A printed integer is read back exactly if it fits into 64 bits, and is refused otherwise.
  lemma AtoiIsSixtyFourBit(n: int)
    ensures Atoi(Itoa(n)) == if -9223372036854775808 <= n <= 9223372036854775807 then Some(n) else None
  {
    MagnitudeOfDigits(if n < 0 then -n else n);
    if n < 0 {
      assert Itoa(n)[1..] == Digits(-n);
    } else {
      assert IsDigit(Itoa(n)[0]);
    }
  }

  // Numerals are decimal, and in ASCII.
  lemma NumeralsInAscii()
    ensures Itoa(-9876543210) == Ascii("-9876543210")
  {
    NextDigit(9, 8); NextDigit(98, 7); NextDigit(987, 6); NextDigit(9876, 5); NextDigit(98765, 4);
    NextDigit(987654, 3); NextDigit(9876543, 2); NextDigit(98765432, 1); NextDigit(987654321, 0);
  }

  lemma NextDigit(n: nat, d: nat)
    requires 0 < n && d < 10
    ensures Digits(10 * n + d) == Digits(n) + [(48 + d) as byte]
  {
  }

  // A numeral never contains the NUL separator.
  lemma NumeralHasNoNul(n: int)
    ensures 0 !in Itoa(n)
  {
    MagnitudeOfDigits(if n < 0 then -n else n);
  }
}

// Integers in decimal notation, as strconv.Itoa and the verb %d write them.
module Decimal {

  predicate IsDigit(c: char) {
    '0' <= c <= '9'
  }

  function Digit(d: int): char
    requires 0 <= d < 10
  {
    '0' + d as char
  }

  function Digits(n: nat): (s: string)
    ensures s != [] && forall c <- s :: IsDigit(c)
  {
    if n < 10 then [Digit(n)] else Digits(n / 10) + [Digit(n % 10)]
  }

  function Itoa(n: int): string {
    if n < 0 then "-" + Digits(-n) else Digits(n)
  }

  // The value that the digits denote.
  function Value(s: string): nat
    requires forall c <- s :: IsDigit(c)
  {
    if s == [] then 0
    else
      assert IsDigit(s[|s| - 1]);
      Value(s[..|s| - 1]) * 10 + (s[|s| - 1] as int - '0' as int)
  }

  lemma {:induction false} ValueOfDigits(n: nat)
    ensures Value(Digits(n)) == n
  {
    var s := Digits(n);
    if n < 10 {
      assert s[..0] == [];
    } else {
      ValueOfDigits(n / 10);
      assert s[..|s| - 1] == Digits(n / 10);
    }
  }

  // Two integers are written alike only if they are equal.
  lemma ItoaInjective(m: int, n: int)
    ensures Itoa(m) == Itoa(n) ==> m == n
  {
    if Itoa(m) == Itoa(n) {
      var dm, dn := Digits(if m < 0 then -m else m), Digits(if n < 0 then -n else n);
      assert IsDigit(dm[0]) && IsDigit(dn[0]);
      if m < 0 && n < 0 {
        assert Itoa(m)[1..] == dm && Itoa(n)[1..] == dn;
      }
      assert (m < 0) == (n < 0);
      ValueOfDigits(if m < 0 then -m else m);
      ValueOfDigits(if n < 0 then -n else n);
    }
  }

  // Neither a separator nor a letter occurs in a number.
  lemma ItoaChars(n: int)
    ensures Itoa(n) != [] && forall c <- Itoa(n) :: IsDigit(c) || c == '-'
  {
  }
}

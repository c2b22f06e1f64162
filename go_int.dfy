/** Go's integer division and remainder.

    Go's `/` truncates toward zero and `%` takes the sign of the dividend,
    whereas Dafny's `/` and `%` are Euclidean. The layout arithmetic is
    written with these so that it means what the Go program computes for
    every operand, including negative ones. A zero divisor makes Go panic,
    so both require a non-zero divisor.
 */
module GoInt {

  function Abs(x: int): (r: nat)
    ensures r == x || r == -x
  {
    if x < 0 then -x else x
  }

  /** Go's `a / b`: the quotient truncated toward zero. */
  function Quo(a: int, b: int): (q: int)
    requires b != 0
    ensures 0 <= a && 0 < b ==> q == a / b
    ensures Abs(b * q) <= Abs(a) < Abs(b * q) + Abs(b)
    ensures q != 0 ==> ((q < 0) <==> ((a < 0) != (b < 0)))
  {
    var m: int := Abs(a) / Abs(b);
    assert 0 <= m;
    var q := if (a < 0) == (b < 0) then m else -m;
    QuoBounds(a, b, q);
    q
  }

  lemma QuoBounds(a: int, b: int, q: int)
    requires b != 0
    requires q == Abs(a) / Abs(b) || q == -(Abs(a) / Abs(b))
    ensures Abs(b * q) <= Abs(a) < Abs(b * q) + Abs(b)
  {
    var A: int, B: int := Abs(a), Abs(b);
    var m: int := A / B;
    var r: int := A % B;
    assert A == B * m + r && 0 <= r < B;
    AbsMul(b, q);
    assert Abs(q) == m;
  }

  /** Go's `a % b`: the remainder whose sign is that of the dividend. */
  function Rem(a: int, b: int): (r: int)
    requires b != 0
    ensures a == b * Quo(a, b) + r
    ensures Abs(r) < Abs(b)
    ensures r != 0 ==> ((r < 0) <==> (a < 0))
    ensures 0 <= a && 0 < b ==> r == a % b
  {
    var m := Abs(a) % Abs(b);
    DivMod(a, b);
    if a < 0 then -m else m
  }

  lemma AbsMul(x: int, y: int)
    ensures Abs(x * y) == Abs(x) * Abs(y)
  {
    if x < 0 && y < 0 {
      assert x * y == (-x) * (-y);
    } else if x < 0 {
      assert -(x * y) == (-x) * y;
    } else if y < 0 {
      assert -(x * y) == x * (-y);
    }
  }

  /** Go's division identity `(a / b) * b + a % b == a`, from Euclid's on |a| and |b|. */
  lemma DivMod(a: int, b: int)
    requires b != 0
    ensures var m := Abs(a) / Abs(b);
            var q := if (a < 0) == (b < 0) then m else -m;
            var r := if a < 0 then -(Abs(a) % Abs(b)) else Abs(a) % Abs(b);
            a == b * q + r
  {
    var A: int, B: int := Abs(a), Abs(b);
    var m: int := A / B;
    assert A == B * m + A % B;
    if b < 0 {
      assert b * m == -(B * m);
      assert b * -m == B * m;
    } else {
      assert b * -m == -(B * m);
    }
  }

  /** Dividing the negated dividend negates the quotient: Go truncates toward zero. */
  lemma {:induction false} QuoOdd(a: int, b: int)
    requires b != 0
    ensures Quo(-a, b) == -Quo(a, b)
    ensures Rem(-a, b) == -Rem(a, b)
  {
    assert Abs(-a) == Abs(a);
    if a == 0 {
    } else if a < 0 {
      assert -a > 0;
    }
  }
}

/** Which integers a C double holds exactly, and to which one strtod rounds the others. */
module Doubles {
  /** Two to the power of 53: a double has 53 significant bits. */
  const EXACT: int := 0x20_0000_0000_0000

  /** The distance between neighbouring doubles around a. */
  function Ulp(a: nat): (u: nat)
    ensures u >= 1
  {
    if a < EXACT then 1 else 2 * Ulp(a / 2)
  }

  function Magnitude(n: int): nat {
    if n < 0 then -n else n
  }

  predicate Representable(n: int) {
    Magnitude(n) % Ulp(Magnitude(n)) == 0
  }

  /** Round to nearest, ties to even. */
  function NearestNat(a: nat): nat {
    var u := Ulp(a);
    var q, r := a / u, a % u;
    NotNegative(q, u);
    if 2 * r < u || (2 * r == u && q % 2 == 0) then q * u else q * u + u
  }

  function Nearest(n: int): int {
    var nearest: int := NearestNat(Magnitude(n));
    if n < 0 then -nearest else nearest
  }

  // ----- arithmetic -----

  lemma NotNegative(a: nat, b: nat)
    ensures a * b >= 0
  {}

  lemma MultiplesGrow(k: int, d: nat)
    ensures k >= 1 ==> k * d >= d
    ensures k <= -1 ==> k * d + d <= 0
  {
    if k >= 1 {
      NotNegative(k - 1, d);
      assert k * d == (k - 1) * d + d;
    } else if k <= -1 {
      NotNegative(-k - 1, d);
      assert k * d == -((-k - 1) * d) - d;
    }
  }

  lemma QuotientIs(x: nat, d: nat, q: nat, r: nat)
    requires x == q * d + r && r < d
    ensures x / d == q && x % d == r
  {
    var p, s := x / d, x % d;
    assert x == p * d + s && 0 <= s < d;
    assert (p - q) * d == r - s;
    MultiplesGrow(p - q, d);
  }

  lemma {:induction false} Grows(a: nat, b: nat, d: nat)
    requires a <= b
    ensures a * d <= b * d
  {
    assert b * d == a * d + (b - a) * d;
    assert (b - a) * d >= 0;
  }

  lemma HalfQuotient(x: nat, u: nat)
    requires u > 0
    ensures x / (2 * u) == x / 2 / u
  {
    var q, r := x / 2 / u, x / 2 % u;
    assert x / 2 == q * u + r;
    assert x == q * (2 * u) + (2 * r + x % 2);
    QuotientIs(x, 2 * u, q, 2 * r + x % 2);
  }

  // ----- binades -----

  lemma {:induction false} UlpRange(a: nat)
    ensures a / Ulp(a) < EXACT
    ensures a >= EXACT ==> a / Ulp(a) >= EXACT / 2 && Ulp(a) >= 2
  {
    if a >= EXACT {
      UlpRange(a / 2);
      HalfQuotient(a, Ulp(a / 2));
    }
  }

  /** The distance depends only on the leading bits. */
  lemma {:induction false} SameUlp(a: nat, b: nat)
    requires b / Ulp(a) == a / Ulp(a)
    ensures Ulp(b) == Ulp(a)
  {
    if a >= EXACT {
      UlpRange(a);
      HalfQuotient(a, Ulp(a / 2));
      HalfQuotient(b, Ulp(a / 2));
      SameUlp(a / 2, b / 2);
      assert b >= EXACT by {
        assert b / Ulp(a) * Ulp(a) <= b;
        Grows(EXACT / 2, b / Ulp(a), Ulp(a));
        assert EXACT / 2 * Ulp(a) >= EXACT;
      }
    }
  }

  /** Past the last double of a binade the distance doubles. */
  lemma {:induction false} TopUlp(a: nat)
    ensures Ulp(EXACT * Ulp(a)) == 2 * Ulp(a)
    decreases a
  {
    if a < EXACT {
      assert Ulp(EXACT / 2) == 1;
    } else {
      var u := Ulp(a / 2);
      TopUlp(a / 2);
      assert EXACT * (2 * u) == 2 * (EXACT * u);
      assert EXACT * (2 * u) / 2 == EXACT * u;
    }
  }

  lemma MultipleIsRepresentable(a: nat, q: nat)
    requires q == a / Ulp(a) || q == a / Ulp(a) + 1
    ensures q * Ulp(a) >= 0 && Representable(q * Ulp(a))
  {
    hide Ulp;
    var u := Ulp(a);
    UlpRange(a);
    NotNegative(q, u);
    if q == a / u {
      QuotientIs(q * u, u, q, 0);
      SameUlp(a, q * u);
    } else if q < EXACT {
      NextMultiple(a, q);
    } else {
      TopMultiple(a);
    }
  }

  lemma TopMultiple(a: nat)
    ensures EXACT * Ulp(a) >= 0 && Representable(EXACT * Ulp(a))
  {
    hide Ulp;
    var u := Ulp(a);
    TopUlp(a);
    QuotientIs(EXACT * u, 2 * u, EXACT / 2, 0);
  }

  lemma {:induction false} NextMultiple(a: nat, q: nat)
    requires q == a / Ulp(a) + 1 && q < EXACT
    ensures Ulp(q * Ulp(a)) == Ulp(a) && q * Ulp(a) % Ulp(a) == 0
    decreases a
  {
    var u := Ulp(a);
    QuotientIs(q * u, u, q, 0);
    if a >= EXACT {
      UlpRange(a);
      var v := Ulp(a / 2);
      HalfQuotient(a, v);
      NextMultiple(a / 2, q);
      assert q * u == 2 * (q * v);
      assert q * u / 2 == q * v;
      assert q * u >= EXACT by {
        Grows(EXACT / 2, q, u);
        assert EXACT / 2 * u >= EXACT;
      }
    } else {
      assert q * u == q;
    }
  }

  // ----- what rounding does -----

  lemma NearestIsRepresentable(n: int)
    ensures Representable(Nearest(n))
  {
    var a := Magnitude(n);
    var u := Ulp(a);
    MultipleIsRepresentable(a, a / u);
    MultipleIsRepresentable(a, a / u + 1);
    assert (a / u + 1) * u == a / u * u + u;
  }

  /** A number survives exactly when a double holds it. */
  lemma NearestIsExact(n: int)
    ensures Nearest(n) == n <==> Representable(n)
  {
    var a := Magnitude(n);
    var u := Ulp(a);
    var q, r := a / u, a % u;
    assert a == q * u + r;
  }

  /** No double lies strictly between two neighbours. */
  lemma NoneBetween(a: nat, m: nat)
    requires a / Ulp(a) * Ulp(a) < m < a / Ulp(a) * Ulp(a) + Ulp(a)
    ensures !Representable(m)
  {
    hide Ulp;
    var u := Ulp(a);
    var q := a / u;
    var r := m - q * u;
    QuotientIs(m, u, q, r);
    SameUlp(a, m);
  }

  lemma NearestNatIsNearest(a: nat, b: int)
    requires b >= 0 ==> Representable(b)
    ensures Magnitude(NearestNat(a) - a) <= Magnitude(b - a)
  {
    hide Ulp, Representable;
    var u := Ulp(a);
    var q, r := a / u, a % u;
    var p := q * u;
    assert a == p + r;
    NotNegative(q, u);
    if b >= 0 {
      if p < b < p + u {
        NoneBetween(a, b);
      }
    }
  }

  /** No double is nearer. */
  lemma NearestIsNearest(n: int, m: int)
    requires Representable(m)
    ensures Magnitude(Nearest(n) - n) <= Magnitude(m - n)
  {
    hide Ulp, NearestNat;
    NearestNatIsNearest(Magnitude(n), if n < 0 then -m else m);
  }

  lemma SmallIsRepresentable(n: int)
    requires -EXACT <= n <= EXACT
    ensures Representable(n)
  {
    assert Ulp(EXACT / 2) == 1;
  }
}

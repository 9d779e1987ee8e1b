/** The finite float64 numbers of Go, as real numbers: what rounding does to a result. */
module Float64 {

  /** 2^e. */
  function Pow2(e: int): (p: real)
    ensures p > 0.0
    decreases if e < 0 then -e else e
  {
    if e == 0 then 1.0 else if e > 0 then 2.0 * Pow2(e - 1) else Pow2(e + 1) / 2.0
  }

  /** The largest `e` up to `top` with 2^e <= x, but not below the exponent of the smallest normal number. */
  function Exponent(x: real, top: int): (e: int)
    requires top >= -1022
    ensures -1022 <= e <= top
    ensures e == -1022 || Pow2(e) <= x
    ensures e == top || x < Pow2(e + 1)
    decreases top + 1022
  {
    if top == -1022 || Pow2(top) <= x then top else Exponent(x, top - 1)
  }

  /** Distance between neighbouring float64 numbers around `x`: a significand has 53 bits. */
  function Spacing(x: real): (u: real)
    ensures u > 0.0
  {
    Pow2(Exponent(x, 1023) - 52)
  }

  /** The integer nearest to `y`, ties to even. */
  function NearestInteger(y: real): (n: int)
    ensures -0.5 <= n as real - y <= 0.5
    ensures y == y.Floor as real ==> n == y.Floor
  {
    var q := y.Floor;
    var rest := y - q as real;
    if rest < 0.5 || (rest == 0.5 && q % 2 == 0) then q else q + 1
  }

  function RoundMagnitude(x: real): real
    requires x >= 0.0
  {
    NearestInteger(x / Spacing(x)) as real * Spacing(x)
  }

  /** The float64 nearest to `x`, ties to even. */
  function Round(x: real): real {
    if x < 0.0 then -RoundMagnitude(-x) else RoundMagnitude(x)
  }

  // ----- powers of two -----

  lemma {:induction false} Pow2Next(e: int)
    ensures Pow2(e + 1) == 2.0 * Pow2(e)
  {
  }

  lemma Pow2Zero()
    ensures Pow2(0) == 1.0
  {
  }

  lemma TwiceInside(a: real, b: real)
    ensures a * (2.0 * b) == 2.0 * (a * b)
  {
  }

  lemma {:induction false} Pow2Add(a: int, b: nat)
    ensures Pow2(a + b) == Pow2(a) * Pow2(b)
  {
    hide Pow2;
    Pow2Zero();
    if b > 0 {
      Pow2Add(a, b - 1);
      Pow2Next(a + b - 1);
      Pow2Next(b - 1);
      TwiceInside(Pow2(a), Pow2(b - 1));
    }
  }

  lemma {:induction false} Pow2Monotone(a: int, b: int)
    requires a <= b
    ensures Pow2(a) <= Pow2(b)
    decreases b - a
  {
    if a < b {
      Pow2Monotone(a, b - 1);
      Pow2Next(b - 1);
    }
  }

  /** The powers that the constants below stand for. */
  lemma Powers()
    ensures Pow2(53) == 9007199254740992.0 && Pow2(52) == 4503599627370496.0 && Pow2(-51) == 1.0 / 2251799813685248.0
    ensures Pow2(-106) == 1.0 / 81129638414606681695789005144064.0
  {
    hide Pow2;
    SmallPowers();
    Pow2Add(4, 4);
    Pow2Add(8, 8);
    Pow2Add(16, 16);
    Pow2Add(32, 16);
    Pow2Add(48, 4);
    Pow2Add(52, 1);
    Pow2Add(53, 53);
    Pow2Add(-106, 106);
    Pow2Add(48, 3);
    Pow2Add(-51, 51);
  }

  lemma SmallPowers()
    ensures Pow2(0) == 1.0 && Pow2(1) == 2.0 && Pow2(3) == 8.0 && Pow2(4) == 16.0
  {
    assert Pow2(1) == 2.0 * Pow2(0) && Pow2(2) == 2.0 * Pow2(1) && Pow2(3) == 2.0 * Pow2(2) && Pow2(4) == 2.0 * Pow2(3);
  }

  lemma {:induction false} ExponentIs(x: real, e: int, top: int)
    requires -1022 <= e <= top && Pow2(e) <= x < Pow2(e + 1)
    ensures Exponent(x, top) == e
    decreases top - e
  {
    if e < top {
      Pow2Monotone(e + 1, top);
      ExponentIs(x, e, top - 1);
    }
  }

  // ----- the error of rounding -----

  lemma Nearby(x: real, u: real, n: int)
    requires u > 0.0 && -0.5 <= n as real - x / u <= 0.5
    ensures -u / 2.0 <= n as real * u - x <= u / 2.0
  {
    var d := n as real - x / u;
    assert x / u * u == x;
    assert n as real * u - x == d * u;
  }

  lemma RoundWithin(x: real)
    requires x >= 0.0
    ensures -Spacing(x) / 2.0 <= Round(x) - x <= Spacing(x) / 2.0
  {
    hide Spacing, NearestInteger;
    Nearby(x, Spacing(x), NearestInteger(x / Spacing(x)));
  }

  /** Half the spacing is at most 2^-53 of the number, or less than 2^-106 next to zero. */
  lemma SpacingIsSmall(x: real)
    requires x >= 0.0
    ensures Spacing(x) / 2.0 <= x / 9007199254740992.0 + 1.0 / 81129638414606681695789005144064.0
  {
    hide Pow2, Exponent;
    var e := Exponent(x, 1023);
    Pow2Next(e - 53);
    assert Spacing(x) / 2.0 == Pow2(e - 53);
    Powers();
    if e == -1022 {
      Pow2Monotone(-1075, -106);
    } else {
      Pow2Add(e - 53, 53);
      assert Pow2(e - 53) * 9007199254740992.0 == Pow2(e) <= x;
    }
  }

  /** Rounding moves a number by no more than that. */
  lemma RoundError(x: real)
    requires x >= 0.0
    ensures Round(x) - x <= x / 9007199254740992.0 + 1.0 / 81129638414606681695789005144064.0
    ensures x - Round(x) <= x / 9007199254740992.0 + 1.0 / 81129638414606681695789005144064.0
  {
    hide Spacing, Round;
    SpacingIsSmall(x);
    RoundWithin(x);
  }

  /** Rounding is exact on the multiples of the spacing. */
  lemma RoundExact(x: real, e: int, n: int)
    requires -1022 <= e <= 1023 && Pow2(e) <= x < Pow2(e + 1) && x == n as real * Pow2(e - 52)
    ensures Round(x) == x
  {
    hide Pow2, NearestInteger, Exponent;
    ExponentIs(x, e, 1023);
    Multiple(n as real, Pow2(e - 52));
    assert x / Spacing(x) == n as real && (n as real).Floor == n;
    assert NearestInteger(x / Spacing(x)) == n;
  }

  lemma Multiple(y: real, u: real)
    requires u > 0.0
    ensures y * u / u == y
  {
  }

  lemma RoundNonNegative(x: real)
    requires x >= 0.0
    ensures Round(x) >= 0.0
  {
    hide Spacing;
    var u := Spacing(x);
    assert x / u >= 0.0;
    assert NearestInteger(x / u) >= 0;
    Product(NearestInteger(x / u) as real, u);
  }

  lemma Product(a: real, b: real)
    requires a >= 0.0 && b >= 0.0
    ensures a * b >= 0.0
  {
  }

  /** The result of a rounding, for a number whose exponent is known. */
  lemma RoundsTo(x: real, e: int, u: real, n: int)
    requires -1022 <= e <= 1023 && Pow2(e) <= x < Pow2(e + 1) && u == Pow2(e - 52) && NearestInteger(x / u) == n
    ensures Round(x) == n as real * u
  {
    hide Pow2, NearestInteger, Exponent;
    ExponentIs(x, e, 1023);
  }

  // ----- integers -----

  function IntPow2(k: nat): nat {
    if k == 0 then 1 else 2 * IntPow2(k - 1)
  }

  lemma {:induction false} IntPow2Is(k: nat)
    ensures IntPow2(k) as real == Pow2(k)
  {
    if k > 0 {
      IntPow2Is(k - 1);
    }
  }

  lemma RoundZero()
    ensures Round(0.0) == 0.0
  {
    hide Spacing, NearestInteger;
    assert 0.0 / Spacing(0.0) == 0.0;
    assert NearestInteger(0.0) == 0;
  }

  lemma Scaled(n: real, a: real, b: real)
    requires a * b == 1.0
    ensures n * a * b == n
  {
    assert n * a * b == n * (a * b);
  }

  /** Every integer up to 2^53 is a float64. */
  lemma RoundInteger(n: nat)
    requires n <= 0x20_0000_0000_0000
    ensures Round(n as real) == n as real
  {
    hide Pow2, Exponent, Round;
    Powers();
    SmallPowers();
    if n == 0 {
      RoundZero();
    } else if n == 0x20_0000_0000_0000 {
      Pow2Next(53);
      RoundExact(n as real, 53, 0x10_0000_0000_0000);
    } else {
      var e := Exponent(n as real, 1023);
      if e < 0 { Pow2Monotone(e + 1, 0); }
      if e > 52 { Pow2Monotone(53, e); }
      Pow2Add(e - 52, 52 - e);
      IntPow2Is(52 - e);
      Scaled(n as real, Pow2(52 - e), Pow2(e - 52));
      RoundExact(n as real, e, n * IntPow2(52 - e));
    }
  }

  /** The next one is not, and lies half way to the number below it, whose significand is even. */
  lemma RoundBeyond()
    ensures Round(0x20_0000_0000_0001 as real) == 0x20_0000_0000_0000 as real
  {
    hide Pow2, Exponent;
    Powers();
    SmallPowers();
    Pow2Next(53);
    ExponentIs(0x20_0000_0000_0001 as real, 53, 1023);
    assert Spacing(0x20_0000_0000_0001 as real) == 2.0;
    var y := 0x20_0000_0000_0001 as real / 2.0;
    assert y.Floor == 0x10_0000_0000_0000;
  }
}

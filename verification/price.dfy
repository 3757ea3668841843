/**
 The weighted price draw of the PAWScoin tracker.

 A draw takes a uniform random number `r` in [0, 1), transforms it to the
 integer `int((1 - sqrt(r)) * 100)` and clamps that integer to the price
 range [0, 99]. The random source and the floating-point square root are
 inputs here: `Clamp` accepts whatever integer the transform produced, and
 `Skew` describes the transform itself over exact reals, given the root.
 */
module Price {

  const MinPrice: int := 0
  const MaxPrice: int := 99

  /** Scale factor of the transform: `(1 - root) * Scale`. */
  const Scale: real := 100.0

  predicate InPriceRange(p: int) {
    MinPrice <= p <= MaxPrice
  }

  function Min(a: int, b: int): int {
    if a <= b then a else b
  }

  function Max(a: int, b: int): int {
    if a >= b then a else b
  }

  /** `min(max(v, 0), 99)`: any integer becomes a price in range; a value
      already in range is kept, and one outside is pinned to the nearer end. */
  function Clamp(v: int): (p: int)
    ensures InPriceRange(p)
    ensures InPriceRange(v) ==> p == v
    ensures v < MinPrice ==> p == MinPrice
    ensures v > MaxPrice ==> p == MaxPrice
  {
    Min(Max(v, MinPrice), MaxPrice)
  }

  /** Clamping a clamped price changes nothing. */
  lemma ClampIdempotent(v: int)
    ensures Clamp(Clamp(v)) == Clamp(v)
  {}

  /** A larger raw value never yields a smaller price. */
  lemma ClampMonotone(v: int, w: int)
    requires v <= w
    ensures Clamp(v) <= Clamp(w)
  {}

  /** Python's `int(x)` on a float: truncation toward zero, so the result
      never exceeds `x` in magnitude and lies within 1 of it, on x's side of 0. */
  function TruncateTowardZero(x: real): (n: int)
    ensures 0.0 <= x ==> 0 <= n && n as real <= x < n as real + 1.0
    ensures x < 0.0 ==> n <= 0 && n as real - 1.0 < x <= n as real
  {
    if x >= 0.0 then x.Floor else -((-x).Floor)
  }

  /** Truncation toward zero is monotone over all reals. */
  lemma TruncateMonotone(x: real, y: real)
    requires x <= y
    ensures TruncateTowardZero(x) <= TruncateTowardZero(y)
  {
    var m, n := TruncateTowardZero(x), TruncateTowardZero(y);
    if 0.0 <= x {
      assert m as real <= x <= y < n as real + 1.0;
    } else if y < 0.0 {
      assert m as real - 1.0 < x <= y <= n as real;
    } else {
      assert m <= 0 <= n;
    }
  }

  /** The skewed value `int((1 - root) * 100)` for `root = r ** 0.5`. For a
      root in [0, 1] it is the floor of `(1 - root) * 100`, so it lies in
      [0, 100], and it reaches 100 exactly when the root is 0, i.e. when the
      uniform draw was 0. */
  function Skew(root: real): (s: int)
    ensures 0.0 <= root <= 1.0 ==> 0 <= s <= 100
    ensures 0.0 <= root <= 1.0 ==> (s == 100 <==> root == 0.0)
    ensures 0.0 <= root <= 1.0 ==> s as real <= (1.0 - root) * Scale < s as real + 1.0
  {
    var x := (1.0 - root) * Scale;
    assert 0.0 <= root <= 1.0 ==> 0.0 <= x <= Scale;
    assert 0.0 < root <= 1.0 ==> TruncateTowardZero(x) as real <= x < 100.0;
    TruncateTowardZero(x)
  }

  /** The transform is decreasing: a larger root never gives a larger value. */
  lemma SkewAntitone(a: real, b: real)
    requires a <= b
    ensures Skew(b) <= Skew(a)
  {
    TruncateMonotone((1.0 - b) * Scale, (1.0 - a) * Scale);
  }

  /** `generate_weighted_price` with the square root of the uniform draw as
      input: always a price in range; for a root in (0, 1] the clamp is
      inactive, and only a zero root (value 100) is pinned to 99. */
  function GenerateWeightedPrice(root: real): (p: int)
    ensures InPriceRange(p)
    ensures 0.0 < root <= 1.0 ==> p == Skew(root)
    ensures root == 0.0 ==> p == MaxPrice
    ensures root >= 1.0 ==> p == MinPrice
  {
    assert root > 1.0 ==> Skew(root) <= Skew(1.0) by {
      if root > 1.0 {
        SkewAntitone(1.0, root);
      }
    }
    Clamp(Skew(root))
  }
}

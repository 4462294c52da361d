/**
 * Sizes of rectangle for an area: the squarest exact factorisation, a rectangle of a
 * required aspect ratio, and a rectangle that fits given bounds. Aspect ratios are
 * exact real numbers and the square root is exact.
 */
module AreaToRect {
  /** The integer part of the square root. */
  function FloorSqrt(n: nat): (r: nat)
    ensures r * r <= n < (r + 1) * (r + 1)
  {
    if n == 0 then 0
    else
      var s := FloorSqrt(n - 1);
      if (s + 1) * (s + 1) <= n then s + 1 else s
  }

  function CeilDiv(a: int, b: int): int
    requires b > 0
  {
    (a + b - 1) / b
  }

  lemma CeilDivBounds(a: int, b: int)
    requires b > 0
    ensures (CeilDiv(a, b) - 1) * b < a <= CeilDiv(a, b) * b
  {
    var q := CeilDiv(a, b);
    assert a + b - 1 == b * q + (a + b - 1) % b;
    assert (q - 1) * b == b * q - b;
  }

  /** A quotient rounded up stays within any bound whose multiple covers the dividend. */
  lemma CeilDivWithin(a: int, b: int, c: int)
    requires b > 0 && 0 < a <= b * c
    ensures 1 <= CeilDiv(a, b) <= c
  {
    CeilDivBounds(a, b);
    var q := CeilDiv(a, b);
    assert q <= 0 ==> q * b <= 0;
    assert q - 1 >= c ==> (q - 1) * b >= c * b;
  }

  // ----- squarest_rectangle

  /** The largest divisor of the area that is at most h. */
  function DivisorUpTo(area: nat, h: nat): (d: nat)
    requires area >= 1 && h >= 1
    ensures 1 <= d <= h && Divides(d, area)
    decreases h
  {
    if Divides(h, area) then h else DivisorUpTo(area, h - 1)
  }

  predicate Divides(d: nat, n: nat)
    requires d >= 1
  {
    n % d == 0
  }

  lemma {:induction false} DivisorUpToIsLargest(area: nat, h: nat, k: nat)
    requires area >= 1 && 1 <= k <= h && Divides(k, area)
    ensures k <= DivisorUpTo(area, h)
    decreases h
  {
    if !Divides(h, area) {
      DivisorUpToIsLargest(area, h - 1, k);
    }
  }

  function Squarest(area: nat): (nat, nat)
    requires area >= 1
  {
    var h := DivisorUpTo(area, FloorSqrt(area));
    (area / h, h)
  }

  /** A w by h landscape rectangle of exactly this area, of which no exact landscape rectangle is taller. */
  ghost predicate IsSquarest(area: nat, w: nat, h: nat) {
    && w * h == area && 1 <= h <= w
    && forall k, m :: 1 <= k <= m && m * k == area ==> k <= h
  }

  lemma SquarestIsSquarest(area: nat)
    requires area >= 1
    ensures IsSquarest(area, Squarest(area).0, Squarest(area).1)
  {
    var s := FloorSqrt(area);
    var h := DivisorUpTo(area, s);
    var w := area / h;
    assert w * h == area;
    Taller(area, w, h, s);
    forall k: int, m: int | 1 <= k <= m && m * k == area
      ensures k <= h
    {
      SmallFactor(area, m, k, s);
      DivisorUpToIsLargest(area, s, k);
    }
  }

  lemma Taller(area: nat, w: int, h: nat, s: nat)
    requires w * h == area && 1 <= h <= s && s * s <= area
    ensures h <= w
  {
    MulMonotone(h, s, h);
    MulMonotone(h, s, s);
    assert w <= h - 1 ==> w * h <= (h - 1) * h;
    assert (h - 1) * h == h * h - h;
  }

  lemma MulMonotone(a: int, b: int, c: int)
    requires a <= b && c >= 0
    ensures a * c <= b * c && c * a <= c * b
  {
  }

  /** The shorter side of an exact rectangle divides the area and is at most the square root. */
  lemma SmallFactor(area: nat, m: int, k: int, s: nat)
    requires area >= 1 && 1 <= k <= m && m * k == area && area < (s + 1) * (s + 1)
    ensures k <= s && Divides(k, area)
  {
    MulMonotone(k, m, k);
    assert k >= s + 1 ==> k * k >= (s + 1) * (s + 1);
    DivisibleBy(area, m, k);
  }

  lemma DivisibleBy(a: int, q: int, n: int)
    requires n > 0 && a == n * q
    ensures a % n == 0
  {
    var d := a / n - q;
    assert n * d == n * (a / n) - n * q;
    assert d >= 1 ==> n * d >= n;
    assert d <= -1 ==> n * d <= -n;
  }

  lemma SquarestExact(area: nat)
    requires area >= 1
    ensures Squarest(area).0 * Squarest(area).1 == area
    ensures 1 <= Squarest(area).1 <= Squarest(area).0
  {
    SquarestIsSquarest(area);
  }

  lemma SquarestPositive(area: nat)
    requires area >= 1
    ensures Squarest(area).0 >= 1 && Squarest(area).1 >= 1
  {
    SquarestIsSquarest(area);
  }

  method SquarestRectangle(area: nat) returns (w: nat, h: nat)
    ensures area == 0 ==> w == 0 && h == 0
    ensures area >= 1 ==> (w, h) == Squarest(area)
  {
    if area == 0 {
      return 0, 0;
    }
    var s := FloorSqrt(area);
    h := s;
    while !Divides(h, area)
      invariant 1 <= h <= s
      invariant DivisorUpTo(area, h) == DivisorUpTo(area, s)
      decreases h
    {
      h := h - 1;
    }
    w := area / h;
  }

  // ----- rectangle_with_aspect_ratio

  /** The least h, from a given start, whose square is at least v: the square root rounded up. */
  function CeilSqrtFrom(v: real, h: nat): (r: nat)
    requires v > 0.0
    requires h > 0 ==> ((h - 1) * (h - 1)) as real < v
    ensures (r * r) as real >= v && (r > 0 ==> ((r - 1) * (r - 1)) as real < v)
    decreases v.Floor + 2 - h
  {
    if (h * h) as real >= v then h
    else
      SquareBelow(h, v);
      CeilSqrtFrom(v, h + 1)
  }

  lemma SquareBelow(h: nat, v: real)
    requires (h * h) as real < v
    ensures h <= v.Floor
  {
    if h >= 1 {
      MulMonotone(1, h, h);
    }
    assert h as real < v;
  }

  function CeilSqrt(v: real): (r: nat)
    requires v > 0.0
    ensures r >= 1 && (r * r) as real >= v && ((r - 1) * (r - 1)) as real < v
  {
    CeilSqrtFrom(v, 0)
  }

  /** A square or landscape size covering the area and taller than the ratio of its width less one. */
  predicate LandscapeCover(size: (nat, nat), area: nat, ratio: real) {
    && size.0 * size.1 >= area && size.0 >= size.1 >= 1
    && Proportionate(size.0, size.1, ratio)
  }

  predicate Proportionate(longer: nat, shorter: nat, ratio: real) {
    shorter as real > ratio * (longer - 1) as real
  }

  function WithRatio(area: nat, ratio: real): (nat, nat)
    requires 0.0 < ratio <= 1.0
  {
    if area == 0 then (0, 0)
    else
      var h := CeilSqrt(area as real * ratio);
      CeilDivWithin(area, h, area);
      var w := CeilDiv(area, h);
      (if w >= h then w else h, h)
  }

  /** The rectangle covers the area, is square or landscape, and is taller than the ratio of its width less one. */
  lemma WithRatioCovers(area: nat, ratio: real)
    requires area >= 1 && 0.0 < ratio <= 1.0
    ensures LandscapeCover(WithRatio(area, ratio), area, ratio)
  {
    var h := CeilSqrt(area as real * ratio);
    CeilDivBounds(area, h);
    RoundedShape(area, ratio, CeilDiv(area, h), h);
  }

  lemma RoundedShape(area: nat, ratio: real, q: int, h: nat)
    requires h >= 1 && 0.0 < ratio <= 1.0
    requires (h * h) as real >= area as real * ratio && (q - 1) * h < area <= q * h
    ensures q >= h ==> LandscapeCover((q, h), area, ratio)
    ensures q < h ==> LandscapeCover((h, h), area, ratio)
  {
    if q >= h {
      TallEnough(area, ratio, q - 1, h);
    } else {
      Squarish(area, ratio, q, h);
    }
  }

  lemma Squarish(area: nat, ratio: real, q: int, h: nat)
    requires area <= q * h && q < h && h >= 1 && 0.0 < ratio <= 1.0
    ensures area <= h * h && Proportionate(h, h, ratio)
  {
    MulMonotone(q, h, h);
    var v := (h - 1) as real;
    assert ratio * v <= 1.0 * v;
  }

  lemma TallEnough(area: nat, ratio: real, v: nat, h: nat)
    requires 0.0 < ratio && h >= 1
    requires v * h < area && (h * h) as real >= area as real * ratio
    ensures h as real > ratio * v as real
  {
    var k, n := h as real, v as real;
    assert k * k == (h * h) as real && n * k == (v * h) as real;
    TallEnoughReal(area as real, ratio, n, k);
  }

  lemma TallEnoughReal(a: real, ratio: real, v: real, h: real)
    requires a > 0.0 && 0.0 < ratio && v >= 0.0 && h > 0.0
    requires v * h < a && h * h >= a * ratio
    ensures h > ratio * v
  {
    var e := ratio * v;
    assert e * h == ratio * (v * h) by {
      assert e * h == (ratio * v) * h;
    }
    assert ratio * (v * h) < ratio * a;
    assert e * h < h * h;
    assert e >= h ==> e * h >= h * h;
  }

  // ----- area_to_rect

  datatype Sizing = Invalid | Impossible | Fits(width: nat, height: nat)

  function Landscape(ratio: real): (r: real)
    requires ratio >= 0.0
    ensures 0.0 <= r <= 1.0
  {
    if ratio > 1.0 then 1.0 / ratio else ratio
  }

  /** A ratio above one means its inverse. */
  lemma LandscapeExactly(ratio: real)
    requires ratio >= 0.0
    ensures ratio <= 1.0 ==> Landscape(ratio) == ratio
    ensures ratio > 1.0 ==> Landscape(ratio) * ratio == 1.0
  {
  }

  /** Whether h / w is below the ratio, w being positive. */
  predicate TooWide(w: nat, h: nat, ratio: real)
    requires w >= 1
  {
    h as real / w as real < ratio
  }

  /** The rectangle wanted if there were no bounds. */
  function Ideal(area: nat, ratio: real): (nat, nat)
    requires area >= 1 && 0.0 <= ratio <= 1.0
  {
    SquarestExact(area);
    var (w, h) := Squarest(area);
    if TooWide(w, h, ratio) then WithRatio(area, ratio) else (w, h)
  }

  function Turned(size: (nat, nat), boundWidth: int, boundHeight: int): (nat, nat) {
    if boundWidth > boundHeight && size.0 > size.1 then (size.1, size.0) else size
  }

  /** A rectangle of the area squeezed into the bounds it overflows. */
  function Squeezed(area: nat, w: nat, boundWidth: nat, boundHeight: nat): (r: (nat, nat))
    requires boundWidth >= 1 && boundHeight >= 1 && 1 <= area <= boundWidth * boundHeight
    ensures 1 <= r.0 <= boundWidth && 1 <= r.1 <= boundHeight && r.0 * r.1 >= area
  {
    if w > boundWidth then
      CeilDivWithin(area, boundWidth, boundHeight);
      CeilDivBounds(area, boundWidth);
      (boundWidth, CeilDiv(area, boundWidth))
    else
      CeilDivWithin(area, boundHeight, boundWidth);
      CeilDivBounds(area, boundHeight);
      (CeilDiv(area, boundHeight), boundHeight)
  }

  /** What area_to_rect answers: an error for meaningless arguments, a rectangle, or nothing. */
  function RectFor(area: int, boundWidth: int, boundHeight: int, minRatio: real): Sizing {
    if area <= 0 || boundWidth <= 0 || boundHeight <= 0 || minRatio < 0.0 then Invalid
    else if area > boundWidth * boundHeight then Impossible
    else
      var ratio := Landscape(minRatio);
      var (w, h) := Turned(Ideal(area, ratio), boundWidth, boundHeight);
      if w <= boundWidth && h <= boundHeight then Fits(w, h)
      else
        var (w', h') := Squeezed(area, w, boundWidth, boundHeight);
        if TooWide(Longer(w', h'), Shorter(w', h'), ratio) then Impossible else Fits(w', h')
  }

  lemma IdealCovers(area: nat, ratio: real)
    requires area >= 1 && 0.0 <= ratio <= 1.0
    ensures LandscapeCover(Ideal(area, ratio), area, ratio)
  {
    SquarestExact(area);
    var (w, h) := Squarest(area);
    if TooWide(w, h, ratio) {
      PositiveQuotient(h, w);
      WithRatioCovers(area, ratio);
    } else {
      NotTooWide(w, h, ratio);
    }
  }

  lemma IdealPositive(area: nat, ratio: real)
    requires area >= 1 && 0.0 <= ratio <= 1.0
    ensures Ideal(area, ratio).0 >= 1 && Ideal(area, ratio).1 >= 1
  {
    IdealCovers(area, ratio);
  }

  lemma PositiveQuotient(a: nat, b: nat)
    requires a >= 1 && b >= 1
    ensures !TooWide(b, a, 0.0)
    ensures forall ratio: real :: TooWide(b, a, ratio) ==> ratio > 0.0
  {
    assert a as real / b as real > 0.0;
  }

  lemma NotTooWide(w: nat, h: nat, ratio: real)
    requires w >= 1 && h >= 1 && 0.0 <= ratio && !TooWide(w, h, ratio)
    ensures Proportionate(w, h, ratio)
  {
    var wr, hr := w as real, h as real;
    assert (hr / wr) * wr == hr;
    assert ratio * wr <= (hr / wr) * wr;
    assert (w - 1) as real == wr - 1.0;
    assert ratio * (wr - 1.0) == ratio * wr - ratio;
  }

  function Longer(w: nat, h: nat): (r: nat)
    ensures r >= w && r >= h && (r == w || r == h)
  {
    if w > h then w else h
  }

  function Shorter(w: nat, h: nat): (r: nat)
    ensures r <= w && r <= h && (r == w || r == h)
  {
    if w < h then w else h
  }

  lemma TurnedShape(size: (nat, nat), boundWidth: int, boundHeight: int)
    requires size.0 >= size.1
    ensures var t := Turned(size, boundWidth, boundHeight);
            Longer(t.0, t.1) == size.0 && Shorter(t.0, t.1) == size.1 && t.0 * t.1 == size.0 * size.1
  {
  }

  /** Every rectangle found fits the bounds and covers the area. */
  lemma RectForFits(area: int, boundWidth: int, boundHeight: int, minRatio: real)
    requires RectFor(area, boundWidth, boundHeight, minRatio).Fits?
    ensures var r := RectFor(area, boundWidth, boundHeight, minRatio);
            && 1 <= r.width <= boundWidth && 1 <= r.height <= boundHeight
            && r.width * r.height >= area
  {
    var ratio := Landscape(minRatio);
    IdealCovers(area, ratio);
    TurnedShape(Ideal(area, ratio), boundWidth, boundHeight);
  }

  /** Every rectangle found misses the required ratio by less than one unit of its longer side. */
  lemma RectForRatio(area: int, boundWidth: int, boundHeight: int, minRatio: real)
    requires RectFor(area, boundWidth, boundHeight, minRatio).Fits?
    ensures var r := RectFor(area, boundWidth, boundHeight, minRatio);
            Proportionate(Longer(r.width, r.height), Shorter(r.width, r.height), Landscape(minRatio))
  {
    var ratio := Landscape(minRatio);
    IdealCovers(area, ratio);
    TurnedShape(Ideal(area, ratio), boundWidth, boundHeight);
    var (w, h) := Turned(Ideal(area, ratio), boundWidth, boundHeight);
    if !(w <= boundWidth && h <= boundHeight) {
      var (w', h') := Squeezed(area, w, boundWidth, boundHeight);
      NotTooWide(Longer(w', h'), Shorter(w', h'), ratio);
    }
  }

  /** Neither side of the rectangle could be one shorter, for the area to be covered. */
  predicate Minimal(w: int, h: int, area: int) {
    (w - 1) * h < area && w * (h - 1) < area
  }

  /** The least square that covers the area. */
  predicate LeastSquare(w: int, h: int, area: int) {
    w == h && (w - 1) * (h - 1) < area
  }

  /** A square or landscape rectangle no larger than need be, or the least square. */
  predicate Snug(w: int, h: int, area: int) {
    1 <= h <= w <= area && (Minimal(w, h, area) || LeastSquare(w, h, area))
  }

  /** With the least width for its height, a landscape rectangle has the least height for its width. */
  lemma LandscapeMinimal(w: nat, h: nat, area: nat)
    requires 1 <= h <= w && (w - 1) * h < area
    ensures Minimal(w, h, area)
  {
    assert (w - 1) * h == w * h - h && w * (h - 1) == w * h - w;
  }

  lemma RoundedSnug(q: nat, h: nat, area: nat)
    requires h >= 1 && 1 <= q <= area && (q - 1) * h < area && (h - 1) * (h - 1) < area && h <= area
    ensures Snug(if q >= h then q else h, h, area)
  {
    if q >= h {
      LandscapeMinimal(q, h, area);
    }
  }

  /** A root rounded up of at most the area is the side of the least square, and at most the area. */
  lemma SquareWithin(h: nat, area: nat, v: real)
    requires h >= 1 && area >= 1 && v <= area as real && ((h - 1) * (h - 1)) as real < v
    ensures (h - 1) * (h - 1) < area && h <= area
  {
    if h >= 2 {
      MulMonotone(1, h - 1, h - 1);
    }
  }

  lemma RatioOfArea(area: nat, ratio: real)
    requires area >= 1 && 0.0 < ratio <= 1.0
    ensures 0.0 < area as real * ratio <= area as real
  {
  }

  /** The least quotient that covers the area. */
  lemma CeilLeast(area: nat, b: nat)
    requires area >= 1 && b >= 1
    ensures var q := CeilDiv(area, b); 1 <= q <= area && (q - 1) * b < area && b * (q - 1) < area
  {
    CeilDivBounds(area, b);
    MulMonotone(1, b, area);
    CeilDivWithin(area, b, area);
  }

  lemma RootWithin(area: nat, ratio: real)
    requires area >= 1 && 0.0 < ratio <= 1.0
    ensures 0.0 < area as real * ratio
    ensures var h := CeilSqrt(area as real * ratio); 1 <= h <= area && (h - 1) * (h - 1) < area
  {
    var v := area as real * ratio;
    RatioOfArea(area, ratio);
    assert 0.0 < v <= area as real;
    RootOf(area, v);
  }

  lemma RootOf(area: nat, v: real)
    requires area >= 1 && 0.0 < v <= area as real
    ensures 1 <= CeilSqrt(v) <= area && (CeilSqrt(v) - 1) * (CeilSqrt(v) - 1) < area
  {
    SquareWithin(CeilSqrt(v), area, v);
  }

  lemma WithRatioSnug(area: nat, ratio: real)
    requires area >= 1 && 0.0 < ratio <= 1.0
    ensures Snug(WithRatio(area, ratio).0, WithRatio(area, ratio).1, area)
  {
    RootWithin(area, ratio);
    var h := CeilSqrt(area as real * ratio);
    CeilLeast(area, h);
    RoundedSnug(CeilDiv(area, h), h, area);
  }

  lemma ExactSnug(w: nat, h: nat, area: nat)
    requires 1 <= h <= w && w * h == area
    ensures Snug(w, h, area)
  {
    MulMonotone(1, h, w);
    assert (w - 1) * h == w * h - h;
    LandscapeMinimal(w, h, area);
  }

  lemma IdealSnug(area: nat, ratio: real)
    requires area >= 1 && 0.0 <= ratio <= 1.0
    ensures Snug(Ideal(area, ratio).0, Ideal(area, ratio).1, area)
  {
    SquarestExact(area);
    ExactSnug(Squarest(area).0, Squarest(area).1, area);
    if Ideal(area, ratio) != Squarest(area) {
      PositiveQuotient(Squarest(area).1, Squarest(area).0);
      WithRatioSnug(area, ratio);
    }
  }

  lemma MinimalTurned(w: int, h: int, area: int)
    ensures Minimal(w, h, area) <==> Minimal(h, w, area)
  {
  }

  /** A rectangle no larger than need be, lying across the bounds. */
  predicate SnugAcross(w: int, h: int, area: int, boundWidth: int, boundHeight: int) {
    && (Minimal(w, h, area) || LeastSquare(w, h, area))
    && if boundWidth > boundHeight then w <= h else w >= h
  }

  lemma TurnedSnug(size: (nat, nat), area: nat, boundWidth: int, boundHeight: int)
    requires Snug(size.0, size.1, area)
    ensures var t := Turned(size, boundWidth, boundHeight);
            t.0 <= area && t.1 <= area && SnugAcross(t.0, t.1, area, boundWidth, boundHeight)
  {
    MinimalTurned(size.0, size.1, area);
  }

  /** As wide, or as high, as the bounds, and no higher, or wider, than need be. */
  predicate Squished(w: int, h: int, area: int, boundWidth: int, boundHeight: int) {
    (w == boundWidth && w * (h - 1) < area) || (h == boundHeight && (w - 1) * h < area)
  }

  /**
   * No rectangle is larger than need be: it is snug and lies across the bounds, or it has been squeezed into the bounds
   * and its other side could not be one shorter.
   */
  lemma RectForSnug(area: int, boundWidth: int, boundHeight: int, minRatio: real)
    requires RectFor(area, boundWidth, boundHeight, minRatio).Fits?
    ensures var r := RectFor(area, boundWidth, boundHeight, minRatio);
            && r.width <= area && r.height <= area
            && (|| SnugAcross(r.width, r.height, area, boundWidth, boundHeight)
                || Squished(r.width, r.height, area, boundWidth, boundHeight))
  {
    var ideal := Ideal(area, Landscape(minRatio));
    IdealSnug(area, Landscape(minRatio));
    TurnedSnug(ideal, area, boundWidth, boundHeight);
    var t := Turned(ideal, boundWidth, boundHeight);
    if !(t.0 <= boundWidth && t.1 <= boundHeight) {
      SqueezedSnug(area, t.0, t.1, boundWidth, boundHeight);
    }
  }

  /** Some side could not be one shorter, or the rectangle is the least square; and no side exceeds the area. */
  predicate NoLarger(w: int, h: int, area: int) {
    && w <= area && h <= area
    && ((w - 1) * h < area || w * (h - 1) < area || LeastSquare(w, h, area))
  }

  lemma RectForNoLarger(area: int, boundWidth: int, boundHeight: int, minRatio: real)
    requires RectFor(area, boundWidth, boundHeight, minRatio).Fits?
    ensures var r := RectFor(area, boundWidth, boundHeight, minRatio); NoLarger(r.width, r.height, area)
  {
    RectForSnug(area, boundWidth, boundHeight, minRatio);
  }

  lemma SqueezedSnug(area: nat, w: nat, h: nat, boundWidth: nat, boundHeight: nat)
    requires boundWidth >= 1 && boundHeight >= 1 && 1 <= area <= boundWidth * boundHeight
    requires w <= area && h <= area && (w > boundWidth || h > boundHeight)
    ensures var r := Squeezed(area, w, boundWidth, boundHeight);
            r.0 <= area && r.1 <= area && Squished(r.0, r.1, area, boundWidth, boundHeight)
  {
    if w > boundWidth {
      CeilLeast(area, boundWidth);
    } else {
      CeilLeast(area, boundHeight);
    }
  }

  /** An error means that an argument is meaningless; too large an area is not an error, but cannot be met. */
  lemma RectForErrors(area: int, boundWidth: int, boundHeight: int, minRatio: real)
    ensures RectFor(area, boundWidth, boundHeight, minRatio).Invalid? <==>
              area <= 0 || boundWidth <= 0 || boundHeight <= 0 || minRatio < 0.0
    ensures area >= 1 && boundWidth >= 1 && boundHeight >= 1 && minRatio >= 0.0 && area > boundWidth * boundHeight ==>
              RectFor(area, boundWidth, boundHeight, minRatio).Impossible?
  {
  }

  /**
   * With meaningful arguments nothing is found if and only if the area exceeds the bounds, or the ideal rectangle does not
   * fit across them and, as wide or as high as the bounds and covering the area, it misses the ratio.
   */
  lemma RectForImpossible(area: int, boundWidth: int, boundHeight: int, minRatio: real)
    requires area >= 1 && boundWidth >= 1 && boundHeight >= 1 && minRatio >= 0.0
    ensures var t := Turned(Ideal(area, Landscape(minRatio)), boundWidth, boundHeight);
            var (w, h) := if t.0 > boundWidth then (boundWidth, CeilDiv(area, boundWidth)) else (CeilDiv(area, boundHeight), boundHeight);
            RectFor(area, boundWidth, boundHeight, minRatio).Impossible? <==>
              || area > boundWidth * boundHeight
              || (&& (t.0 > boundWidth || t.1 > boundHeight) && w >= 1 && h >= 1
                  && TooWide(Longer(w, h), Shorter(w, h), Landscape(minRatio)))
  {
    CeilLeast(area, boundWidth);
    CeilLeast(area, boundHeight);
  }

  /** If the area has an exact rectangle of the ratio, and the squarest one fits across the bounds, that is what is found. */
  lemma RectForExact(area: int, boundWidth: int, boundHeight: int, minRatio: real)
    requires area >= 1 && boundWidth >= 1 && boundHeight >= 1 && minRatio >= 0.0 && area <= boundWidth * boundHeight
    requires FactorsAtRatio(area, Landscape(minRatio))
    requires var (w, h) := Squarest(area);
             if boundWidth > boundHeight then h <= boundWidth && w <= boundHeight else w <= boundWidth && h <= boundHeight
    ensures var r := RectFor(area, boundWidth, boundHeight, minRatio);
            r.Fits? && r.width * r.height == area && IsSquarest(area, Longer(r.width, r.height), Shorter(r.width, r.height))
  {
    SquarestDecides(area, Landscape(minRatio));
    SquarestIsSquarest(area);
    TurnedShape(Squarest(area), boundWidth, boundHeight);
  }

  /** With no ratio to respect, valid arguments fail exactly when the area exceeds the bounds. */
  lemma RectForAnyShape(area: int, boundWidth: int, boundHeight: int)
    requires area >= 1 && boundWidth >= 1 && boundHeight >= 1
    ensures RectFor(area, boundWidth, boundHeight, 0.0).Fits? <==> area <= boundWidth * boundHeight
  {
    if area <= boundWidth * boundHeight {
      IdealCovers(area, 0.0);
      var (w, h) := Turned(Ideal(area, 0.0), boundWidth, boundHeight);
      if !(w <= boundWidth && h <= boundHeight) {
        var (w', h') := Squeezed(area, w, boundWidth, boundHeight);
        PositiveQuotient(Shorter(w', h'), Longer(w', h'));
      }
    }
  }

  /** A landscape rectangle of exactly this area whose height is at least the ratio of its width. */
  predicate ExactRectangle(w: nat, h: nat, area: nat, ratio: real) {
    w * h == area && 1 <= h <= w && !Slender(w, h, ratio)
  }

  ghost predicate FactorsAtRatio(area: nat, ratio: real) {
    exists w: nat, h: nat :: ExactRectangle(w, h, area, ratio)
  }

  lemma TooWideMeans(w: nat, h: nat, ratio: real)
    requires w >= 1
    ensures TooWide(w, h, ratio) <==> Slender(w, h, ratio)
  {
    var q := h as real / w as real;
    assert q * w as real == h as real;
    assert q < ratio ==> q * w as real < ratio * w as real;
    assert q >= ratio ==> q * w as real >= ratio * w as real;
  }

  /** A narrower rectangle of the same area is taller. */
  lemma Narrower(w: nat, h: nat, m: nat, k: nat)
    requires w * h == m * k && 1 <= k <= h && 1 <= m
    ensures w <= m
  {
    assert w >= m + 1 ==> w * h >= (m + 1) * h;
    assert (m + 1) * h == m * h + h;
    MulMonotone(k, h, m);
  }

  /** A rectangle no wider and no lower than one of the ratio has the ratio too. */
  lemma KeepsRatio(w: nat, h: nat, m: nat, k: nat, area: nat, ratio: real)
    requires ExactRectangle(m, k, area, ratio) && 1 <= w <= m && k <= h && ratio >= 0.0
    ensures !TooWide(w, h, ratio)
  {
    ScaledDown(w as real, m as real, ratio);
    TooWideMeans(w, h, ratio);
  }

  /** If an area has an exact rectangle of the ratio, its squarest one is not too wide. */
  lemma SquarestServes(area: nat, m: nat, k: nat, ratio: real)
    requires area >= 1 && ratio >= 0.0 && ExactRectangle(m, k, area, ratio)
    ensures Squarest(area).0 >= 1 && !TooWide(Squarest(area).0, Squarest(area).1, ratio)
  {
    SquarestExact(area);
    SquarestAtLeast(area, m, k);
    var (w, h) := Squarest(area);
    Narrower(w, h, m, k);
    KeepsRatio(w, h, m, k, area, ratio);
  }

  lemma SquarestAtLeast(area: nat, m: nat, k: nat)
    requires area >= 1 && 1 <= k <= m && m * k == area
    ensures k <= Squarest(area).1
  {
    SquarestIsSquarest(area);
  }

  /** An area has an exact rectangle of the ratio if and only if its squarest one is not too wide. */
  lemma SquarestDecides(area: nat, ratio: real)
    requires area >= 1 && ratio >= 0.0
    ensures Squarest(area).0 >= 1
    ensures FactorsAtRatio(area, ratio) <==> !TooWide(Squarest(area).0, Squarest(area).1, ratio)
  {
    SquarestExact(area);
    var (w, h) := Squarest(area);
    if m: nat, k: nat :| ExactRectangle(m, k, area, ratio) {
      SquarestServes(area, m, k, ratio);
    } else {
      TooWideMeans(w, h, ratio);
      assert !ExactRectangle(w, h, area, ratio);
    }
  }

  lemma ScaledDown(a: real, b: real, ratio: real)
    requires a <= b && ratio >= 0.0
    ensures ratio * a <= ratio * b
  {
  }

  /**
   * When the ratio must be missed: no rectangle of exactly this area has it, the rectangle with the least height
   * whose square covers the area at that ratio fits the bounds once turned, and rounding its width up costs the ratio.
   */
  ghost predicate RoundingMisses(area: nat, boundWidth: int, boundHeight: int, ratio: real) {
    && area >= 1 && ratio > 0.0 && !FactorsAtRatio(area, ratio)
    && var h := CeilSqrt(area as real * ratio);
       var w := RoundedWidth(area, ratio);
       && (if boundWidth > boundHeight then h <= boundWidth && w <= boundHeight else w <= boundWidth && h <= boundHeight)
       && Slender(w, h, ratio)
  }

  /** The height is below the ratio of the width. */
  predicate Slender(w: int, h: int, ratio: real) {
    h as real < ratio * w as real
  }

  /** A rectangle that is found misses the required ratio in that case, and in no other. */
  lemma RatioMissedExactly(area: int, boundWidth: int, boundHeight: int, minRatio: real)
    requires RectFor(area, boundWidth, boundHeight, minRatio).Fits?
    ensures var r := RectFor(area, boundWidth, boundHeight, minRatio);
            && Longer(r.width, r.height) >= 1
            && (TooWide(Longer(r.width, r.height), Shorter(r.width, r.height), Landscape(minRatio))
                <==> RoundingMisses(area, boundWidth, boundHeight, Landscape(minRatio)))
  {
    RatioReadBack(area, boundWidth, boundHeight, minRatio);
    MissesWhenIdealDoes(area, boundWidth, boundHeight, Landscape(minRatio));
  }

  /** The rectangle wanted if there were no bounds fits them, and is too wide. */
  predicate IdealFitsTooWide(area: nat, boundWidth: int, boundHeight: int, ratio: real)
    requires area >= 1 && 0.0 <= ratio <= 1.0
  {
    var (w, h) := Turned(Ideal(area, ratio), boundWidth, boundHeight);
    w <= boundWidth && h <= boundHeight && Ideal(area, ratio).0 >= 1 && TooWide(Ideal(area, ratio).0, Ideal(area, ratio).1, ratio)
  }

  lemma MissesWhenIdealDoes(area: nat, boundWidth: int, boundHeight: int, ratio: real)
    requires area >= 1 && 0.0 <= ratio <= 1.0
    ensures IdealFitsTooWide(area, boundWidth, boundHeight, ratio) <==> RoundingMisses(area, boundWidth, boundHeight, ratio)
  {
    IdealTooWide(area, ratio);
  }

  /** Squeezing never costs the ratio: only an ideal rectangle that fits can be too wide. */
  lemma RatioReadBack(area: int, boundWidth: int, boundHeight: int, minRatio: real)
    requires RectFor(area, boundWidth, boundHeight, minRatio).Fits?
    ensures var r := RectFor(area, boundWidth, boundHeight, minRatio);
            var ratio := Landscape(minRatio);
            && Longer(r.width, r.height) >= 1
            && (TooWide(Longer(r.width, r.height), Shorter(r.width, r.height), ratio)
                <==> IdealFitsTooWide(area, boundWidth, boundHeight, ratio))
  {
    var ratio := Landscape(minRatio);
    IdealCovers(area, ratio);
    TurnedShape(Ideal(area, ratio), boundWidth, boundHeight);
    RectForFits(area, boundWidth, boundHeight, minRatio);
  }

  /** When the ideal rectangle is too wide, and what it then is. */
  lemma IdealTooWide(area: nat, ratio: real)
    requires area >= 1 && 0.0 <= ratio <= 1.0
    ensures Ideal(area, ratio).0 >= 1
    ensures TooWide(Ideal(area, ratio).0, Ideal(area, ratio).1, ratio)
       <==> (ratio > 0.0 && !FactorsAtRatio(area, ratio) && Slender(RoundedWidth(area, ratio), CeilSqrt(area as real * ratio), ratio))
    ensures ratio > 0.0 && TooWide(Ideal(area, ratio).0, Ideal(area, ratio).1, ratio) ==>
              && Ideal(area, ratio) == (RoundedWidth(area, ratio), CeilSqrt(area as real * ratio))
              && RoundedWidth(area, ratio) > CeilSqrt(area as real * ratio)
  {
    SquarestDecides(area, ratio);
    IdealPositive(area, ratio);
    PositiveQuotient(Squarest(area).1, Squarest(area).0);
    if !FactorsAtRatio(area, ratio) {
      RoundedUp(area, ratio);
    }
  }

  /** The least width that covers the area with the least height whose square covers the area at the ratio. */
  function RoundedWidth(area: nat, ratio: real): int
    requires area >= 1 && ratio > 0.0
  {
    CeilDiv(area, CeilSqrt(area as real * ratio))
  }

  /** The rectangle for a ratio is too wide if and only if rounding its width up made it so. */
  lemma RoundedUp(area: nat, ratio: real)
    requires area >= 1 && 0.0 < ratio <= 1.0
    ensures var h := CeilSqrt(area as real * ratio);
            var w := RoundedWidth(area, ratio);
            && WithRatio(area, ratio).0 >= 1
            && (Slender(w, h, ratio) <==> TooWide(WithRatio(area, ratio).0, WithRatio(area, ratio).1, ratio))
            && (Slender(w, h, ratio) ==> WithRatio(area, ratio) == (w, h) && w > h)
  {
    var h := CeilSqrt(area as real * ratio);
    CeilDivWithin(area, h, area);
    var w := CeilDiv(area, h);
    NotSlender(w, h, ratio);
    TooWideMeans(if w >= h then w else h, h, ratio);
  }

  lemma NotSlender(w: int, h: nat, ratio: real)
    requires 0.0 < ratio <= 1.0
    ensures w <= h ==> !Slender(w, h, ratio)
    ensures !Slender(h, h, ratio)
  {
    if w <= h {
      ScaledDown(w as real, h as real, ratio);
    }
    assert ratio * h as real <= h as real;
  }

  /**
   * The ratio itself is not always met: five triads in a 3 by 3 machine at ratio 0.75 give
   * a 3 by 2 rectangle, whose ratio is two thirds.
   */
  lemma RatioCanBeMissed()
    ensures RectFor(5, 3, 3, 0.75) == Fits(3, 2) && TooWide(3, 2, 0.75)
  {
    assert FloorSqrt(1) == 1 && FloorSqrt(2) == 1;
    assert FloorSqrt(3) == 1 && FloorSqrt(4) == 2 && FloorSqrt(5) == 2;
    assert Squarest(5) == (5, 1);
    assert TooWide(5, 1, 0.75);
    var v := 5 as real * 0.75;
    assert v == 3.75;
    assert CeilSqrtFrom(v, 2) == 2;
    assert CeilSqrtFrom(v, 1) == 2;
    assert CeilSqrt(v) == 2;
    assert WithRatio(5, 0.75) == (3, 2);
  }

  method RectangleWithAspectRatio(area: nat, ratio: real) returns (w: nat, h: nat)
    requires 0.0 < ratio <= 1.0
    ensures (w, h) == WithRatio(area, ratio)
  {
    if area == 0 {
      return 0, 0;
    }
    h := CeilSqrt(area as real * ratio);
    CeilDivWithin(area, h, area);
    w := CeilDiv(area, h);
    w := if w >= h then w else h;
  }

  method AreaToRect(area: int, boundWidth: int, boundHeight: int, minRatio: real) returns (r: Sizing)
    ensures r == RectFor(area, boundWidth, boundHeight, minRatio)
  {
    if area <= 0 || boundWidth <= 0 || boundHeight <= 0 {
      return Invalid;
    }
    if minRatio < 0.0 {
      return Invalid;
    }
    if area > boundWidth * boundHeight {
      return Impossible;
    }
    var ratio := minRatio;
    if ratio > 1.0 {
      ratio := 1.0 / ratio;
    }
    var w, h := SquarestRectangle(area);
    SquarestPositive(area);
    if TooWide(w, h, ratio) {
      PositiveQuotient(h, w);
      w, h := RectangleWithAspectRatio(area, ratio);
    }
    IdealPositive(area, ratio);
    if boundWidth > boundHeight && w > h {
      w, h := h, w;
    }
    if w <= boundWidth && h <= boundHeight {
      return Fits(w, h);
    }
    if w > boundWidth {
      CeilDivWithin(area, boundWidth, boundHeight);
      w := boundWidth;
      h := CeilDiv(area, w);
    } else {
      CeilDivWithin(area, boundHeight, boundWidth);
      h := boundHeight;
      w := CeilDiv(area, h);
    }
    if !TooWide(Longer(w, h), Shorter(w, h), ratio) {
      return Fits(w, h);
    }
    return Impossible;
  }
}

/** The coordinate mapper: from a timestamp to a horizontal pixel over the
    padded time window (`Timeline.__init__` and the inline
    `int(percent_width * self.width + 0.5)` formula). */
module Coordinates {

  lemma MulMonotone(a: int, b: int, c: int)
    requires a <= b && c >= 0
    ensures a * c <= b * c
  {
    assert b * c - a * c == (b - a) * c;
  }

  /** A multiple of a positive `d` that is below `d` has a factor of at most 0. */
  lemma FactorAtMostZero(k: int, d: int)
    requires d > 0 && k * d < d
    ensures k <= 0
  {
    if k >= 1 {
      MulMonotone(1, k, d);
    }
  }

  /** How many times `d` fits into `n`, by repeated subtraction. */
  function Quotient(n: nat, d: int): nat
    requires d > 0
    decreases n
  {
    if n < d then 0 else 1 + Quotient(n - d, d)
  }

  /** The quotient's multiple lies within `d` below `n`. */
  lemma {:induction false} QuotientBounds(n: nat, d: int)
    requires d > 0
    ensures 0 <= Quotient(n, d) * d <= n < Quotient(n, d) * d + d
    decreases n
  {
    if n >= d {
      var q := Quotient(n - d, d);
      QuotientBounds(n - d, d);
      assert (1 + q) * d == q * d + d;
    }
  }

  /** Python's `int(n / d)`: division that truncates toward zero. */
  function TruncDiv(n: int, d: int): int
    requires d > 0
  {
    if n >= 0 then Quotient(n, d) else -(Quotient(-n, d) as int)
  }

  /** The truncated quotient's multiple lies within `d` of `n`, on the
      side of zero. */
  lemma TruncDivBounds(n: int, d: int)
    requires d > 0
    ensures var q := TruncDiv(n, d);
      (n >= 0 ==> 0 <= q * d <= n < q * d + d) && (n < 0 ==> q * d - d < n <= q * d <= 0)
  {
    if n >= 0 {
      QuotientBounds(n, d);
    } else {
      var p := Quotient(-n, d);
      QuotientBounds(-n, d);
      assert (-p) * d == -(p * d);
    }
  }

  /** The visible window: `date0`, `date1` and `total_seconds`. */
  datatype Window = Window(date0: int, date1: int, totalSeconds: int)

  /** `0.1 * (end - start)`, as whole seconds toward zero. */
  function Padding(span: int): (pad: int)
    ensures span >= 0 ==> 0 <= 10 * pad <= span < 10 * pad + 10
    ensures span < 0 ==> 10 * pad - 10 < span <= 10 * pad <= 0
  {
    TruncDivBounds(span, 10);
    TruncDiv(span, 10)
  }

  /** The window padded by 10% of the span on each side. */
  function MakeWindow(start: int, end: int): (w: Window)
    ensures w.date0 == start - Padding(end - start) && w.date1 == end + Padding(end - start)
    ensures w.totalSeconds == w.date1 - w.date0
    ensures end >= start ==> w.date0 <= start && end <= w.date1
    ensures end <= start ==> w.date0 >= start && end >= w.date1
    ensures (w.totalSeconds > 0 <==> end > start) && (w.totalSeconds < 0 <==> end < start)
  {
    var pad := Padding(end - start);
    Window(start - pad, end + pad, (end + pad) - (start - pad))
  }

  /** Numerator of the fraction `(dt - date0) / total_seconds`, its sign
      moved so that the denominator `Den` is positive. */
  function Num(w: Window, dt: int): int {
    if w.totalSeconds >= 0 then dt - w.date0 else w.date0 - dt
  }

  function Den(w: Window): int {
    if w.totalSeconds >= 0 then w.totalSeconds else -w.totalSeconds
  }

  /** The fraction lies in [0, 1]: the source skips a timestamp when
      `percent_width < 0 or percent_width > 1`. */
  predicate InWindow(w: Window, dt: int)
    requires w.totalSeconds != 0
  {
    0 <= Num(w, dt) <= Den(w)
  }

  /** `int(percent_width * width + 0.5)`, with percent_width = Num / Den,
      computed exactly: (2 * Num * width + Den) / (2 * Den) truncated. */
  function PixelX(w: Window, width: int, dt: int): int
    requires w.totalSeconds != 0
  {
    TruncDiv(2 * Num(w, dt) * width + Den(w), 2 * Den(w))
  }

  /** The quotient is pinned down by the interval its multiple falls in. */
  lemma QuotientUnique(n: nat, d: int, q: int)
    requires d > 0 && q * d <= n < q * d + d
    ensures Quotient(n, d) == q
  {
    var r := Quotient(n, d);
    QuotientBounds(n, d);
    assert (r - q) * d == r * d - q * d;
    assert (q - r) * d == q * d - r * d;
    FactorAtMostZero(r - q, d);
    FactorAtMostZero(q - r, d);
  }

  /** Subtracting `d` from the larger number at least as often. */
  lemma {:induction false} QuotientMonotone(a: nat, b: nat, d: int)
    requires d > 0 && a <= b
    ensures Quotient(a, d) <= Quotient(b, d)
    decreases a
  {
    if a >= d {
      QuotientMonotone(a - d, b - d, d);
    }
  }

  lemma TruncDivMonotone(a: int, b: int, d: int)
    requires d > 0 && a <= b
    ensures TruncDiv(a, d) <= TruncDiv(b, d)
  {
    if a >= 0 {
      QuotientMonotone(a, b, d);
    } else if b < 0 {
      QuotientMonotone(-b, -a, d);
    }
  }

  /** For an in-window timestamp and a non-negative width, the pixel is the
      fraction of the width rounded half up: x - 1/2 <= Num * width / Den < x + 1/2. */
  lemma PixelXRoundsHalfUp(w: Window, width: int, dt: int)
    requires w.totalSeconds != 0 && InWindow(w, dt) && width >= 0
    ensures var x := PixelX(w, width, dt);
      2 * Den(w) * x <= 2 * Num(w, dt) * width + Den(w) < 2 * Den(w) * (x + 1)
  {
    var n, d, x := Num(w, dt), Den(w), PixelX(w, width, dt);
    MulMonotone(0, 2 * n, width);
    TruncDivBounds(2 * n * width + d, 2 * d);
    assert x * (2 * d) == 2 * d * x;
    assert 2 * d * (x + 1) == 2 * d * x + 2 * d;
  }

  /** The first instant of the window is pixel 0. */
  lemma PixelXAtWindowStart(w: Window, width: int)
    requires w.totalSeconds != 0
    ensures PixelX(w, width, w.date0) == 0
  {
    assert Num(w, w.date0) == 0;
    QuotientUnique(Den(w), 2 * Den(w), 0);
  }

  /** The last instant of the window is pixel `width`. */
  lemma PixelXAtWindowEnd(w: Window, width: int)
    requires w.totalSeconds != 0 && w.totalSeconds == w.date1 - w.date0 && width >= 0
    ensures PixelX(w, width, w.date1) == width
  {
    var d := Den(w);
    assert Num(w, w.date1) == d;
    assert 2 * d * width + d == width * (2 * d) + d;
    MulMonotone(0, 2 * d, width);
    QuotientUnique(2 * d * width + d, 2 * d, width);
  }

  /** Later timestamps never map to smaller pixels when the window runs
      forward (and never to larger ones when a negative span mirrors it). */
  lemma PixelXMonotone(w: Window, width: int, t1: int, t2: int)
    requires w.totalSeconds != 0 && width >= 0 && t1 <= t2
    ensures w.totalSeconds > 0 ==> PixelX(w, width, t1) <= PixelX(w, width, t2)
    ensures w.totalSeconds < 0 ==> PixelX(w, width, t1) >= PixelX(w, width, t2)
  {
    var n1, n2 := Num(w, t1), Num(w, t2);
    if w.totalSeconds > 0 {
      MulMonotone(2 * n1, 2 * n2, width);
      TruncDivMonotone(2 * n1 * width + Den(w), 2 * n2 * width + Den(w), 2 * Den(w));
    } else {
      MulMonotone(2 * n2, 2 * n1, width);
      TruncDivMonotone(2 * n2 * width + Den(w), 2 * n1 * width + Den(w), 2 * Den(w));
    }
  }

  /** An in-window timestamp lands on the canvas: 0 <= x <= width. */
  lemma PixelXOnCanvas(w: Window, width: int, dt: int)
    requires w.totalSeconds != 0 && w.totalSeconds == w.date1 - w.date0 && width >= 0
    requires InWindow(w, dt)
    ensures 0 <= PixelX(w, width, dt) <= width
  {
    var n, d := Num(w, dt), Den(w);
    MulMonotone(0, n, width);
    MulMonotone(n, d, width);
    PixelXAtWindowEnd(w, width);
    assert Num(w, w.date1) == d;
    TruncDivMonotone(2 * n * width + d, 2 * d * width + d, 2 * d);
  }

  /** For a forward window, being in the window means lying between its ends. */
  lemma InWindowIffBetween(w: Window, dt: int)
    requires w.totalSeconds > 0 && w.totalSeconds == w.date1 - w.date0
    ensures InWindow(w, dt) <==> w.date0 <= dt <= w.date1
  {
  }
}

/**
 Mouse paths over exact reals: where the samples lie, when they happen and where they end,
 for every pair of points, configuration, random stream and easing power.
 */
module MousePath {
  import opened Randomness

  datatype Config = Config(
    minMs: nat,
    maxMs: nat,
    variance: real,
    samples: nat,
    acceleration: real,
    overshoot: real,
    jitter: real,
    noise: real)

  datatype Point = Point(x: real, y: real, at: nat)

  function Min(a: real, b: real): real {
    if a <= b then a else b
  }

  function Max(a: real, b: real): real {
    if a <= b then b else a
  }

  function Clamp(v: real, lo: real, hi: real): real {
    if v < lo then lo else if v > hi then hi else v
  }

  function ClampNat(v: nat, lo: nat, hi: nat): nat {
    if v < lo then lo else if v > hi then hi else v
  }

  /** `MouseConfig::sanitize`, for finite values. */
  function Sanitize(c: Config): Config {
    var lo := if c.minMs <= c.maxMs then c.minMs else c.maxMs;
    var hi := if c.minMs <= c.maxMs then c.maxMs else c.minMs;
    Config(lo, if hi <= lo then lo + 1 else hi, Clamp(c.variance, 0.0, 2.0), ClampNat(c.samples, 3, 64),
           if c.acceleration <= 0.0 then 1.2 else c.acceleration, Clamp(c.overshoot, 0.0, 1.0),
           Min(Max(c.jitter, 0.0), 24.0), Min(Max(c.noise, 0.0), 8.0))
  }

  // ----- one coordinate -----

  /** `clamp_control`. */
  function ClampControl(cp: real, start: real, end: real): real {
    var lo, hi := Min(start, end), Max(start, end);
    var pad := (hi - lo) * 0.2;
    Clamp(cp, lo - pad, hi + pad)
  }

  /** One coordinate of `bezier_point`. */
  function Bezier(a: real, b: real, c: real, d: real, t: real): real {
    var u := 1.0 - t;
    u * u * u * a + 3.0 * (u * u) * t * b + 3.0 * u * (t * t) * c + t * t * t * d
  }

  function Lerp(a: real, b: real, t: real): real {
    (1.0 - t) * a + t * b
  }

  lemma Scaled(a: real, b: real, k: real)
    requires a <= b && k >= 0.0
    ensures k * a <= k * b && a * k <= b * k
  {
  }

  lemma Product(a: real, b: real)
    requires a >= 0.0 && b >= 0.0
    ensures a * b >= 0.0
  {
  }

  lemma Shifted(a: real, b: real, t: real, v: real)
    ensures Lerp(a, b, t) - v == (1.0 - t) * (a - v) + t * (b - v)
    ensures v - Lerp(a, b, t) == (1.0 - t) * (v - a) + t * (v - b)
  {
  }

  lemma LerpInside(a: real, b: real, t: real, lo: real, hi: real)
    requires lo <= a <= hi && lo <= b <= hi && 0.0 <= t <= 1.0
    ensures lo <= Lerp(a, b, t) <= hi
  {
    Shifted(a, b, t, lo);
    Product(1.0 - t, a - lo);
    Product(t, b - lo);
    Shifted(a, b, t, hi);
    Product(1.0 - t, hi - a);
    Product(t, hi - b);
  }

  /** A Bezier point is three rounds of interpolation. */
  lemma DeCasteljau(a: real, b: real, c: real, d: real, t: real)
    ensures Bezier(a, b, c, d, t)
         == Lerp(Lerp(Lerp(a, b, t), Lerp(b, c, t), t), Lerp(Lerp(b, c, t), Lerp(c, d, t), t), t)
  {
  }

  /** So it lies between any bounds on its four control values. */
  lemma BezierInside(a: real, b: real, c: real, d: real, t: real, lo: real, hi: real)
    requires lo <= a <= hi && lo <= b <= hi && lo <= c <= hi && lo <= d <= hi && 0.0 <= t <= 1.0
    ensures lo <= Bezier(a, b, c, d, t) <= hi
  {
    DeCasteljau(a, b, c, d, t);
    LerpInside(a, b, t, lo, hi);
    LerpInside(b, c, t, lo, hi);
    LerpInside(c, d, t, lo, hi);
    LerpInside(Lerp(a, b, t), Lerp(b, c, t), t, lo, hi);
    LerpInside(Lerp(b, c, t), Lerp(c, d, t), t, lo, hi);
    LerpInside(Lerp(Lerp(a, b, t), Lerp(b, c, t), t), Lerp(Lerp(b, c, t), Lerp(c, d, t), t), t, lo, hi);
  }

  /** `accelerate`, for any non-negative power function. */
  function Accelerate(pow: (real, real) -> real, t: real, curve: real): (eased: real)
    requires forall x, c :: pow(x, c) >= 0.0
    ensures 0.0 <= eased <= 1.0
  {
    if t <= 0.0 then 0.0
    else if t >= 1.0 then 1.0
    else
      var n, m := pow(t, curve), pow(1.0 - t, curve);
      if n + m == 0.0 then t else Quotient(n, m); n / (n + m)
  }

  lemma QuotientGrows(n: real, m: real, n': real, m': real)
    requires 0.0 <= n <= n' && 0.0 <= m' <= m && n + m > 0.0 && n' + m' > 0.0
    ensures n / (n + m) <= n' / (n' + m')
  {
    var x, y := n / (n + m), n' / (n' + m');
    assert x * (n + m) == n && y * (n' + m') == n';
    Quotient(n, m);
    Quotient(n', m');
    if x > y {
      CrossProducts(x, y, n, m, n', m');
    }
  }

  lemma CrossProducts(x: real, y: real, n: real, m: real, n': real, m': real)
    requires 0.0 <= n <= n' && 0.0 <= m' <= m && n + m > 0.0 && n' + m' > 0.0
    requires x * (n + m) == n && y * (n' + m') == n' && 0.0 <= y <= 1.0 && 0.0 <= x <= 1.0
    ensures x <= y
  {
    Product(1.0 - x, n' - n);
    Product(x, m - m');
    assert (1.0 - x) * n == x * m;
    assert (1.0 - x) * n' - x * m' == (1.0 - x) * (n' - n) + x * (m - m');
    assert (1.0 - x) * n' - x * m' == n' - x * (n' + m');
    assert n' - x * (n' + m') == (y - x) * (n' + m');
    if x > y {
      Strict(x - y, n' + m');
    }
  }

  lemma Strict(a: real, b: real)
    requires a > 0.0 && b > 0.0
    ensures a * b > 0.0
  {
  }

  lemma Alone(n: real, m: real)
    requires n > 0.0 && m == 0.0
    ensures n / (n + m) == 1.0
  {
    assert n + m == n;
  }

  /** For a power function that never decreases, nor does the eased time. */
  lemma AccelerateMonotone(pow: (real, real) -> real, t: real, u: real, curve: real)
    requires forall x, c :: pow(x, c) >= 0.0
    requires forall x, y, c :: 0.0 <= x <= y ==> pow(x, c) <= pow(y, c)
    requires t <= u
    ensures Accelerate(pow, t, curve) <= Accelerate(pow, u, curve)
  {
    if 0.0 < t && u < 1.0 {
      var n, m, n', m' := pow(t, curve), pow(1.0 - t, curve), pow(u, curve), pow(1.0 - u, curve);
      assert n <= n' && m' <= m;
      if n + m > 0.0 && n' + m' > 0.0 {
        QuotientGrows(n, m, n', m');
      } else if n' + m' > 0.0 {
        Alone(n', m');
      } else if n + m > 0.0 {
        assert n == 0.0 && n / (n + m) == 0.0;
      }
    }
  }

  lemma Quotient(n: real, m: real)
    requires n >= 0.0 && m >= 0.0 && n + m != 0.0
    ensures 0.0 <= n / (n + m) <= 1.0
  {
    assert (n / (n + m)) * (n + m) == n;
  }

  // ----- the box -----

  /** Between `start` and `end`, grown by 20% of their distance and by `slack`. */
  predicate Near(v: real, start: real, end: real, slack: real) {
    var lo, hi := Min(start, end), Max(start, end);
    lo - (hi - lo) * 0.2 - slack <= v <= hi + (hi - lo) * 0.2 + slack
  }

  /** A control value in the grown box is left alone, and any other is brought into it. */
  lemma ClampedControl(cp: real, start: real, end: real)
    ensures Near(ClampControl(cp, start, end), start, end, 0.0)
    ensures Near(cp, start, end, 0.0) ==> ClampControl(cp, start, end) == cp
  {
  }

  lemma CurveNear(start: real, b: real, c: real, end: real, t: real)
    requires 0.0 <= t <= 1.0
    ensures Near(Bezier(start, ClampControl(b, start, end), ClampControl(c, start, end), end, t), start, end, 0.0)
  {
    var lo, hi := Min(start, end), Max(start, end);
    var pad := (hi - lo) * 0.2;
    BezierInside(start, ClampControl(b, start, end), ClampControl(c, start, end), end, t, lo - pad, hi + pad);
  }

  // ----- time -----

  /** The truncated time stamp of sample `i` of `n`. */
  function Stamp(i: nat, n: nat, duration: nat): (ms: int)
    requires n > 0
  {
    (i as real / n as real * duration as real).Floor
  }

  lemma Share(i: nat, j: nat, n: nat)
    requires i <= j && n > 0
    ensures 0.0 <= i as real / n as real <= j as real / n as real
    ensures i <= n ==> i as real / n as real <= 1.0
  {
    var d := n as real;
    assert (i as real / d) * d == i as real && (j as real / d) * d == j as real;
  }

  lemma StampMonotone(i: nat, j: nat, n: nat, duration: nat)
    requires i <= j <= n && n > 0
    ensures 0 <= Stamp(i, n, duration) <= Stamp(j, n, duration) <= duration
  {
    Share(i, j, n);
    Share(j, n, n);
    Scaled(0.0, i as real / n as real, duration as real);
    Scaled(i as real / n as real, j as real / n as real, duration as real);
    Scaled(j as real / n as real, 1.0, duration as real);
  }

  // ----- the path -----

  /** What every generated path satisfies. */
  ghost predicate PathOk(points: seq<Point>, duration: nat, startX: real, startY: real, landX: real, landY: real) {
    && |points| > 0
    && points[0] == Point(startX, startY, 0)
    && points[|points| - 1] == Point(landX, landY, duration)
    && forall i, j :: 0 <= i <= j < |points| ==> points[i].at <= points[j].at
  }

  ghost predicate SamplesNear(points: seq<Point>, startX: real, startY: real, landX: real, landY: real, noise: real) {
    forall i :: 0 <= i < |points| ==>
      Near(points[i].x, startX, landX, noise) && Near(points[i].y, startY, landY, noise)
  }

  /** The value is a clamped one that lies within `spread` of `share` of the way. */
  ghost predicate Around(v: real, start: real, land: real, share: real, spread: real) {
    exists p :: v == ClampControl(p, start, land) && -spread <= p - Lerp(start, land, share) <= spread
  }

  /** The control points, drawn around 30% and 70% of the way. */
  method Controls(start: real, land: real, spread: real) returns (b: real, c: real)
    requires spread >= 0.0
    ensures Around(b, start, land, 0.3, spread) && Around(c, start, land, 0.7, spread)
  {
    var o1 := Offset(spread);
    var o2 := Offset(spread);
    b := ClampControl(start + (land - start) * 0.3 + o1, start, land);
    c := ClampControl(start + (land - start) * 0.7 + o2, start, land);
    assert start + (land - start) * 0.3 + o1 - Lerp(start, land, 0.3) == o1;
    assert start + (land - start) * 0.7 + o2 - Lerp(start, land, 0.7) == o2;
  }

  /** One coordinate of sample `i`: on the curve, with tremor unless it is an end point. */
  method Sample(start: real, b: real, c: real, land: real, eased: real, tremble: bool, noise: real, ghost spread: real)
    returns (v: real)
    requires 0.0 <= eased <= 1.0 && noise >= 0.0
    requires Around(b, start, land, 0.3, spread) && Around(c, start, land, 0.7, spread)
    ensures Near(v, start, land, noise)
  {
    v := Bezier(start, b, c, land, eased);
    ghost var p :| b == ClampControl(p, start, land) && -spread <= p - Lerp(start, land, 0.3) <= spread;
    ghost var q :| c == ClampControl(q, start, land) && -spread <= q - Lerp(start, land, 0.7) <= spread;
    CurveNear(start, p, q, land, eased);
    if tremble {
      var o := Offset(noise);
      v := v + o;
    }
  }

  /** The sampled curve with its two ends pinned. */
  method Curve(pow: (real, real) -> real, curve: real, n: nat, duration: nat, noise: real,
               startX: real, startY: real, landX: real, landY: real, spread: real) returns (points: seq<Point>)
    requires n > 0 && noise >= 0.0 && spread >= 0.0
    requires forall x, c :: pow(x, c) >= 0.0
    ensures |points| == n + 1 && PathOk(points, duration, startX, startY, landX, landY)
    ensures SamplesNear(points, startX, startY, landX, landY, noise)
  {
    var px, qx := Controls(startX, landX, spread);
    var py, qy := Controls(startY, landY, spread);
    points := [];
    for i := 0 to n + 1
      invariant |points| == i
      invariant forall k :: 0 <= k < i ==> points[k].at == Stamp(k, n, duration)
      invariant SamplesNear(points, startX, startY, landX, landY, noise)
    {
      var eased := Accelerate(pow, i as real / n as real, curve);
      var tremble := 0 < i < n && noise > 0.0;
      var x := Sample(startX, px, qx, landX, eased, tremble, noise, spread);
      var y := Sample(startY, py, qy, landY, eased, tremble, noise, spread);
      StampMonotone(i, i, n, duration);
      points := points + [Point(x, y, Stamp(i, n, duration))];
    }
    forall k, m | 0 <= k <= m <= n
      ensures 0 <= Stamp(k, n, duration) <= Stamp(m, n, duration) <= duration
    {
      StampMonotone(k, m, n, duration);
    }
    points := points[0 := Point(startX, startY, 0)][n := Point(landX, landY, duration)];
  }

  predicate WithinOvershoot(p: Point, landX: real, landY: real, distance: real) {
    && -(distance * 0.08 + 4.0) <= p.x - landX <= distance * 0.08 + 4.0
    && -(distance * 0.08 + 4.0) <= p.y - landY <= distance * 0.08 + 4.0
  }

  /** At least 1, and otherwise the length of the way. */
  predicate IsDistance(distance: real, dx: real, dy: real) {
    distance >= 1.0 && (if dx * dx + dy * dy >= 1.0 then distance * distance == dx * dx + dy * dy else distance == 1.0)
  }

  lemma RootIsDistance(root: real, dx: real, dy: real)
    requires root >= 0.0 && root * root == dx * dx + dy * dy
    ensures IsDistance(Max(root, 1.0), dx, dy)
  {
    if root >= 1.0 {
      Scaled(1.0, root, root);
    } else {
      Scaled(root, 1.0, root);
    }
  }

  function Scale(x: real, k: real): real {
    x * k
  }

  lemma ScaleOrder(x: real, a: real, b: real)
    requires x >= 0.0 && 0.0 <= a <= b
    ensures 0.0 <= Scale(x, a) <= Scale(x, b) && Scale(x, 1.0) == x
  {
    Product(x, a);
    Product(x, b - a);
    assert x * b - x * a == x * (b - a);
  }

  /** How much of the span of times a movement uses: a quarter, and more with the distance. */
  function Stretch(span: real, factor: real): real {
    Scale(span, 0.25 + 0.75 * factor)
  }

  lemma StretchOrder(span: real, f: real, g: real)
    requires span >= 0.0 && 0.0 <= f <= g <= 1.0
    ensures 0.0 <= Stretch(span, f) <= Stretch(span, g) <= span
    ensures g == 1.0 ==> Stretch(span, g) == span
  {
    ScaleOrder(span, 0.25 + 0.75 * f, 0.25 + 0.75 * g);
    ScaleOrder(span, 0.25 + 0.75 * g, 1.0);
  }

  function Factor(distance: real): real {
    Clamp(distance / 900.0, 0.0, 1.0)
  }

  /** The time a movement of this length aims at. */
  function Target(c: Config, distance: real): (ms: real)
    requires c.minMs <= c.maxMs && distance >= 0.0
    ensures ms >= 0.0
  {
    StretchOrder((c.maxMs - c.minMs) as real, Factor(distance), 1.0);
    c.minMs as real + Stretch((c.maxMs - c.minMs) as real, Factor(distance))
  }

  function Whole(x: real): nat
    requires x >= 0.0
  {
    x.Floor
  }

  /** How long a movement of this length may take, as the random factor allows. */
  predicate Timely(c: Config, distance: real, ms: nat)
    requires c.minMs <= c.maxMs && distance >= 0.0
  {
    && Scale(Target(c, distance), 0.85) >= 0.0 && Scale(Target(c, distance), 1.15) >= 0.0
    && ClampNat(Whole(Scale(Target(c, distance), 0.85)), c.minMs, c.maxMs) <= ms
    && ms <= ClampNat(Whole(Scale(Target(c, distance), 1.15)), c.minMs, c.maxMs)
  }

  lemma ClampedOrder(x: real, y: real, lo: nat, hi: nat)
    requires 0.0 <= x <= y && lo <= hi
    ensures ClampNat(Whole(x), lo, hi) <= ClampNat(Whole(y), lo, hi)
  {
  }

  lemma JitteredWithin(t: real, jitter: real, lo: nat, hi: nat)
    requires t >= 0.0 && lo <= hi && 0.85 <= jitter <= 1.15
    ensures 0.0 <= Scale(t, 0.85) && 0.0 <= Scale(t, jitter) && 0.0 <= Scale(t, 1.15)
    ensures ClampNat(Whole(Scale(t, 0.85)), lo, hi) <= ClampNat(Whole(Scale(t, jitter)), lo, hi)
    ensures ClampNat(Whole(Scale(t, jitter)), lo, hi) <= ClampNat(Whole(Scale(t, 1.15)), lo, hi)
  {
    ScaleOrder(t, 0.85, jitter);
    ScaleOrder(t, jitter, 1.15);
    ClampedOrder(Scale(t, 0.85), Scale(t, jitter), lo, hi);
    ClampedOrder(Scale(t, jitter), Scale(t, 1.15), lo, hi);
  }

  /** A longer way never aims at a shorter time: from a quarter of the span to, at 900 pixels, the longest. */
  lemma FartherAimsLonger(c: Config, near: real, far: real)
    requires c.minMs <= c.maxMs && 0.0 <= near <= far
    ensures c.minMs as real <= Target(c, near) <= Target(c, far) <= c.maxMs as real
    ensures far >= 900.0 ==> Target(c, far) == c.maxMs as real
    ensures Target(c, 0.0) == 0.75 * c.minMs as real + 0.25 * c.maxMs as real
  {
    var span := (c.maxMs - c.minMs) as real;
    assert Factor(near) <= Factor(far) && (far >= 900.0 ==> Factor(far) == 1.0);
    StretchOrder(span, Factor(near), Factor(far));
    assert c.minMs as real + span == c.maxMs as real;
  }

  /** The distance to the landing point. */
  method Measure(sqrt: real -> real, dx: real, dy: real) returns (distance: real)
    requires forall x :: x >= 0.0 ==> sqrt(x) >= 0.0 && sqrt(x) * sqrt(x) == x
    ensures IsDistance(distance, dx, dy)
  {
    Square(dx);
    Square(dy);
    distance := Max(sqrt(dx * dx + dy * dy), 1.0);
    RootIsDistance(sqrt(dx * dx + dy * dy), dx, dy);
  }

  lemma Square(x: real)
    ensures x * x >= 0.0
  {
  }

  /** The time and the number of steps for a distance. */
  method Pace(c: Config, distance: real) returns (ms: nat, n: nat)
    requires c.minMs <= c.maxMs && 3 <= c.samples && distance >= 1.0
    ensures Timely(c, distance, ms) && c.minMs <= ms <= c.maxMs
    ensures n == ClampNat(Whole(distance / 40.0), 3, c.samples)
  {
    var jitter := DrawReal(0.85, 1.15);
    var target := Target(c, distance);
    JitteredWithin(target, jitter, c.minMs, c.maxMs);
    ms := ClampNat(Whole(Scale(target, jitter)), c.minMs, c.maxMs);
    n := ClampNat(Whole(distance / 40.0), 3, c.samples);
  }

  /** `generate_path`; the length of the way sets the time, the number of samples and the overshoot. */
  method GeneratePath(config: Config, pow: (real, real) -> real, sqrt: real -> real,
                      startX: real, startY: real, endX: real, endY: real)
    returns (points: seq<Point>, duration: nat, landX: real, landY: real, sampled: nat, distance: real)
    requires forall x, c :: pow(x, c) >= 0.0
    requires forall x :: x >= 0.0 ==> sqrt(x) >= 0.0 && sqrt(x) * sqrt(x) == x
    ensures IsDistance(distance, landX - startX, landY - startY)
    ensures PathOk(points, duration, startX, startY, landX, landY)
    ensures sampled == ClampNat(Whole(distance / 40.0), 3, Sanitize(config).samples) + 1
    ensures 4 <= sampled <= 65 && (|points| == sampled || |points| == sampled + 2)
    ensures SamplesNear(points[..sampled], startX, startY, landX, landY, Sanitize(config).noise)
    ensures points[sampled - 1] == Point(landX, landY, points[sampled - 1].at)
    ensures Timely(Sanitize(config), distance, points[sampled - 1].at)
    ensures Sanitize(config).minMs <= points[sampled - 1].at <= Sanitize(config).maxMs
    ensures |points| == sampled ==> duration == points[sampled - 1].at
    ensures |points| > sampled ==> points[sampled - 1].at + 50 <= duration <= points[sampled - 1].at + 150
    ensures -Sanitize(config).jitter <= landX - endX <= Sanitize(config).jitter
    ensures -Sanitize(config).jitter <= landY - endY <= Sanitize(config).jitter
    ensures config.overshoot <= 0.0 || distance <= 20.0 ==> |points| == sampled
    ensures config.overshoot >= 1.0 && distance > 20.0 ==> |points| == sampled + 2
    ensures |points| > sampled ==> WithinOvershoot(points[sampled], landX, landY, distance)
  {
    var c := Sanitize(config);
    var o := Offset(c.jitter);
    landX := endX + o;
    o := Offset(c.jitter);
    landY := endY + o;
    distance := Measure(sqrt, landX - startX, landY - startY);
    var spread := Max(distance * c.variance, 50.0);
    var first, n := Pace(c, distance);
    points := Curve(pow, c.acceleration, n, first, c.noise, startX, startY, landX, landY, spread);
    sampled := n + 1;
    duration := first;
    assert points[..sampled] == points;

    var overshoot := Chance(c.overshoot);
    if overshoot && distance > 20.0 {
      var scale := DrawReal(0.02, 0.08);
      var ox := Beyond(landX, landX - startX, distance, scale);
      var oy := Beyond(landY, landY - startY, distance, scale);
      var pause := DrawIndex(20, 60);
      var settle := DrawIndex(30, 90);
      points := points + [Point(ox, oy, first + pause), Point(landX, landY, first + pause + settle)];
      duration := first + pause + settle;
      assert points[..sampled][..n] == points[..n];
    }
  }

  lemma StepBound(distance: real, scale: real)
    requires distance >= 0.0 && 0.0 <= scale <= 0.08
    ensures 0.0 <= distance * scale <= distance * 0.08
  {
    Product(distance, scale);
    Product(distance, 0.08 - scale);
    assert distance * 0.08 - distance * scale == distance * (0.08 - scale);
  }

  /** One coordinate of the overshoot: past the landing point, in the direction of travel. */
  method Beyond(land: real, delta: real, distance: real, scale: real) returns (v: real)
    requires distance >= 1.0 && 0.0 <= scale <= 0.08
    ensures -(distance * 0.08 + 4.0) <= v - land <= distance * 0.08 + 4.0
  {
    // The sign of a zero distance may be either.
    var forward := delta >= 0.0;
    if delta == 0.0 {
      forward := Chance(0.5);
    }
    StepBound(distance, scale);
    var step := distance * scale;
    assert 0.0 <= step <= distance * 0.08;
    var o := Offset(4.0);
    v := if forward then land + step + o else land - step + o;
  }
}

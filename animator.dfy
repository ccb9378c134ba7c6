/** The epicycle machine of the drawing animator: the running-sum chain of each
    coordinate's epicycles, the four quadrant anchors computed from the curve's
    extent, and the per-frame cross-wiring of the X chain's tip and the Y
    chain's tip into the traced point. The numeric library's cos, sin and pi
    are given as data (a Trig value), so nothing here depends on their
    accuracy. */
module Animator {
  import opened Fourier

  datatype Point = Point(x: real, y: real) {
    function Plus(d: Point): Point { Point(x + d.x, y + d.y) }
    function Minus(o: Point): Point { Point(x - o.x, y - o.y) }
  }

  const Origin := Point(0.0, 0.0)

  /** A drawn line from one point to another. */
  datatype Segment = Segment(tail: Point, head: Point)

  /** One epicycle's circle as the renderer draws it. */
  datatype Circle = Circle(center: Point, radius: real)

  /** The cosine, sine and pi of the numeric library. */
  datatype Trig = Trig(pi: real, cos: real -> real, sin: real -> real)

  /** The geometric state of one frame. */
  datatype FrameState = FrameState(
    t: real,
    xChain: seq<Point>, xTip: Point, xCircles: seq<Circle>,
    yChain: seq<Point>, yTip: Point, yCircles: seq<Circle>,
    drawn: Point, vertical: Segment, horizontal: Segment)

  function Abs(v: real): real { if v < 0.0 then -v else v }

  /** Python's max of two numbers. */
  function Max(a: real, b: real): (m: real)
    ensures a <= m && b <= m && (m == a || m == b)
  {
    if b > a then b else a
  }

  /** np.max(np.abs(column)); numpy refuses an empty column. */
  function MaxAbs(column: seq<real>): (m: real)
    requires |column| > 0
    ensures forall i :: 0 <= i < |column| ==> Abs(column[i]) <= m
    ensures exists i :: 0 <= i < |column| && Abs(column[i]) == m
    decreases |column|
  {
    if |column| == 1 then Abs(column[0])
    else
      var front := column[..|column| - 1];
      assert forall i :: 0 <= i < |front| ==> front[i] == column[i];
      Max(MaxAbs(front), Abs(column[|column| - 1]))
  }

  /** The x column of the curve's points, original_points[:, 0]. */
  function Xs(points: seq<Point>): seq<real>
  {
    seq(|points|, i requires 0 <= i < |points| => points[i].x)
  }

  /** The y column, original_points[:, 1]. */
  function Ys(points: seq<Point>): seq<real>
  {
    seq(|points|, i requires 0 <= i < |points| => points[i].y)
  }

  /** The half-size S of a quadrant: 1.5 times the largest coordinate magnitude
      of the curve, on either axis. */
  function Scale(points: seq<Point>): (s: real)
    requires |points| > 0
    ensures s >= 0.0
    ensures forall i :: 0 <= i < |points| ==> 1.5 * Abs(points[i].x) <= s && 1.5 * Abs(points[i].y) <= s
    ensures exists i :: 0 <= i < |points| && (1.5 * Abs(points[i].x) == s || 1.5 * Abs(points[i].y) == s)
  {
    var maxX := MaxAbs(Xs(points));
    var maxY := MaxAbs(Ys(points));
    assert forall i :: 0 <= i < |points| ==> Xs(points)[i] == points[i].x && Ys(points)[i] == points[i].y;
    assert Abs(Xs(points)[0]) >= 0.0;
    Max(maxX, maxY) * 1.5
  }

  /** The curve drawn about any of the four anchors (+-S, +-S) stays inside
      that anchor's quadrant, a square of half-size S, and so inside the axes
      limits of +-2S. */
  lemma CurveFitsInEveryQuadrant(points: seq<Point>, i: nat, anchor: Point)
    requires i < |points|
    requires anchor.x == Scale(points) || anchor.x == -Scale(points)
    requires anchor.y == Scale(points) || anchor.y == -Scale(points)
    ensures var s, q := Scale(points), anchor.Plus(points[i]);
      && anchor.x - s <= q.x <= anchor.x + s && -2.0 * s <= q.x <= 2.0 * s
      && anchor.y - s <= q.y <= anchor.y + s && -2.0 * s <= q.y <= 2.0 * s
  {
    var p := points[i];
    assert 1.5 * Abs(p.x) <= Scale(points) && 1.5 * Abs(p.y) <= Scale(points);
  }

  /** The angle of one epicycle at time t. */
  function Angle(trig: Trig, c: Coefficient, t: real): (a: real)
    ensures t == 0.0 ==> a == c.phase
  {
    c.phase + 2.0 * trig.pi * c.freq as real * t
  }

  /** One epicycle's offset (dx, dy) at time t. */
  function Contribution(trig: Trig, c: Coefficient, t: real): (d: Point)
    ensures c.amp == 0.0 ==> d == Origin
  {
    var angle := Angle(trig, c, t);
    Point(c.amp * trig.cos(angle), c.amp * trig.sin(angle))
  }

  function Contributions(trig: Trig, coeffs: seq<Coefficient>, t: real): seq<Point>
  {
    seq(|coeffs|, i requires 0 <= i < |coeffs| => Contribution(trig, coeffs[i], t))
  }

  /** The sum of a sequence of offsets, added first to last. */
  function SumOf(ds: seq<Point>): Point
    decreases |ds|
  {
    if ds == [] then Origin else SumOf(ds[..|ds| - 1]).Plus(ds[|ds| - 1])
  }

  /** The unswapped chain: the center, then the center plus each running sum. */
  function PlainChain(trig: Trig, coeffs: seq<Coefficient>, t: real, center: Point): (chain: seq<Point>)
    ensures |chain| == |coeffs| + 1 && chain[0] == center
  {
    var ds := Contributions(trig, coeffs, t);
    seq(|coeffs| + 1, i requires 0 <= i <= |coeffs| => center.Plus(SumOf(ds[..i])))
  }

  /** Re-embeds a point about the center, one column at a time. */
  function SwapAbout(center: Point, p: Point): Point
  {
    Point(center.x + (p.y - center.y), center.y + (p.x - center.x))
  }

  /** Every point of a chain re-embedded about the center. */
  function Swapped(center: Point, points: seq<Point>): (r: seq<Point>)
    ensures |r| == |points|
    ensures |points| > 0 && points[0] == center ==> r[0] == center
  {
    seq(|points|, i requires 0 <= i < |points| => SwapAbout(center, points[i]))
  }

  /** Swapping twice about the same center gives back the points: the Y-mode
      embedding loses nothing. */
  lemma SwappedTwiceIsIdentity(center: Point, points: seq<Point>)
    ensures Swapped(center, Swapped(center, points)) == points
  {
    var once := Swapped(center, points);
    assert forall i :: 0 <= i < |points| ==> SwapAbout(center, once[i]) == points[i];
  }

  /** The chain of points that _calculate_chain returns; swap is is_y_component. */
  function Chain(trig: Trig, coeffs: seq<Coefficient>, t: real, center: Point, swap: bool): (chain: seq<Point>)
    ensures |chain| == |coeffs| + 1
    ensures chain[0] == center
    ensures coeffs == [] ==> chain == [center]
  {
    var plain := PlainChain(trig, coeffs, t, center);
    if swap then Swapped(center, plain) else plain
  }

  lemma SumOfStep(ds: seq<Point>, i: nat)
    requires i < |ds|
    ensures SumOf(ds[..i + 1]) == SumOf(ds[..i]).Plus(ds[i])
  {
    assert ds[..i + 1][..i] == ds[..i];
  }

  /** In the unswapped mode each point is the center plus the sum of the
      offsets before it, so consecutive points differ by exactly one
      epicycle's offset. */
  lemma PlainChainIsRunningSum(trig: Trig, coeffs: seq<Coefficient>, t: real, center: Point)
    ensures var chain, ds := Chain(trig, coeffs, t, center, false), Contributions(trig, coeffs, t);
      && (forall i :: 0 <= i <= |coeffs| ==> chain[i] == center.Plus(SumOf(ds[..i])))
      && (forall i :: 0 <= i < |coeffs| ==> chain[i + 1] == chain[i].Plus(Contribution(trig, coeffs[i], t)))
  {
    var ds := Contributions(trig, coeffs, t);
    forall i | 0 <= i < |coeffs|
      ensures SumOf(ds[..i + 1]) == SumOf(ds[..i]).Plus(ds[i])
    {
      SumOfStep(ds, i);
    }
  }

  /** In the swapped mode each point is the center plus the unswapped offset
      with its two coordinates exchanged: the real running sum becomes the
      vertical offset. */
  lemma SwappedChainExchangesOffsets(trig: Trig, coeffs: seq<Coefficient>, t: real, center: Point)
    ensures var plain, swapped := Chain(trig, coeffs, t, center, false), Chain(trig, coeffs, t, center, true);
      forall i :: 0 <= i <= |coeffs| ==>
        var offset := plain[i].Minus(center);
        swapped[i] == center.Plus(Point(offset.y, offset.x)) && offset == SumOf(Contributions(trig, coeffs, t)[..i])
  {
  }

  /** Truncating the coefficient list to its first m records truncates the
      chain to its first m + 1 points, in both modes. */
  lemma TruncatedChainIsPrefix(trig: Trig, coeffs: seq<Coefficient>, t: real, center: Point, swap: bool, m: nat)
    requires m <= |coeffs|
    ensures Chain(trig, coeffs[..m], t, center, swap) == Chain(trig, coeffs, t, center, swap)[..m + 1]
  {
    var ds, dsm := Contributions(trig, coeffs, t), Contributions(trig, coeffs[..m], t);
    assert forall i :: 0 <= i <= m ==> dsm[..i] == ds[..i];
  }

  lemma {:induction false} SumOfStill(ds: seq<Point>)
    requires forall i :: 0 <= i < |ds| ==> ds[i] == Origin
    ensures SumOf(ds) == Origin
    decreases |ds|
  {
    if ds != [] {
      SumOfStill(ds[..|ds| - 1]);
    }
  }

  /** With every amplitude zero (an all-zero signal) the chain collapses to the
      center at every time, in both modes. */
  lemma StillChainAtZeroAmplitude(trig: Trig, coeffs: seq<Coefficient>, t: real, center: Point, swap: bool)
    requires forall i :: 0 <= i < |coeffs| ==> coeffs[i].amp == 0.0
    ensures forall i :: 0 <= i <= |coeffs| ==> Chain(trig, coeffs, t, center, swap)[i] == center
  {
    var ds := Contributions(trig, coeffs, t);
    forall i | 0 <= i <= |coeffs|
      ensures SumOf(ds[..i]) == Origin
    {
      SumOfStill(ds[..i]);
    }
  }

  /** The identity cos^2 + sin^2 = 1 at one angle. */
  ghost predicate PythagoreanAt(trig: Trig, a: real)
  {
    trig.cos(a) * trig.cos(a) + trig.sin(a) * trig.sin(a) == 1.0
  }

  /** The identity cos^2 + sin^2 = 1 at every angle. */
  ghost predicate Pythagorean(trig: Trig)
  {
    forall a :: PythagoreanAt(trig, a)
  }

  function DistanceSquared(p: Point, q: Point): real
  {
    (p.x - q.x) * (p.x - q.x) + (p.y - q.y) * (p.y - q.y)
  }

  /** One epicycle's offset has length amp. */
  lemma ContributionOnCircle(trig: Trig, c: Coefficient, t: real)
    requires Pythagorean(trig)
    ensures DistanceSquared(Contribution(trig, c, t), Origin) == c.amp * c.amp
  {
    var angle := Angle(trig, c, t);
    var cosA, sinA := trig.cos(angle), trig.sin(angle);
    assert PythagoreanAt(trig, angle);
    calc {
      DistanceSquared(Contribution(trig, c, t), Origin);
      (c.amp * cosA) * (c.amp * cosA) + (c.amp * sinA) * (c.amp * sinA);
      c.amp * c.amp * (cosA * cosA + sinA * sinA);
      c.amp * c.amp;
    }
  }

  lemma SwapKeepsDistance(center: Point, p: Point, q: Point)
    ensures DistanceSquared(SwapAbout(center, p), SwapAbout(center, q)) == DistanceSquared(p, q)
  {
    var sp, sq := SwapAbout(center, p), SwapAbout(center, q);
    assert sp.x - sq.x == p.y - q.y;
    assert sp.y - sq.y == p.x - q.x;
  }

  lemma StepDistance(p: Point, d: Point)
    ensures DistanceSquared(p.Plus(d), p) == DistanceSquared(d, Origin)
  {
    assert p.Plus(d).x - p.x == d.x - 0.0;
    assert p.Plus(d).y - p.y == d.y - 0.0;
  }

  /** Each point of the chain lies on the circle of radius amp_i drawn about
      the point before it, in both modes. */
  lemma EpicyclesLinkUp(trig: Trig, coeffs: seq<Coefficient>, t: real, center: Point, swap: bool, i: nat)
    requires Pythagorean(trig)
    requires i < |coeffs|
    ensures var chain := Chain(trig, coeffs, t, center, swap);
      DistanceSquared(chain[i + 1], chain[i]) == coeffs[i].amp * coeffs[i].amp
  {
    PlainChainIsRunningSum(trig, coeffs, t, center);
    var plain := Chain(trig, coeffs, t, center, false);
    var d := Contribution(trig, coeffs[i], t);
    assert plain[i + 1] == plain[i].Plus(d);
    StepDistance(plain[i], d);
    ContributionOnCircle(trig, coeffs[i], t);
    if swap {
      var chain := Chain(trig, coeffs, t, center, true);
      assert chain[i] == SwapAbout(center, plain[i]);
      assert chain[i + 1] == SwapAbout(center, plain[i + 1]);
      SwapKeepsDistance(center, plain[i + 1], plain[i]);
    }
  }

  /** With one coefficient the tip lies on the circle of radius amp about the
      anchor, whatever the time. */
  lemma SingleEpicycleTipOnCircle(trig: Trig, c: Coefficient, t: real, center: Point, swap: bool)
    requires Pythagorean(trig)
    ensures DistanceSquared(Chain(trig, [c], t, center, swap)[1], center) == c.amp * c.amp
  {
    EpicyclesLinkUp(trig, [c], t, center, swap, 0);
  }

  /** The circles drawn for one chain: circle i is centred on point i with the
      radius of coefficient i. */
  function Circles(coeffs: seq<Coefficient>, chain: seq<Point>): (circles: seq<Circle>)
    requires |chain| == |coeffs| + 1
    ensures |circles| == |coeffs|
  {
    seq(|coeffs|, i requires 0 <= i < |coeffs| => Circle(chain[i], coeffs[i].amp))
  }

  /** Circle i passes through point i + 1 of the chain. */
  ghost predicate CirclesCarry(circles: seq<Circle>, chain: seq<Point>)
  {
    && |chain| == |circles| + 1
    && forall i :: 0 <= i < |circles| ==>
         DistanceSquared(chain[i + 1], circles[i].center) == circles[i].radius * circles[i].radius
  }

  /** Every link of a chain is as long as its coefficient's amplitude. */
  lemma ChainLinksHaveAmplitudeLength(trig: Trig, coeffs: seq<Coefficient>, t: real, center: Point, swap: bool)
    requires Pythagorean(trig)
    ensures var chain := Chain(trig, coeffs, t, center, swap);
      forall i :: 0 <= i < |coeffs| ==> DistanceSquared(chain[i + 1], chain[i]) == coeffs[i].amp * coeffs[i].amp
  {
    forall i | 0 <= i < |coeffs|
      ensures var chain := Chain(trig, coeffs, t, center, swap);
        DistanceSquared(chain[i + 1], chain[i]) == coeffs[i].amp * coeffs[i].amp
    {
      EpicyclesLinkUp(trig, coeffs, t, center, swap, i);
    }
  }

  /** The circles drawn for any chain whose links have the amplitudes'
      lengths pass through the chain. */
  lemma CirclesOfLinks(coeffs: seq<Coefficient>, chain: seq<Point>)
    requires |chain| == |coeffs| + 1
    requires forall i :: 0 <= i < |coeffs| ==> DistanceSquared(chain[i + 1], chain[i]) == coeffs[i].amp * coeffs[i].amp
    ensures CirclesCarry(Circles(coeffs, chain), chain)
  {
  }

  /** The circles drawn for a chain pass through the chain. */
  lemma CirclesCarryTheChain(trig: Trig, coeffs: seq<Coefficient>, t: real, center: Point, swap: bool)
    requires Pythagorean(trig)
    ensures CirclesCarry(Circles(coeffs, Chain(trig, coeffs, t, center, swap)), Chain(trig, coeffs, t, center, swap))
  {
    ChainLinksHaveAmplitudeLength(trig, coeffs, t, center, swap);
    CirclesOfLinks(coeffs, Chain(trig, coeffs, t, center, swap));
  }

  /** The time parameter of a frame. */
  function FrameTime(frame: int, totalFrames: int): real
    requires totalFrames != 0
  {
    frame as real / totalFrames as real
  }

  lemma FrameTimeInUnitInterval(frame: int, totalFrames: int)
    requires 0 <= frame < totalFrames
    ensures 0.0 <= FrameTime(frame, totalFrames) < 1.0
  {
    var t, f, n := FrameTime(frame, totalFrames), frame as real, totalFrames as real;
    assert t * n == f;
  }

  /** Later frames have later times, so t never revisits a value within a run. */
  lemma FrameTimeIncreasing(f1: int, f2: int, totalFrames: int)
    requires f1 < f2 && totalFrames > 0
    ensures FrameTime(f1, totalFrames) < FrameTime(f2, totalFrames)
  {
    var n := totalFrames as real;
    assert FrameTime(f1, totalFrames) * n == f1 as real;
    assert FrameTime(f2, totalFrames) * n == f2 as real;
  }

  class FourierDrawerAnimator {
    const xCoeffs: seq<Coefficient>
    const yCoeffs: seq<Coefficient>
    const originalPoints: seq<Point>
    const trig: Trig
    /** Half-size of a quadrant. */
    const S: real
    const centerTL: Point := Point(-S, S)
    const centerTR: Point := Point(S, S)
    const centerBL: Point := Point(-S, -S)
    const centerBR: Point := Point(S, -S)
    var traceX: seq<real>
    var traceY: seq<real>

    ghost predicate Valid()
      reads this
    {
      && |originalPoints| > 0
      && S == Scale(originalPoints)
      && |traceX| == |traceY|
    }

    constructor (xCoeffs: seq<Coefficient>, yCoeffs: seq<Coefficient>, originalPoints: seq<Point>, trig: Trig)
      requires |originalPoints| > 0
      ensures Valid()
      ensures this.xCoeffs == xCoeffs && this.yCoeffs == yCoeffs
      ensures this.originalPoints == originalPoints && this.trig == trig
      ensures S == Scale(originalPoints) && S >= 0.0
      ensures centerTL == Point(-S, S) && centerTR == Point(S, S)
      ensures centerBL == Point(-S, -S) && centerBR == Point(S, -S)
      ensures traceX == [] && traceY == []
    {
      this.xCoeffs := xCoeffs;
      this.yCoeffs := yCoeffs;
      this.originalPoints := originalPoints;
      this.trig := trig;
      traceX := [];
      traceY := [];
      var maxX := MaxAbs(Xs(originalPoints));
      var maxY := MaxAbs(Ys(originalPoints));
      S := Max(maxX, maxY) * 1.5;
    }

    /** The geometric state of frame `frame` of `totalFrames`; it depends on
        nothing but the frame's time. */
    function FrameAt(frame: int, totalFrames: int): FrameState
      requires totalFrames != 0
    {
      var t := FrameTime(frame, totalFrames);
      var xChain := Chain(trig, xCoeffs, t, centerTR, false);
      var yChain := Chain(trig, yCoeffs, t, centerBL, true);
      var xTip, yTip := xChain[|xCoeffs|], yChain[|yCoeffs|];
      var drawn := Point(xTip.x, yTip.y);
      FrameState(t, xChain, xTip, Circles(xCoeffs, xChain), yChain, yTip, Circles(yCoeffs, yChain),
                 drawn, Segment(xTip, drawn), Segment(yTip, drawn))
    }

    /** _calculate_chain: the running sums are written into a fresh array of
        |coeffs| + 1 points; in the swapped mode a second array is written
        column by column from the first. */
    method CalculateChain(coeffs: seq<Coefficient>, t: real, center: Point, isYComponent: bool)
      returns (chain: array<Point>, tip: Point)
      ensures fresh(chain)
      ensures chain.Length == |coeffs| + 1
      ensures chain[..] == Chain(trig, coeffs, t, center, isYComponent)
      ensures tip == chain[|coeffs|]
    {
      var n := |coeffs|;
      var points := new Point[n + 1];
      var currValX, currValY := 0.0, 0.0;
      points[0] := Point(center.x, center.y);
      ghost var ds := Contributions(trig, coeffs, t);
      ghost var plain := PlainChain(trig, coeffs, t, center);
      for i := 0 to n
        invariant Point(currValX, currValY) == SumOf(ds[..i])
        invariant forall k :: 0 <= k <= i ==> points[k] == plain[k]
      {
        var c := coeffs[i];
        var angle := c.phase + (2.0 * trig.pi * c.freq as real * t);
        var dx := c.amp * trig.cos(angle);
        var dy := c.amp * trig.sin(angle);
        assert ds[i] == Point(dx, dy) by {
          assert angle == Angle(trig, c, t);
        }
        SumOfStep(ds, i);
        currValX := currValX + dx;
        currValY := currValY + dy;
        points[i + 1] := Point(center.x + currValX, center.y + currValY);
      }
      assert points[..] == plain;
      if isYComponent {
        var swapped := SwapColumns(points, center);
        tip := Point(swapped[n].x, swapped[n].y);
        chain := swapped;
      } else {
        tip := Point(points[n].x, points[n].y);
        chain := points;
      }
    }

    /** The swapped embedding of _calculate_chain: a fresh array whose x column
        is the center's x plus each point's y offset, and whose y column is the
        center's y plus each point's x offset. */
    static method SwapColumns(points: array<Point>, center: Point) returns (swapped: array<Point>)
      ensures fresh(swapped)
      ensures swapped.Length == points.Length
      ensures swapped[..] == Swapped(center, points[..])
    {
      swapped := new Point[points.Length];
      for i := 0 to points.Length
        modifies swapped
        invariant forall k :: 0 <= k < i ==> swapped[k].x == center.x + (points[k].y - center.y)
      {
        swapped[i] := swapped[i].(x := center.x + (points[i].y - center.y));
      }
      for i := 0 to points.Length
        modifies swapped
        invariant forall k :: 0 <= k < points.Length ==> swapped[k].x == center.x + (points[k].y - center.y)
        invariant forall k :: 0 <= k < i ==> swapped[k].y == center.y + (points[k].x - center.x)
      {
        swapped[i] := swapped[i].(y := center.y + (points[i].x - center.x));
      }
    }

    /** `update`: both chains at this frame's time, the drawn point taken from
        the X tip's x and the Y tip's y, the two projection segments, and one
        more entry at the end of each trace list. */
    method Update(frame: int, totalFrames: int) returns (state: FrameState)
      requires Valid()
      requires totalFrames != 0
      modifies this
      ensures Valid()
      ensures state == FrameAt(frame, totalFrames)
      ensures state.drawn == Point(state.xTip.x, state.yTip.y)
      ensures traceX == old(traceX) + [state.drawn.x]
      ensures traceY == old(traceY) + [state.drawn.y]
      ensures |traceX| == |traceY|
    {
      var t := frame as real / totalFrames as real;
      var xChain, xTip := CalculateChain(xCoeffs, t, centerTR, false);
      var xCircles := Circles(xCoeffs, xChain[..]);
      var yChain, yTip := CalculateChain(yCoeffs, t, centerBL, true);
      var yCircles := Circles(yCoeffs, yChain[..]);
      var drawnX := xTip.x;
      var drawnY := yTip.y;
      traceX := traceX + [drawnX];
      traceY := traceY + [drawnY];
      var drawn := Point(drawnX, drawnY);
      state := FrameState(t, xChain[..], xTip, xCircles, yChain[..], yTip, yCircles,
                          drawn, Segment(xTip, drawn), Segment(yTip, drawn));
    }

    /** The x entries that updates of frames 0 .. count-1 of totalFrames add to the trace. */
    function TraceX(count: nat, totalFrames: int): (xs: seq<real>)
      requires count == 0 || totalFrames != 0
      ensures |xs| == count
    {
      seq(count, f requires 0 <= f < count => FrameAt(f, totalFrames).drawn.x)
    }

    /** The y entries that updates of frames 0 .. count-1 of totalFrames add to the trace. */
    function TraceY(count: nat, totalFrames: int): (ys: seq<real>)
      requires count == 0 || totalFrames != 0
      ensures |ys| == count
    {
      seq(count, f requires 0 <= f < count => FrameAt(f, totalFrames).drawn.y)
    }

    /** One more frame adds that frame's drawn x at the end of the x list. */
    lemma TraceXGrows(count: nat, totalFrames: int)
      requires totalFrames != 0
      ensures TraceX(count + 1, totalFrames) == TraceX(count, totalFrames) + [FrameAt(count, totalFrames).drawn.x]
    {
    }

    /** One more frame adds that frame's drawn y at the end of the y list. */
    lemma TraceYGrows(count: nat, totalFrames: int)
      requires totalFrames != 0
      ensures TraceY(count + 1, totalFrames) == TraceY(count, totalFrames) + [FrameAt(count, totalFrames).drawn.y]
    {
    }

    /** One call of update, seen only through the entries it appends to the trace. */
    method AdvanceTrace(frame: nat, totalFrames: int)
      requires Valid()
      requires totalFrames != 0
      modifies this
      ensures Valid()
      ensures traceX == old(traceX) + [FrameAt(frame, totalFrames).drawn.x]
      ensures traceY == old(traceY) + [FrameAt(frame, totalFrames).drawn.y]
    {
      var _ := Update(frame, totalFrames);
    }

    /** The frame schedule of save_animation: update(f, F) for f = 0 .. F-1
        appends the F points drawn at frames 0 .. F-1, in that order. */
    method PlayFrames(totalFrames: nat)
      requires Valid()
      modifies this
      ensures Valid()
      ensures traceX == old(traceX) + TraceX(totalFrames, totalFrames)
      ensures traceY == old(traceY) + TraceY(totalFrames, totalFrames)
    {
      for f := 0 to totalFrames
        invariant Valid()
        invariant traceX == old(traceX) + TraceX(f, totalFrames)
        invariant traceY == old(traceY) + TraceY(f, totalFrames)
      {
        ghost var xs, ys := TraceX(f, totalFrames), TraceY(f, totalFrames);
        AdvanceTrace(f, totalFrames);
        TraceXGrows(f, totalFrames);
        TraceYGrows(f, totalFrames);
        ghost var x, y := FrameAt(f, totalFrames).drawn.x, FrameAt(f, totalFrames).drawn.y;
        assert (old(traceX) + xs) + [x] == old(traceX) + (xs + [x]);
        assert (old(traceY) + ys) + [y] == old(traceY) + (ys + [y]);
      }
    }

    /** The drawn point is the bottom-right anchor moved by the two real
        reconstructions: x by the X chain's real sum, y by the Y chain's. */
    lemma DrawnPointIsReconstruction(frame: int, totalFrames: int)
      requires totalFrames != 0
      ensures var s, t := FrameAt(frame, totalFrames), FrameTime(frame, totalFrames);
        s.drawn == centerBR.Plus(Point(SumOf(Contributions(trig, xCoeffs, t)).x,
                                       SumOf(Contributions(trig, yCoeffs, t)).x))
    {
      var t := FrameTime(frame, totalFrames);
      var xs, ys := Contributions(trig, xCoeffs, t), Contributions(trig, yCoeffs, t);
      assert xs[..|xCoeffs|] == xs && ys[..|yCoeffs|] == ys;
      SwappedChainExchangesOffsets(trig, yCoeffs, t, centerBL);
    }

    /** The vertical projection runs from the X tip, the last point of the X
        chain, straight down or up to the drawn point; the horizontal one from
        the Y tip, the last point of the Y chain, straight across. */
    lemma ProjectionsAreAxisAligned(frame: int, totalFrames: int)
      requires totalFrames != 0
      ensures var s := FrameAt(frame, totalFrames);
        && s.vertical.tail == s.xChain[|s.xChain| - 1] && s.vertical.head == s.drawn
        && s.vertical.tail.x == s.vertical.head.x
        && s.horizontal.tail == s.yChain[|s.yChain| - 1] && s.horizontal.head == s.drawn
        && s.horizontal.tail.y == s.horizontal.head.y
    {
    }

    /** With every amplitude zero (an all-zero curve) the drawn point stays on
        the bottom-right anchor in every frame, so the trace is constant. */
    lemma StillPenAtZeroAmplitude(frame: int, totalFrames: int)
      requires totalFrames != 0
      requires forall i :: 0 <= i < |xCoeffs| ==> xCoeffs[i].amp == 0.0
      requires forall i :: 0 <= i < |yCoeffs| ==> yCoeffs[i].amp == 0.0
      ensures FrameAt(frame, totalFrames).drawn == centerBR
    {
      var t := FrameTime(frame, totalFrames);
      StillChainAtZeroAmplitude(trig, xCoeffs, t, centerTR, false);
      StillChainAtZeroAmplitude(trig, yCoeffs, t, centerBL, true);
    }

    /** Every circle drawn in a frame passes through the next point of its
        chain, when cos and sin satisfy cos^2 + sin^2 = 1. */
    lemma FrameCirclesCarryTheChain(frame: int, totalFrames: int)
      requires totalFrames != 0
      requires Pythagorean(trig)
      ensures var s := FrameAt(frame, totalFrames);
        && CirclesCarry(s.xCircles, s.xChain)
        && CirclesCarry(s.yCircles, s.yChain)
    {
      var t, s := FrameTime(frame, totalFrames), FrameAt(frame, totalFrames);
      var xChain, yChain := Chain(trig, xCoeffs, t, centerTR, false), Chain(trig, yCoeffs, t, centerBL, true);
      assert s.xChain == xChain && s.xCircles == Circles(xCoeffs, xChain);
      assert s.yChain == yChain && s.yCircles == Circles(yCoeffs, yChain);
      CirclesCarryTheChain(trig, xCoeffs, t, centerTR, false);
      CirclesCarryTheChain(trig, yCoeffs, t, centerBL, true);
    }
  }
}

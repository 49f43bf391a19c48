/** The geometry of one frame of the arc simulator (src/utils/arcRenderer.ts):
    where the two contacts stand for a given progress, when an arc is shown and
    in which form, the jagged centreline of a free or blown-out arc, the slot
    centres of the arc chutes and the path of an arc captured by one chute.
    Each array the source builds in a loop is built here by a method with the
    same loop, proved equal to a specification function; the properties are
    lemmas about those functions. */
module ArcGeometry {
  import opened Host
  import opened Canvas2D

  const ContactGapStart: real := 32.0
  const ContactGapEnd: real := 160.0
  const ContactLength: real := 60.0

  const ChuteBaseX: real := 300.0
  const ChuteBaseY: real := 50.0
  const ChuteCount: int := 8
  const ChuteWidth: real := 8.0
  const ChuteHeight: real := 50.0
  const ChuteSpacing: real := 10.0

  /** An arc centreline has ArcSegments + 1 points, a chute arc ChuteArcSegments + 1. */
  const ArcSegments: nat := 12
  const ChuteArcSegments: nat := 10

  /** The arc appears once the contacts have parted this far into the cycle. */
  const ArcStartTime: real := 0.08
  /** From this progress on, a magnetically driven arc is captured by the chutes. */
  const CaptureTime: real := 0.4

  function Abs(v: real): real { if v < 0.0 then -v else v }
  /** Math.min and Math.max on two numbers. */
  function Min(a: real, b: real): real { if a <= b then a else b }
  function Max(a: real, b: real): real { if a >= b then a else b }

  // ---------------------------------------------------------------------------
  // Contacts

  datatype Contacts = Contacts(leftX: real, rightX: real, y: real)

  /** The two contact positions at progress t on a w-by-h canvas: the gap opens
      linearly from 32 to 160 pixels around the vertical centre line. */
  function ContactsAt(t: real, w: real, h: real): (c: Contacts)
    ensures c.leftX + c.rightX == w
    ensures c.rightX - c.leftX == 32.0 + 128.0 * t
    ensures c.y == h / 2.0
  {
    var gap := ContactGapStart + (ContactGapEnd - ContactGapStart) * t;
    Contacts(w / 2.0 - gap / 2.0, w / 2.0 + gap / 2.0, h / 2.0)
  }

  /** For any progress that is not negative the left contact is left of the right one. */
  lemma ContactsOpen(t: real, w: real, h: real)
    requires 0.0 <= t
    ensures ContactsAt(t, w, h).leftX < ContactsAt(t, w, h).rightX
  {
  }

  /** As progress grows, each contact moves outward and the gap widens:
      32 pixels at progress 0, 160 at progress 1. */
  lemma GapWidens(s: real, t: real, w: real, h: real)
    requires s <= t
    ensures ContactsAt(t, w, h).leftX <= ContactsAt(s, w, h).leftX
    ensures ContactsAt(s, w, h).rightX <= ContactsAt(t, w, h).rightX
    ensures ContactsAt(0.0, w, h).rightX - ContactsAt(0.0, w, h).leftX == 32.0
    ensures ContactsAt(1.0, w, h).rightX - ContactsAt(1.0, w, h).leftX == 160.0
  {
  }

  // ---------------------------------------------------------------------------
  // Visibility and mode of the arc

  /** The arc dies out sooner when the chutes (and with them the magnetic
      blowout) are switched on. */
  function ArcEndTime(arcChutes: bool): real {
    if arcChutes then 0.8 else 0.95
  }

  predicate ArcVisible(t: real, arcChutes: bool) {
    ArcStartTime < t < ArcEndTime(arcChutes)
  }

  /** The arc leaves its free path for the chutes only when driven magnetically
      and late enough in the cycle. */
  predicate Captured(t: real, magnetic: bool) {
    magnetic && t >= CaptureTime
  }

  datatype ArcMode = NoArc | FreeArc | BlownOutArc | ChuteCaptured

  /** The form of the arc in a frame. The renderer passes its single chute
      flag on as the magnetic flag, so a blown-out arc occurs exactly when the
      chutes are on and the arc has not yet been captured. */
  function Mode(t: real, arcChutes: bool): (m: ArcMode)
    ensures m != NoArc <==> 0.08 < t < (if arcChutes then 0.8 else 0.95)
    ensures m == FreeArc <==> !arcChutes && 0.08 < t < 0.95
    ensures m == BlownOutArc <==> arcChutes && 0.08 < t < 0.4
    ensures m == ChuteCaptured <==> arcChutes && 0.4 <= t < 0.8
  {
    if !ArcVisible(t, arcChutes) then NoArc
    else if !arcChutes then FreeArc
    else if !Captured(t, arcChutes) then BlownOutArc
    else ChuteCaptured
  }

  // ---------------------------------------------------------------------------
  // Arc centreline

  /** The arc's centreline before noise at fraction p of the way from the left
      to the right contact: a straight line bowed upward by sin(pi p); under
      magnetic blowout the bow is deeper and also pulls the arc sideways. */
  function ArcCentre(trig: Trig, leftX: real, rightX: real, y: real, t: real,
                     magnetic: bool, p: real): Point
  {
    var bow := trig.sin(p * PI);
    if magnetic then
      var k := Min(t * 2.5, 2.0);
      Point(leftX + (rightX - leftX) * p + bow * 40.0 * k, y + (-80.0 - 120.0 * k) * bow * 0.8)
    else
      Point(leftX + (rightX - leftX) * p, y - (20.0 + 40.0 * t) * bow)
  }

  /** Horizontal zigzag from one random draw, weighted to vanish at both ends. */
  function Zigzag(p: real, draw: real): real {
    (draw - 0.5) * 20.0 * (1.0 - Abs(p - 0.5) * 2.0)
  }

  /** Vertical flutter of point i at wall-clock time now (milliseconds). */
  function Flutter(trig: Trig, now: real, i: nat): real {
    trig.sin(now * 0.01 + i as real) * 8.0
  }

  function ArcPoint(trig: Trig, leftX: real, rightX: real, y: real, t: real, magnetic: bool,
                    now: real, i: nat, draw: real): Point
  {
    var p := i as real / ArcSegments as real;
    var c := ArcCentre(trig, leftX, rightX, y, t, magnetic, p);
    Point(c.x + Zigzag(p, draw), c.y + Flutter(trig, now, i))
  }

  /** The arc centreline for one frame; noise[i] is the Math.random() draw of point i. */
  function ArcPath(trig: Trig, leftX: real, rightX: real, y: real, t: real, magnetic: bool,
                   now: real, noise: seq<real>): seq<Point>
    requires |noise| == ArcSegments + 1
  {
    seq(ArcSegments + 1, i requires 0 <= i <= ArcSegments =>
      ArcPoint(trig, leftX, rightX, y, t, magnetic, now, i, noise[i]))
  }

  /** generateArcPath: builds the centreline point by point. */
  method GenerateArcPath(trig: Trig, leftX: real, rightX: real, y: real, t: real, magnetic: bool,
                         now: real, noise: seq<real>) returns (points: seq<Point>)
    requires |noise| == ArcSegments + 1
    ensures |points| == ArcSegments + 1
    ensures points == ArcPath(trig, leftX, rightX, y, t, magnetic, now, noise)
  {
    points := [];
    var i := 0;
    while i <= ArcSegments
      invariant 0 <= i <= ArcSegments + 1 && |points| == i
      invariant forall j :: 0 <= j < i ==>
        points[j] == ArcPoint(trig, leftX, rightX, y, t, magnetic, now, j, noise[j])
    {
      var progress := i as real / ArcSegments as real;
      var x := leftX + (rightX - leftX) * progress;
      var baseY := y;
      ghost var centre := ArcCentre(trig, leftX, rightX, y, t, magnetic, progress);
      if magnetic {
        var blowoutIntensity := Min(t * 2.5, 2.0);
        var curveHeight := -80.0 - 120.0 * blowoutIntensity;
        baseY := y + curveHeight * trig.sin(progress * PI) * 0.8;
        x := x + trig.sin(progress * PI) * 40.0 * blowoutIntensity;
        assert x == centre.x && baseY == centre.y;
      } else {
        baseY := y - (20.0 + 40.0 * t) * trig.sin(progress * PI);
        assert x == centre.x && baseY == centre.y;
      }
      var zigzag := (noise[i] - 0.5) * 20.0 * (1.0 - Abs(progress - 0.5) * 2.0);
      var flutter := trig.sin(now * 0.01 + i as real) * 8.0;
      assert zigzag == Zigzag(progress, noise[i]);
      points := points + [Point(x + zigzag, baseY + flutter)];
      i := i + 1;
    }
  }

  /** The centreline starts exactly above the left contact and ends exactly
      above the right one: the zigzag weight and the sideways pull both vanish
      at the ends. Only the flutter (at most 8 pixels) moves the end points
      vertically. */
  lemma ArcPathEndpoints(trig: Trig, leftX: real, rightX: real, y: real, t: real, magnetic: bool,
                         now: real, noise: seq<real>)
    requires Lawful(trig) && |noise| == ArcSegments + 1
    ensures var pts := ArcPath(trig, leftX, rightX, y, t, magnetic, now, noise);
      && |pts| == 13
      && pts[0].x == leftX && pts[12].x == rightX
      && Abs(pts[0].y - y) <= 8.0 && Abs(pts[12].y - y) <= 8.0
  {
    var pts := ArcPath(trig, leftX, rightX, y, t, magnetic, now, noise);
    assert 0 as real / ArcSegments as real == 0.0;
    assert 0.0 * PI == 0.0;
    assert 12 as real / ArcSegments as real == 1.0;
    assert 1.0 * PI == PI;
    assert ArcCentre(trig, leftX, rightX, y, t, magnetic, 0.0) == Point(leftX, y);
    assert ArcCentre(trig, leftX, rightX, y, t, magnetic, 1.0) == Point(rightX, y);
    FlutterBound(trig, now, 0);
    FlutterBound(trig, now, 12);
  }

  lemma FlutterBound(trig: Trig, now: real, i: nat)
    requires Lawful(trig)
    ensures Abs(Flutter(trig, now, i)) <= 8.0
  {
    assert -1.0 <= trig.sin(now * 0.01 + i as real) <= 1.0;
  }

  lemma ZigzagBound(p: real, draw: real)
    requires 0.0 <= p <= 1.0 && 0.0 <= draw < 1.0
    ensures Abs(Zigzag(p, draw)) <= 10.0
  {
    var wgt := 1.0 - Abs(p - 0.5) * 2.0;
    var d := (draw - 0.5) * 20.0;
    assert Zigzag(p, draw) == d * wgt;
    ScaleBound(d, wgt, 10.0);
  }

  /** Scaling by a weight in [0, 1] keeps a value within its bound. */
  lemma ScaleBound(d: real, w: real, bound: real)
    requires -bound <= d <= bound && 0.0 <= w <= 1.0
    ensures -bound <= d * w <= bound
  {
    if d >= 0.0 {
      assert d * w <= d * 1.0;
    } else {
      assert (-d) * w <= (-d) * 1.0;
    }
  }

  /** Noise moves every point of the centreline at most 10 pixels sideways and
      8 pixels up or down from its noise-free position. */
  lemma ArcPathNoiseBound(trig: Trig, leftX: real, rightX: real, y: real, t: real, magnetic: bool,
                          now: real, noise: seq<real>, i: nat)
    requires Lawful(trig) && |noise| == ArcSegments + 1
    requires forall j :: 0 <= j < |noise| ==> 0.0 <= noise[j] < 1.0
    requires i <= ArcSegments
    ensures var q := ArcPath(trig, leftX, rightX, y, t, magnetic, now, noise)[i];
      var c := ArcCentre(trig, leftX, rightX, y, t, magnetic, i as real / ArcSegments as real);
      Abs(q.x - c.x) <= 10.0 && Abs(q.y - c.y) <= 8.0
  {
    ZigzagBound(i as real / ArcSegments as real, noise[i]);
    FlutterBound(trig, now, i);
  }

  /** Without deflection the arc bows higher (smaller y on the canvas) the
      later it is in the cycle, wherever the bow is positive. */
  lemma BowGrows(trig: Trig, leftX: real, rightX: real, y: real, s: real, t: real, p: real)
    requires s < t && trig.sin(p * PI) > 0.0
    ensures ArcCentre(trig, leftX, rightX, y, t, false, p).y < ArcCentre(trig, leftX, rightX, y, s, false, p).y
    ensures ArcCentre(trig, leftX, rightX, y, t, false, p).x == ArcCentre(trig, leftX, rightX, y, s, false, p).x
  {
    var bow := trig.sin(p * PI);
    assert (20.0 + 40.0 * s) * bow < (20.0 + 40.0 * t) * bow;
  }

  /** Under magnetic blowout the arc is pulled further sideways and bowed
      higher as the cycle goes on, strictly so until the pull saturates at t = 0.8. */
  lemma PullGrows(trig: Trig, leftX: real, rightX: real, y: real, s: real, t: real, p: real)
    requires 0.0 <= s < t && trig.sin(p * PI) > 0.0
    ensures var a, b := ArcCentre(trig, leftX, rightX, y, s, true, p), ArcCentre(trig, leftX, rightX, y, t, true, p);
      a.x <= b.x && b.y <= a.y
    ensures t <= 0.8 ==>
      var a, b := ArcCentre(trig, leftX, rightX, y, s, true, p), ArcCentre(trig, leftX, rightX, y, t, true, p);
      a.x < b.x && b.y < a.y
  {
    var bow := trig.sin(p * PI);
    var ks, kt := Min(s * 2.5, 2.0), Min(t * 2.5, 2.0);
    assert ks <= kt;
    assert bow * 40.0 * ks <= bow * 40.0 * kt;
    assert (-80.0 - 120.0 * kt) * bow * 0.8 <= (-80.0 - 120.0 * ks) * bow * 0.8;
    if t <= 0.8 {
      assert ks < kt;
      assert bow * 40.0 * ks < bow * 40.0 * kt;
      assert (-80.0 - 120.0 * kt) * bow * 0.8 < (-80.0 - 120.0 * ks) * bow * 0.8;
    }
  }

  // ---------------------------------------------------------------------------
  // Arc chutes

  /** Left edge of the rectangle of chute slot i (drawArcChutes). */
  function ChuteRectX(baseX: real, count: int, width: real, spacing: real, i: int): real {
    var totalWidth := count as real * width + (count - 1) as real * spacing;
    baseX - totalWidth / 2.0 + i as real * (width + spacing)
  }

  /** Centre of chute slot i (getChuteCenters). */
  function ChuteCenter(baseX: real, baseY: real, count: int, width: real, height: real,
                       spacing: real, i: int): Point
  {
    var totalWidth := count as real * width + (count - 1) as real * spacing;
    Point(baseX - totalWidth / 2.0 + width / 2.0 + i as real * (width + spacing), baseY + height / 2.0)
  }

  function ChuteCenters(baseX: real, baseY: real, count: int, width: real, height: real,
                        spacing: real): seq<Point>
  {
    seq(if count > 0 then count else 0, i requires 0 <= i =>
      ChuteCenter(baseX, baseY, count, width, height, spacing, i))
  }

  /** Each slot centre lies at the middle of the rectangle drawn for that slot. */
  lemma ChuteCenterInRect(baseX: real, baseY: real, count: int, width: real, height: real,
                          spacing: real, i: int)
    ensures ChuteCenter(baseX, baseY, count, width, height, spacing, i).x
            == ChuteRectX(baseX, count, width, spacing, i) + width / 2.0
    ensures ChuteCenter(baseX, baseY, count, width, height, spacing, i).y == baseY + height / 2.0
  {
  }

  /** Slot i and slot count-1-i mirror each other about baseX. */
  lemma ChuteCentersMirror(baseX: real, baseY: real, count: int, width: real, height: real,
                           spacing: real, i: int)
    ensures ChuteCenter(baseX, baseY, count, width, height, spacing, i).x
          + ChuteCenter(baseX, baseY, count, width, height, spacing, count - 1 - i).x == 2.0 * baseX
  {
    var n, k := count as real, i as real;
    var totalWidth := n * width + (n - 1.0) * spacing;
    assert (count - 1) as real == n - 1.0;
    assert (count - 1 - i) as real == n - 1.0 - k;
    calc {
      k * (width + spacing) + (n - 1.0 - k) * (width + spacing);
      (n - 1.0) * (width + spacing);
      totalWidth - width;
    }
  }

  /** The slot centres: one per slot, all at the slots' mid-height, spaced
      width + spacing apart and symmetric about baseX. */
  lemma ChuteCentersLayout(baseX: real, baseY: real, count: int, width: real, height: real,
                           spacing: real)
    ensures var c := ChuteCenters(baseX, baseY, count, width, height, spacing);
      && |c| == (if count > 0 then count else 0)
      && (forall i :: 0 <= i < |c| ==> c[i].y == baseY + height / 2.0)
      && (forall i :: 0 < i < |c| ==> c[i].x - c[i - 1].x == width + spacing)
      && (forall i :: 0 <= i < |c| ==> c[i].x + c[|c| - 1 - i].x == 2.0 * baseX)
  {
    var c := ChuteCenters(baseX, baseY, count, width, height, spacing);
    forall i | 0 < i < |c|
      ensures c[i].x - c[i - 1].x == width + spacing
    {
      assert (i - 1) as real == i as real - 1.0;
    }
    forall i | 0 <= i < |c|
      ensures c[i].x + c[|c| - 1 - i].x == 2.0 * baseX
    {
      ChuteCentersMirror(baseX, baseY, count, width, height, spacing, i);
    }
  }

  /** getChuteCenters: builds the slot centres one by one. */
  method GetChuteCenters(baseX: real, baseY: real, count: int, width: real, height: real,
                         spacing: real) returns (centers: seq<Point>)
    ensures centers == ChuteCenters(baseX, baseY, count, width, height, spacing)
    ensures |centers| == if count > 0 then count else 0
  {
    centers := [];
    var totalWidth := count as real * width + (count - 1) as real * spacing;
    var startX := baseX - totalWidth / 2.0 + width / 2.0;
    var i := 0;
    while i < count
      invariant 0 <= i && |centers| == i
      invariant count > 0 ==> i <= count
      invariant count <= 0 ==> i == 0
      invariant forall j :: 0 <= j < i ==>
        centers[j] == ChuteCenter(baseX, baseY, count, width, height, spacing, j)
    {
      centers := centers + [Point(startX + i as real * (width + spacing), baseY + height / 2.0)];
      i := i + 1;
    }
  }

  /** The point at fraction p of the arc from a contact into one chute slot: a
      straight line raised by an arch, a ripple whose phase depends on the slot
      index, and a sideways jitter; ripple and jitter die out toward the slot. */
  function ChutePoint(trig: Trig, startX: real, startY: real, endX: real, endY: real,
                      index: nat, p: real, draw: real): Point
  {
    var arch := -40.0 * trig.sin(p * PI);
    var ripple := trig.sin(p * PI * 2.0 + index as real) * 10.0 * (1.0 - p);
    Point(startX + (endX - startX) * p + (draw - 0.5) * 6.0 * (1.0 - p),
          startY + (endY - startY) * p + (arch + ripple))
  }

  function ChuteArc(trig: Trig, startX: real, startY: real, endX: real, endY: real,
                    index: nat, noise: seq<real>): seq<Point>
    requires |noise| == ChuteArcSegments + 1
  {
    seq(ChuteArcSegments + 1, i requires 0 <= i <= ChuteArcSegments =>
      ChutePoint(trig, startX, startY, endX, endY, index, i as real / ChuteArcSegments as real, noise[i]))
  }

  /** generateChuteArc: builds the path into one slot point by point. */
  method GenerateChuteArc(trig: Trig, startX: real, startY: real, endX: real, endY: real,
                          index: nat, noise: seq<real>) returns (points: seq<Point>)
    requires |noise| == ChuteArcSegments + 1
    ensures |points| == ChuteArcSegments + 1
    ensures points == ChuteArc(trig, startX, startY, endX, endY, index, noise)
  {
    points := [];
    var i := 0;
    while i <= ChuteArcSegments
      invariant 0 <= i <= ChuteArcSegments + 1 && |points| == i
      invariant forall j :: 0 <= j < i ==>
        points[j] == ChutePoint(trig, startX, startY, endX, endY, index, j as real / ChuteArcSegments as real, noise[j])
    {
      var p := i as real / ChuteArcSegments as real;
      var x := startX + (endX - startX) * p;
      var y := startY + (endY - startY) * p;
      y := y + (-40.0 * trig.sin(p * PI) + trig.sin(p * PI * 2.0 + index as real) * 10.0 * (1.0 - p));
      var jitter := (noise[i] - 0.5) * 6.0 * (1.0 - p);
      assert Point(x + jitter, y) == ChutePoint(trig, startX, startY, endX, endY, index, p, noise[i]);
      points := points + [Point(x + jitter, y)];
      i := i + 1;
    }
  }

  /** A chute arc ends exactly at its slot centre (arch, ripple and jitter all
      vanish there) and starts within 3 pixels sideways and 10 pixels vertically
      of its contact point. */
  lemma ChuteArcEnds(trig: Trig, startX: real, startY: real, endX: real, endY: real,
                     index: nat, noise: seq<real>)
    requires Lawful(trig) && |noise| == ChuteArcSegments + 1
    requires 0.0 <= noise[0] < 1.0
    ensures var pts := ChuteArc(trig, startX, startY, endX, endY, index, noise);
      && |pts| == 11
      && pts[10] == Point(endX, endY)
      && Abs(pts[0].x - startX) <= 3.0
      && Abs(pts[0].y - startY) <= 10.0
  {
    assert 0 as real / ChuteArcSegments as real == 0.0;
    assert 0.0 * PI == 0.0;
    assert 10 as real / ChuteArcSegments as real == 1.0;
    assert 1.0 * PI == PI;
    assert -1.0 <= trig.sin(0.0 * PI * 2.0 + index as real) <= 1.0;
  }
}

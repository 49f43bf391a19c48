/** The per-frame renderer of the arc simulator (src/utils/arcRenderer.ts).
    Every drawing routine takes the drawing context explicitly and is proved to
    append to the context's trace exactly what a specification function says;
    the lemmas at the end state what a whole frame paints and in which order. */
module ArcRenderer {
  import opened Host
  import opened Canvas2D
  import opened ArcGeometry

  /** What the host passes to the renderer for one frame. */
  datatype ArcRenderData = ArcRenderData(progress: real, arcChutes: bool,
                                         canvasWidth: real, canvasHeight: real)

  const ContactPaint: Paint := Hex("#666")
  const ChutePaint: Paint := Hex("#c5a880")
  const SparksPerBurst: nat := 10
  /** Math.random() calls per spark: angle, length, green, blue, alpha, width. */
  const DrawsPerSpark: nat := 6

  // ---------------------------------------------------------------------------
  // What each drawing routine paints

  function ContactStroke(x: real, y: real, contactLength: real): Cmd {
    StrokePath([Point(x, y - contactLength / 2.0), Point(x, y + contactLength / 2.0)], 12.0, ContactPaint)
  }

  function ContactCmds(leftX: real, rightX: real, y: real, contactLength: real): seq<Cmd> {
    [ContactStroke(leftX, y, contactLength), ContactStroke(rightX, y, contactLength)]
  }

  /** The first n chute rectangles of a group of count slots. */
  function ChuteRects(baseX: real, baseY: real, count: int, width: real, height: real,
                      spacing: real, color: Paint, n: nat): seq<Cmd>
  {
    seq(n, i requires 0 <= i < n =>
      FillRect(ChuteRectX(baseX, count, width, spacing, i), baseY, width, height, color))
  }

  /** Outer glow, body and hot core of one arc path, back to front. */
  function GlowLayers(points: seq<Point>, intensity: real): seq<Cmd> {
    [ StrokePath(points, 16.0, Rgba(46.0, 231.0, 255.0, 0.3 * intensity)),
      StrokePath(points, 8.0, Rgba(77.0, 210.0, 255.0, 0.8 * intensity)),
      StrokePath(points, 3.0, Rgba(255.0, 255.0, 255.0, intensity)) ]
  }

  /** One spark from (x, y) made from six draws in [0, 1): the direction, the
      length (5 to 20), the green and blue of its colour, its opacity and its
      width (1 to 3). */
  function SparkOf(trig: Trig, x: real, y: real,
                   angle: real, length: real, green: real, blue: real, alpha: real, width: real): Cmd {
    var (tipX, tipY) := Polar(trig, x, y, angle * PI * 2.0, length * 15.0 + 5.0);
    StrokePath([Point(x, y), Point(tipX, tipY)],
               1.0 + width * 2.0,
               Rgba(255.0, 200.0 + green * 55.0, 100.0 + blue * 100.0, 0.6 + alpha * 0.4))
  }

  /** The spark made from the draws numbered at .. at + 5. */
  function Spark(trig: Trig, stream: nat -> real, at: nat, x: real, y: real): Cmd {
    SparkOf(trig, x, y, stream(at), stream(at + 1), stream(at + 2), stream(at + 3), stream(at + 4), stream(at + 5))
  }

  /** With draws in [0, 1) and a true sine and cosine, a spark is a segment
      from (x, y) whose length is between 5 and 20 pixels, 1 to 3 pixels wide,
      in a red-to-yellow paint that is at least 60% opaque. */
  lemma SparkShape(trig: Trig, stream: nat -> real, at: nat, x: real, y: real)
    requires Circular(trig) && UnitDraws(stream)
    ensures var s := Spark(trig, stream, at, x, y);
      var len := stream(at + 1) * 15.0 + 5.0;
      && s.StrokePath? && |s.path| == 2 && s.path[0] == Point(x, y)
      && 5.0 <= len < 20.0
      && (s.path[1].x - x) * (s.path[1].x - x) + (s.path[1].y - y) * (s.path[1].y - y) == len * len
      && 1.0 <= s.width < 3.0
      && s.stroke == Rgba(255.0, s.stroke.g, s.stroke.b, s.stroke.a)
      && 200.0 <= s.stroke.g < 255.0 && 100.0 <= s.stroke.b < 200.0 && 0.6 <= s.stroke.a < 1.0
  {
    var len := stream(at + 1) * 15.0 + 5.0;
    var angle := stream(at) * PI * 2.0;
    var c, sn := trig.cos(angle), trig.sin(angle);
    assert 0.0 <= stream(at + 1) < 1.0;
    assert (c * len) * (c * len) + (sn * len) * (sn * len) == (sn * sn + c * c) * (len * len);
    assert sn * sn + c * c == 1.0;
  }

  /** The first n sparks of a burst whose draws start at number at; spark j
      uses the DrawsPerSpark (six) draws after those of the sparks before it. */
  function Sparks(trig: Trig, stream: nat -> real, at: nat, x: real, y: real, n: nat): seq<Cmd> {
    seq(n, j requires 0 <= j < n => Spark(trig, stream, at + 6 * j, x, y))
  }

  /** The last spark of the burst whose draws start at number at. */
  function LastSpark(trig: Trig, stream: nat -> real, at: nat, x: real, y: real): Cmd {
    Spark(trig, stream, at + DrawsPerSpark * (SparksPerBurst - 1), x, y)
  }

  lemma SparksSnoc(trig: Trig, stream: nat -> real, at: nat, x: real, y: real, n: nat)
    ensures Sparks(trig, stream, at, x, y, n + 1)
         == Sparks(trig, stream, at, x, y, n) + [Spark(trig, stream, at + 6 * n, x, y)]
  {
  }

  /** Brightness of a free arc; a blown-out arc fades as it stretches. */
  function FreeIntensity(t: real, magnetic: bool): (k: real)
    ensures !magnetic ==> k == 1.0
    ensures 0.0 <= t ==> 0.3 <= k <= 1.0
  {
    if magnetic then Max(0.3, 1.0 - t * 1.5) else 1.0
  }

  /** Brightness of a captured arc: full at capture, fading to 0.3. */
  function CaptureIntensity(t: real): (k: real)
    ensures CaptureTime <= t ==> 0.3 <= k <= 1.0
    ensures t == CaptureTime ==> k == 1.0
  {
    Max(0.3, 1.0 - (t - CaptureTime) * 2.0)
  }

  /** The contact that feeds slot idx of n: the left half of the slots is fed
      from the left contact, the rest from the right one. */
  function SlotStartX(idx: nat, n: nat, leftX: real, rightX: real): real {
    if (idx as real) < (n as real) / 2.0 then leftX else rightX
  }

  /** The path of the arc into slot idx; its ChuteArcSegments + 1 (eleven)
      draws follow those of the slots before it. */
  function SlotArc(trig: Trig, stream: nat -> real, at: nat, leftX: real, rightX: real, y: real,
                   centers: seq<Point>, idx: nat): seq<Point>
    requires idx < |centers|
  {
    ChuteArc(trig, SlotStartX(idx, |centers|, leftX, rightX), y, centers[idx].x, centers[idx].y,
             idx, Draws(stream, at + 11 * idx, ChuteArcSegments + 1))
  }

  lemma SlotArcIs(trig: Trig, stream: nat -> real, at: nat, leftX: real, rightX: real, y: real,
                  centers: seq<Point>, idx: nat, startX: real, noise: seq<real>)
    requires idx < |centers|
    requires startX == (if (idx as real) < (|centers| as real) / 2.0 then leftX else rightX)
    requires noise == Draws(stream, at + 11 * idx, ChuteArcSegments + 1)
    ensures SlotArc(trig, stream, at, leftX, rightX, y, centers, idx)
         == ChuteArc(trig, startX, y, centers[idx].x, centers[idx].y, idx, noise)
  {
  }

  /** The layers of the captured arc for the first k slots, three per slot in slot order. */
  function CaptureCmds(trig: Trig, stream: nat -> real, at: nat, leftX: real, rightX: real, y: real,
                       t: real, centers: seq<Point>, k: nat): (cmds: seq<Cmd>)
    requires k <= |centers|
    ensures |cmds| == 3 * k
  {
    if k == 0 then []
    else CaptureCmds(trig, stream, at, leftX, rightX, y, t, centers, k - 1)
         + GlowLayers(SlotArc(trig, stream, at, leftX, rightX, y, centers, k - 1), CaptureIntensity(t))
  }

  /** Slot j's three layers sit at positions 3j .. 3j + 2, and they follow the arc into slot j. */
  lemma {:induction false} CaptureCmdsSlots(trig: Trig, stream: nat -> real, at: nat, leftX: real, rightX: real,
                                            y: real, t: real, centers: seq<Point>, k: nat)
    requires k <= |centers|
    ensures forall j :: 0 <= j < k ==>
      CaptureCmds(trig, stream, at, leftX, rightX, y, t, centers, k)[3 * j .. 3 * j + 3]
        == GlowLayers(SlotArc(trig, stream, at, leftX, rightX, y, centers, j), CaptureIntensity(t))
  {
    if k > 0 {
      CaptureCmdsSlots(trig, stream, at, leftX, rightX, y, t, centers, k - 1);
      var before := CaptureCmds(trig, stream, at, leftX, rightX, y, t, centers, k - 1);
      var cmds := CaptureCmds(trig, stream, at, leftX, rightX, y, t, centers, k);
      assert forall j :: 0 <= j < k - 1 ==> cmds[3 * j .. 3 * j + 3] == before[3 * j .. 3 * j + 3];
    }
  }

  /** The hot core of the arc into the last chute slot: the last stroke a
      captured arc paints. */
  function LastSlotCore(trig: Trig, stream: nat -> real, at: nat, leftX: real, rightX: real, y: real,
                        t: real): Cmd
  {
    StrokePath(SlotArc(trig, stream, at, leftX, rightX, y,
                       ChuteCenters(ChuteBaseX, ChuteBaseY, ChuteCount, ChuteWidth, ChuteHeight, ChuteSpacing),
                       ChuteCount - 1),
               3.0, Rgba(255.0, 255.0, 255.0, CaptureIntensity(t)))
  }

  lemma CaptureCmdsSnoc(trig: Trig, stream: nat -> real, at: nat, leftX: real, rightX: real, y: real,
                        t: real, centers: seq<Point>, k: nat)
    requires k < |centers|
    ensures CaptureCmds(trig, stream, at, leftX, rightX, y, t, centers, k + 1)
         == CaptureCmds(trig, stream, at, leftX, rightX, y, t, centers, k)
            + GlowLayers(SlotArc(trig, stream, at, leftX, rightX, y, centers, k), CaptureIntensity(t))
  {
  }

  /** What the free or blown-out arc paints: three layers along the centreline
      made from the first thirteen draws, then a burst of sparks at the left and
      one at the right contact, each from the next sixty draws. */
  function FreeArcCmds(trig: Trig, now: real, stream: nat -> real, at: nat, leftX: real, rightX: real,
                       y: real, t: real, magnetic: bool): seq<Cmd>
  {
    GlowLayers(ArcPath(trig, leftX, rightX, y, t, magnetic, now, Draws(stream, at, ArcSegments + 1)),
               FreeIntensity(t, magnetic))
      + SparkBursts(trig, stream, at + ArcSegments + 1, leftX, rightX, y)
  }

  /** The two bursts of sparks of a free arc: the left one from the draws at
      `at`, the right one from the sixty draws after those. */
  function SparkBursts(trig: Trig, stream: nat -> real, at: nat, leftX: real, rightX: real, y: real): seq<Cmd> {
    Sparks(trig, stream, at, leftX, y, SparksPerBurst)
      + Sparks(trig, stream, at + DrawsPerSpark * SparksPerBurst, rightX, y, SparksPerBurst)
  }

  /** What drawElectricalArc paints: a free or blown-out arc with its sparks,
      or, once captured, one arc into every chute slot and no sparks. */
  function ArcCmds(trig: Trig, now: real, stream: nat -> real, at: nat, leftX: real, rightX: real,
                   y: real, t: real, magnetic: bool): seq<Cmd>
  {
    if !Captured(t, magnetic) then FreeArcCmds(trig, now, stream, at, leftX, rightX, y, t, magnetic)
    else
      CaptureCmds(trig, stream, at, leftX, rightX, y, t,
                  ChuteCenters(ChuteBaseX, ChuteBaseY, ChuteCount, ChuteWidth, ChuteHeight, ChuteSpacing),
                  ChuteCount)
  }

  /** How many Math.random() draws drawElectricalArc consumes. */
  function ArcDraws(t: real, magnetic: bool): nat {
    if !Captured(t, magnetic) then ArcSegments + 1 + 2 * DrawsPerSpark * SparksPerBurst
    else ChuteCount * (ChuteArcSegments + 1)
  }

  /** The current path drawElectricalArc leaves set, which its restore() does
      not reset: the last spark's segment, or the arc into the last slot. */
  function ArcLastPath(trig: Trig, stream: nat -> real, at: nat, leftX: real, rightX: real,
                       y: real, t: real, magnetic: bool): seq<Point>
  {
    if !Captured(t, magnetic)
    then LastSpark(trig, stream, at + ArcSegments + 1 + DrawsPerSpark * SparksPerBurst, rightX, y).path
    else LastSlotCore(trig, stream, at, leftX, rightX, y, t).path
  }

  /** The current path renderArc leaves set: the arc's, when one is drawn,
      otherwise the right contact's. */
  function FramePath(trig: Trig, stream: nat -> real, at: nat, data: ArcRenderData): seq<Point> {
    var t := data.progress;
    var c := ContactsAt(t, data.canvasWidth, data.canvasHeight);
    if ArcVisible(t, data.arcChutes) then ArcLastPath(trig, stream, at, c.leftX, c.rightX, c.y, t, data.arcChutes)
    else ContactStroke(c.rightX, c.y, ContactLength).path
  }

  /** What renderArc paints for one frame. */
  function FrameCmds(trig: Trig, now: real, stream: nat -> real, at: nat, data: ArcRenderData): seq<Cmd> {
    var t := data.progress;
    var c := ContactsAt(t, data.canvasWidth, data.canvasHeight);
    [ClearRect(0.0, 0.0, data.canvasWidth, data.canvasHeight)]
      + ContactCmds(c.leftX, c.rightX, c.y, ContactLength)
      + (if ArcVisible(t, data.arcChutes)
         then ArcCmds(trig, now, stream, at, c.leftX, c.rightX, c.y, t, data.arcChutes) else [])
      + (if data.arcChutes
         then ChuteRects(ChuteBaseX, ChuteBaseY, ChuteCount, ChuteWidth, ChuteHeight, ChuteSpacing,
                         ChutePaint, ChuteCount)
         else [])
  }

  /** The four parts of a frame, in painting order. */
  lemma FrameCmdsParts(trig: Trig, now: real, stream: nat -> real, at: nat, data: ArcRenderData)
    ensures var t, w, h := data.progress, data.canvasWidth, data.canvasHeight;
      var c := ContactsAt(t, w, h);
      FrameCmds(trig, now, stream, at, data)
        == [ClearRect(0.0, 0.0, w, h)] + ContactCmds(c.leftX, c.rightX, c.y, ContactLength)
           + (if ArcVisible(t, data.arcChutes)
              then ArcCmds(trig, now, stream, at, c.leftX, c.rightX, c.y, t, data.arcChutes) else [])
           + (if data.arcChutes
              then ChuteRects(ChuteBaseX, ChuteBaseY, ChuteCount, ChuteWidth, ChuteHeight, ChuteSpacing, ChutePaint, ChuteCount)
              else [])
  {
  }

  function FrameDraws(data: ArcRenderData): nat {
    if ArcVisible(data.progress, data.arcChutes) then ArcDraws(data.progress, data.arcChutes) else 0
  }

  // ---------------------------------------------------------------------------
  // The drawing routines

  /** drawContacts: two thick grey vertical strokes, left contact first. */
  method DrawContacts(ctx: Context, leftX: real, rightX: real, y: real, contactLength: real)
    modifies ctx
    ensures ctx.trace == old(ctx.trace) + ContactCmds(leftX, rightX, y, contactLength)
    ensures ctx.lineWidth == 12.0 && ctx.strokeStyle == ContactPaint
    ensures ctx.fillStyle == old(ctx.fillStyle) && ctx.saved == old(ctx.saved)
    ensures ctx.path == ContactStroke(rightX, y, contactLength).path
  {
    ctx.lineWidth := 12.0;
    ctx.strokeStyle := ContactPaint;

    ctx.BeginPath();
    ctx.MoveTo(Point(leftX, y - contactLength / 2.0));
    ctx.LineTo(Point(leftX, y + contactLength / 2.0));
    assert ctx.path == ContactStroke(leftX, y, contactLength).path;
    ctx.Stroke();
    assert ctx.trace == old(ctx.trace) + [ContactStroke(leftX, y, contactLength)];

    ctx.BeginPath();
    ctx.MoveTo(Point(rightX, y - contactLength / 2.0));
    ctx.LineTo(Point(rightX, y + contactLength / 2.0));
    assert ctx.path == ContactStroke(rightX, y, contactLength).path;
    ctx.Stroke();
    assert ctx.trace == old(ctx.trace) + [ContactStroke(leftX, y, contactLength)]
                                       + [ContactStroke(rightX, y, contactLength)];
  }

  /** drawArcChutes: one filled rectangle per slot, left to right; the drawing
      state is saved and restored around it. */
  method DrawArcChutes(ctx: Context, baseX: real, baseY: real, count: int := 7, width: real := 6.0,
                       height: real := 64.0, spacing: real := 14.0, color: Paint := ChutePaint)
    modifies ctx
    ensures ctx.trace == old(ctx.trace)
      + ChuteRects(baseX, baseY, count, width, height, spacing, color, if count > 0 then count else 0)
    ensures ctx.State() == old(ctx.State()) && ctx.saved == old(ctx.saved) && ctx.path == old(ctx.path)
  {
    ctx.Save();
    ctx.fillStyle := color;
    var totalWidth := count as real * width + (count - 1) as real * spacing;
    var startX := baseX - totalWidth / 2.0;
    var i := 0;
    while i < count
      invariant 0 <= i && (count > 0 ==> i <= count) && (count <= 0 ==> i == 0)
      invariant ctx.trace == old(ctx.trace) + ChuteRects(baseX, baseY, count, width, height, spacing, color, i)
      invariant ctx.saved == old(ctx.saved) + [old(ctx.State())] && ctx.fillStyle == color
      invariant ctx.lineWidth == old(ctx.lineWidth) && ctx.strokeStyle == old(ctx.strokeStyle)
      invariant ctx.path == old(ctx.path)
    {
      ctx.FillRect(startX + i as real * (width + spacing), baseY, width, height);
      assert startX + i as real * (width + spacing) == ChuteRectX(baseX, count, width, spacing, i);
      assert ChuteRects(baseX, baseY, count, width, height, spacing, color, i + 1)
          == ChuteRects(baseX, baseY, count, width, height, spacing, color, i)
             + [FillRect(ChuteRectX(baseX, count, width, spacing, i), baseY, width, height, color)];
      i := i + 1;
    }
    ctx.Restore();
  }

  /** drawArcLayer: one stroke through the points in index order. */
  method DrawArcLayer(ctx: Context, points: seq<Point>, lineWidth: real, color: Paint)
    requires |points| > 0
    modifies ctx
    ensures ctx.trace == old(ctx.trace) + [StrokePath(points, lineWidth, color)]
    ensures ctx.lineWidth == lineWidth && ctx.strokeStyle == color && ctx.path == points
    ensures ctx.fillStyle == old(ctx.fillStyle) && ctx.saved == old(ctx.saved)
  {
    ctx.strokeStyle := color;
    ctx.lineWidth := lineWidth;
    ctx.BeginPath();
    ctx.MoveTo(points[0]);
    var i := 1;
    while i < |points|
      invariant 1 <= i <= |points|
      invariant ctx.path == points[..i]
      invariant ctx.trace == old(ctx.trace)
      invariant ctx.lineWidth == lineWidth && ctx.strokeStyle == color
      invariant ctx.fillStyle == old(ctx.fillStyle) && ctx.saved == old(ctx.saved)
    {
      ctx.LineTo(points[i]);
      assert points[..i + 1] == points[..i] + [points[i]];
      i := i + 1;
    }
    assert points[..|points|] == points;
    ctx.Stroke();
  }

  /** The three drawArcLayer calls both branches of drawElectricalArc make for
      one path: outer glow, body, then hot core. */
  method DrawGlowLayers(ctx: Context, points: seq<Point>, intensity: real)
    requires |points| > 0
    modifies ctx
    ensures ctx.trace == old(ctx.trace) + GlowLayers(points, intensity)
    ensures ctx.Holds(StrokePath(points, 3.0, Rgba(255.0, 255.0, 255.0, intensity)))
    ensures ctx.fillStyle == old(ctx.fillStyle) && ctx.saved == old(ctx.saved)
  {
    DrawArcLayer(ctx, points, 16.0, Rgba(46.0, 231.0, 255.0, 0.3 * intensity));
    DrawArcLayer(ctx, points, 8.0, Rgba(77.0, 210.0, 255.0, 0.8 * intensity));
    DrawArcLayer(ctx, points, 3.0, Rgba(255.0, 255.0, 255.0, intensity));
  }

  /** One pass of drawSparks' loop: six Math.random() draws give the direction,
      length, colour and width of a stroke from (x, y); the context keeps that
      stroke's path and style. */
  method DrawSpark(ctx: Context, rng: MathRandom, trig: Trig, x: real, y: real)
    requires rng.Valid()
    modifies ctx, rng
    ensures rng.used == old(rng.used) + DrawsPerSpark
    ensures ctx.trace == old(ctx.trace) + [Spark(trig, rng.stream, old(rng.used), x, y)]
    ensures ctx.fillStyle == old(ctx.fillStyle) && ctx.saved == old(ctx.saved)
    ensures var spark := Spark(trig, rng.stream, old(rng.used), x, y);
      ctx.path == spark.path && ctx.lineWidth == spark.width && ctx.strokeStyle == spark.stroke
  {
    var angle := rng.Random();
    var length := rng.Random();
    var green := rng.Random();
    var blue := rng.Random();
    var alpha := rng.Random();
    var width := rng.Random();
    ghost var spark := Spark(trig, rng.stream, old(rng.used), x, y);
    assert spark == SparkOf(trig, x, y, angle, length, green, blue, alpha, width);
    StrokeSpark(ctx, SparkOf(trig, x, y, angle, length, green, blue, alpha, width));
  }

  /** The painting half of one spark: set its paint and width, then stroke
      its segment as a path of its own. */
  method StrokeSpark(ctx: Context, spark: Cmd)
    requires spark.StrokePath? && |spark.path| == 2
    modifies ctx
    ensures ctx.trace == old(ctx.trace) + [spark]
    ensures ctx.path == spark.path && ctx.lineWidth == spark.width && ctx.strokeStyle == spark.stroke
    ensures ctx.fillStyle == old(ctx.fillStyle) && ctx.saved == old(ctx.saved)
  {
    ctx.strokeStyle := spark.stroke;
    ctx.lineWidth := spark.width;
    ctx.BeginPath();
    ctx.MoveTo(spark.path[0]);
    ctx.LineTo(spark.path[1]);
    assert ctx.path == spark.path;
    ctx.Stroke();
  }

  /** drawSparks: ten short strokes radiating from (x, y), each made from six
      consecutive Math.random() draws. The context keeps the style of the last spark. */
  method DrawSparks(ctx: Context, rng: MathRandom, trig: Trig, x: real, y: real)
    requires rng.Valid()
    modifies ctx, rng
    ensures rng.used == old(rng.used) + DrawsPerSpark * SparksPerBurst
    ensures ctx.trace == old(ctx.trace) + Sparks(trig, rng.stream, old(rng.used), x, y, SparksPerBurst)
    ensures ctx.Holds(LastSpark(trig, rng.stream, old(rng.used), x, y))
    ensures ctx.fillStyle == old(ctx.fillStyle) && ctx.saved == old(ctx.saved)
  {
    ghost var at, before := rng.used, ctx.trace;
    var i := 0;
    while i < SparksPerBurst
      invariant 0 <= i <= SparksPerBurst
      invariant rng.used == at + 6 * i
      invariant ctx.trace == before + Sparks(trig, rng.stream, at, x, y, i)
      invariant i > 0 ==> ctx.Holds(ctx.trace[|ctx.trace| - 1])
      invariant ctx.fillStyle == old(ctx.fillStyle) && ctx.saved == old(ctx.saved)
    {
      DrawNextSpark(ctx, rng, trig, x, y, at, before, i);
      i := i + 1;
    }
  }

  /** One pass of drawSparks' loop after i sparks: the trace gains spark i. */
  method DrawNextSpark(ctx: Context, rng: MathRandom, trig: Trig, x: real, y: real,
                       ghost at: nat, ghost before: seq<Cmd>, ghost i: nat)
    requires rng.Valid() && rng.used == at + 6 * i
    requires ctx.trace == before + Sparks(trig, rng.stream, at, x, y, i)
    modifies ctx, rng
    ensures rng.used == at + 6 * (i + 1)
    ensures ctx.trace == before + Sparks(trig, rng.stream, at, x, y, i + 1)
    ensures ctx.Holds(ctx.trace[|ctx.trace| - 1])
    ensures ctx.fillStyle == old(ctx.fillStyle) && ctx.saved == old(ctx.saved)
  {
    DrawSpark(ctx, rng, trig, x, y);
    SparksSnoc(trig, rng.stream, at, x, y, i);
    AppendAssoc(before, Sparks(trig, rng.stream, at, x, y, i), [Spark(trig, rng.stream, at + 6 * i, x, y)]);
  }

  /** The free or blown-out branch of drawElectricalArc: three layers along the
      centreline, then a burst of sparks at the left and at the right contact. */
  method DrawFreeArc(ctx: Context, rng: MathRandom, trig: Trig, now: real,
                     leftX: real, rightX: real, y: real, t: real, magnetic: bool)
    requires rng.Valid()
    modifies ctx, rng
    ensures rng.used == old(rng.used) + ArcSegments + 1 + 2 * DrawsPerSpark * SparksPerBurst
    ensures ctx.trace == old(ctx.trace) + FreeArcCmds(trig, now, rng.stream, old(rng.used), leftX, rightX, y, t, magnetic)
    ensures ctx.Holds(LastSpark(trig, rng.stream, old(rng.used) + ArcSegments + 1 + DrawsPerSpark * SparksPerBurst, rightX, y))
    ensures ctx.fillStyle == old(ctx.fillStyle) && ctx.saved == old(ctx.saved)
  {
    ghost var at, before := rng.used, ctx.trace;
    var noise := rng.Take(ArcSegments + 1);
    var arcPoints := GenerateArcPath(trig, leftX, rightX, y, t, magnetic, now, noise);
    var arcIntensity := if magnetic then Max(0.3, 1.0 - t * 1.5) else 1.0;

    assert arcIntensity == FreeIntensity(t, magnetic);
    DrawGlowLayers(ctx, arcPoints, arcIntensity);
    DrawSparkBursts(ctx, rng, trig, leftX, rightX, y);
    AppendAssoc(before, GlowLayers(arcPoints, arcIntensity),
                SparkBursts(trig, rng.stream, at + ArcSegments + 1, leftX, rightX, y));
  }

  /** The two drawSparks calls of the free arc, at the left and at the right contact. */
  method DrawSparkBursts(ctx: Context, rng: MathRandom, trig: Trig, leftX: real, rightX: real, y: real)
    requires rng.Valid()
    modifies ctx, rng
    ensures rng.used == old(rng.used) + 2 * DrawsPerSpark * SparksPerBurst
    ensures ctx.trace == old(ctx.trace) + SparkBursts(trig, rng.stream, old(rng.used), leftX, rightX, y)
    ensures ctx.Holds(LastSpark(trig, rng.stream, old(rng.used) + DrawsPerSpark * SparksPerBurst, rightX, y))
    ensures ctx.fillStyle == old(ctx.fillStyle) && ctx.saved == old(ctx.saved)
  {
    ghost var before := ctx.trace;
    DrawSparks(ctx, rng, trig, leftX, y);
    DrawSparks(ctx, rng, trig, rightX, y);
    AppendAssoc(before, Sparks(trig, rng.stream, old(rng.used), leftX, y, SparksPerBurst),
                Sparks(trig, rng.stream, old(rng.used) + DrawsPerSpark * SparksPerBurst, rightX, y, SparksPerBurst));
  }

  /** One pass of the capture loop: eleven Math.random() draws shape the arc
      from the slot's contact into the slot, which is then drawn in three layers. */
  method DrawSlotArc(ctx: Context, rng: MathRandom, trig: Trig, leftX: real, rightX: real, y: real,
                     centers: seq<Point>, idx: nat, arcIntensity: real, ghost at: nat)
    requires rng.Valid() && idx < |centers| && rng.used == at + 11 * idx
    modifies ctx, rng
    ensures rng.used == old(rng.used) + ChuteArcSegments + 1
    ensures ctx.trace == old(ctx.trace)
      + GlowLayers(SlotArc(trig, rng.stream, at, leftX, rightX, y, centers, idx), arcIntensity)
    ensures ctx.Holds(StrokePath(SlotArc(trig, rng.stream, at, leftX, rightX, y, centers, idx), 3.0,
                                 Rgba(255.0, 255.0, 255.0, arcIntensity)))
    ensures ctx.fillStyle == old(ctx.fillStyle) && ctx.saved == old(ctx.saved)
  {
    var c := centers[idx];
    var startX := if (idx as real) < (|centers| as real) / 2.0 then leftX else rightX;
    var noise := rng.Take(ChuteArcSegments + 1);
    var points := GenerateChuteArc(trig, startX, y, c.x, c.y, idx, noise);
    SlotArcIs(trig, rng.stream, at, leftX, rightX, y, centers, idx, startX, noise);
    DrawGlowLayers(ctx, points, arcIntensity);
  }

  /** The capture branch of drawElectricalArc: for every chute slot in order,
      three layers along the arc from its contact into the slot; no sparks. */
  method DrawCapturedArc(ctx: Context, rng: MathRandom, trig: Trig,
                         leftX: real, rightX: real, y: real, t: real)
    requires rng.Valid()
    modifies ctx, rng
    ensures rng.used == old(rng.used) + ChuteCount * (ChuteArcSegments + 1)
    ensures ctx.trace == old(ctx.trace)
      + CaptureCmds(trig, rng.stream, old(rng.used), leftX, rightX, y, t,
                    ChuteCenters(ChuteBaseX, ChuteBaseY, ChuteCount, ChuteWidth, ChuteHeight, ChuteSpacing),
                    ChuteCount)
    ensures ctx.Holds(LastSlotCore(trig, rng.stream, old(rng.used), leftX, rightX, y, t))
    ensures ctx.fillStyle == old(ctx.fillStyle) && ctx.saved == old(ctx.saved)
  {
    ghost var at, before := rng.used, ctx.trace;
    var centers := GetChuteCenters(ChuteBaseX, ChuteBaseY, ChuteCount, ChuteWidth, ChuteHeight, ChuteSpacing);
    var arcIntensity := Max(0.3, 1.0 - (t - 0.4) * 2.0);
    assert arcIntensity == CaptureIntensity(t);
    var idx := 0;
    while idx < |centers|
      invariant 0 <= idx <= |centers|
      invariant rng.used == at + 11 * idx
      invariant ctx.trace == before + CaptureCmds(trig, rng.stream, at, leftX, rightX, y, t, centers, idx)
      invariant idx > 0 ==> ctx.Holds(ctx.trace[|ctx.trace| - 1])
      invariant ctx.fillStyle == old(ctx.fillStyle) && ctx.saved == old(ctx.saved)
    {
      DrawSlotArc(ctx, rng, trig, leftX, rightX, y, centers, idx, arcIntensity, at);
      CaptureCmdsSnoc(trig, rng.stream, at, leftX, rightX, y, t, centers, idx);
      AppendAssoc(before, CaptureCmds(trig, rng.stream, at, leftX, rightX, y, t, centers, idx),
                  GlowLayers(SlotArc(trig, rng.stream, at, leftX, rightX, y, centers, idx), arcIntensity));
      idx := idx + 1;
    }
  }

  /** drawElectricalArc: between a save and a restore of the drawing state,
      either the free arc with its sparks or, once a magnetically driven arc
      reaches the capture time, the arcs into the chute slots. */
  method DrawElectricalArc(ctx: Context, rng: MathRandom, trig: Trig, now: real,
                           leftX: real, rightX: real, y: real, t: real, magnetic: bool)
    requires rng.Valid()
    modifies ctx, rng
    ensures rng.used == old(rng.used) + ArcDraws(t, magnetic)
    ensures ctx.trace == old(ctx.trace) + ArcCmds(trig, now, rng.stream, old(rng.used), leftX, rightX, y, t, magnetic)
    ensures ctx.path == ArcLastPath(trig, rng.stream, old(rng.used), leftX, rightX, y, t, magnetic)
    ensures ctx.State() == old(ctx.State()) && ctx.saved == old(ctx.saved)
  {
    ghost var lastPath := ArcLastPath(trig, rng.stream, rng.used, leftX, rightX, y, t, magnetic);
    ctx.Save();
    if !magnetic || t < 0.4 {
      DrawFreeArc(ctx, rng, trig, now, leftX, rightX, y, t, magnetic);
      assert ctx.path == lastPath;
    } else {
      // The arc is pulled into the chutes.
      DrawCapturedArc(ctx, rng, trig, leftX, rightX, y, t);
      assert ctx.path == lastPath;
    }
    ctx.Restore();
  }

  /** renderArc: clears the canvas, draws the contacts, the arc while it is
      visible, and the chutes when they are switched on; the chute flag also
      selects magnetic blowout. */
  method RenderArc(ctx: Context, rng: MathRandom, trig: Trig, now: real, data: ArcRenderData)
    requires rng.Valid()
    modifies ctx, rng
    ensures rng.used == old(rng.used) + FrameDraws(data)
    ensures ctx.trace == old(ctx.trace) + FrameCmds(trig, now, rng.stream, old(rng.used), data)
    ensures ctx.lineWidth == 12.0 && ctx.strokeStyle == ContactPaint
    ensures ctx.path == FramePath(trig, rng.stream, old(rng.used), data)
    ensures ctx.fillStyle == old(ctx.fillStyle) && ctx.saved == old(ctx.saved)
  {
    var t, arcChutes, w, h := data.progress, data.arcChutes, data.canvasWidth, data.canvasHeight;
    ghost var at, before := rng.used, ctx.trace;
    ghost var c := ContactsAt(t, w, h);
    ghost var arc := if ArcVisible(t, arcChutes)
      then ArcCmds(trig, now, rng.stream, at, c.leftX, c.rightX, c.y, t, arcChutes) else [];
    ghost var rects := if arcChutes
      then ChuteRects(ChuteBaseX, ChuteBaseY, ChuteCount, ChuteWidth, ChuteHeight, ChuteSpacing, ChutePaint, ChuteCount)
      else [];

    ctx.ClearRect(0.0, 0.0, w, h);

    var contactGapStart := 32.0;
    var contactGapEnd := 160.0;
    var y := h / 2.0;
    var leftX := w / 2.0 - (contactGapStart + (contactGapEnd - contactGapStart) * t) / 2.0;
    var rightX := w / 2.0 + (contactGapStart + (contactGapEnd - contactGapStart) * t) / 2.0;
    var contactLength := 60.0;
    assert leftX == c.leftX && rightX == c.rightX && y == c.y;

    DrawContacts(ctx, leftX, rightX, y, contactLength);
    ghost var upToArc := ctx.trace;

    var arcEndTime := if arcChutes then 0.8 else 0.95;
    if t > 0.08 && t < arcEndTime {
      DrawElectricalArc(ctx, rng, trig, now, leftX, rightX, y, t, arcChutes);
    } else {
      assert ctx.trace == upToArc + arc;
    }
    ghost var upToChutes := ctx.trace;

    if data.arcChutes {
      DrawArcChutes(ctx, ChuteBaseX, ChuteBaseY, ChuteCount, ChuteWidth, ChuteHeight, ChuteSpacing, ChutePaint);
    } else {
      assert ctx.trace == upToChutes + rects;
    }
    FrameCmdsParts(trig, now, rng.stream, at, data);
    ghost var clear, contacts := [ClearRect(0.0, 0.0, w, h)], ContactCmds(c.leftX, c.rightX, c.y, ContactLength);
    AppendAssoc(before, clear, contacts);
    AppendAssoc(before, clear + contacts, arc);
    AppendAssoc(before, clear + contacts + arc, rects);
  }
}

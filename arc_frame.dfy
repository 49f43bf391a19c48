/** What one frame of the renderer paints, read off FrameCmds: the order of
    the parts, when the arc shows and in which form, and where each stroke of
    the arc starts and ends. RenderArc is proved to paint exactly FrameCmds,
    so these are properties of every frame it draws. */
module ArcFrame {
  import opened Host
  import opened Canvas2D
  import opened ArcGeometry
  import opened ArcRenderer

  /** How many commands the arc adds to a frame: none while it is not
      visible, one glow stack per chute slot once captured, otherwise one glow
      stack and two bursts of sparks. */
  function ArcCmdCount(t: real, arcChutes: bool): nat {
    if !ArcVisible(t, arcChutes) then 0
    else if Captured(t, arcChutes) then 3 * 8
    else 3 + 2 * SparksPerBurst
  }

  /** The arc's form in a frame decides how many commands it paints: none
      without an arc, 24 once captured, 23 for a free or blown-out arc. */
  lemma ArcCmdCountByMode(t: real, arcChutes: bool)
    ensures Mode(t, arcChutes) == NoArc ==> ArcCmdCount(t, arcChutes) == 0
    ensures Mode(t, arcChutes) == ChuteCaptured ==> ArcCmdCount(t, arcChutes) == 24
    ensures Mode(t, arcChutes) in {FreeArc, BlownOutArc} ==> ArcCmdCount(t, arcChutes) == 23
  {
  }

  lemma ArcCmdsLength(trig: Trig, now: real, stream: nat -> real, at: nat, data: ArcRenderData)
    requires ArcVisible(data.progress, data.arcChutes)
    ensures var t := data.progress;
      var c := ContactsAt(t, data.canvasWidth, data.canvasHeight);
      |ArcCmds(trig, now, stream, at, c.leftX, c.rightX, c.y, t, data.arcChutes)| == ArcCmdCount(t, data.arcChutes)
  {
    ChuteCentersLayout(ChuteBaseX, ChuteBaseY, ChuteCount, ChuteWidth, ChuteHeight, ChuteSpacing);
  }

  /** Every frame is the clear, the left then the right contact, the arc's
      commands, and, with the chutes on, the eight chute rectangles last. */
  lemma FrameLayout(trig: Trig, now: real, stream: nat -> real, at: nat, data: ArcRenderData)
    ensures var F := FrameCmds(trig, now, stream, at, data);
      var c := ContactsAt(data.progress, data.canvasWidth, data.canvasHeight);
      var rects := if data.arcChutes then 8 else 0;
      && |F| == 3 + ArcCmdCount(data.progress, data.arcChutes) + rects
      && F[0] == ClearRect(0.0, 0.0, data.canvasWidth, data.canvasHeight)
      && F[1] == ContactStroke(c.leftX, c.y, ContactLength)
      && F[2] == ContactStroke(c.rightX, c.y, ContactLength)
      && F[|F| - rects..]
         == (if data.arcChutes
             then ChuteRects(ChuteBaseX, ChuteBaseY, ChuteCount, ChuteWidth, ChuteHeight, ChuteSpacing, ChutePaint, 8)
             else [])
  {
    FrameCmdsParts(trig, now, stream, at, data);
    if ArcVisible(data.progress, data.arcChutes) {
      ArcCmdsLength(trig, now, stream, at, data);
    }
  }

  /** The arc's outer glow, the only kind of 16-pixel stroke a frame holds, is
      painted exactly when the progress lies strictly between 0.08 and the
      arc's end time (0.8 with the chutes on, 0.95 without). */
  lemma GlowIffVisible(trig: Trig, now: real, stream: nat -> real, at: nat, data: ArcRenderData)
    ensures var F := FrameCmds(trig, now, stream, at, data);
      (exists i :: 0 <= i < |F| && F[i].StrokePath? && F[i].width == 16.0)
        <==> 0.08 < data.progress < (if data.arcChutes then 0.8 else 0.95)
  {
    var F := FrameCmds(trig, now, stream, at, data);
    var t := data.progress;
    FrameLayout(trig, now, stream, at, data);
    FrameCmdsParts(trig, now, stream, at, data);
    var c := ContactsAt(t, data.canvasWidth, data.canvasHeight);
    if ArcVisible(t, data.arcChutes) {
      var arc := ArcCmds(trig, now, stream, at, c.leftX, c.rightX, c.y, t, data.arcChutes);
      ArcCmdsLength(trig, now, stream, at, data);
      if Captured(t, data.arcChutes) {
        var centers := ChuteCenters(ChuteBaseX, ChuteBaseY, ChuteCount, ChuteWidth, ChuteHeight, ChuteSpacing);
        ChuteCentersLayout(ChuteBaseX, ChuteBaseY, ChuteCount, ChuteWidth, ChuteHeight, ChuteSpacing);
        CaptureCmdsSlots(trig, stream, at, c.leftX, c.rightX, c.y, t, centers, 8);
        assert arc[0..3] == GlowLayers(SlotArc(trig, stream, at, c.leftX, c.rightX, c.y, centers, 0), CaptureIntensity(t));
      }
      assert F[3] == arc[0];
      assert F[3].StrokePath? && F[3].width == 16.0;
    } else {
      forall i | 0 <= i < |F|
        ensures !(F[i].StrokePath? && F[i].width == 16.0)
      {
        if 3 <= i {
          assert F[i].FillRect?;
        }
      }
    }
  }

  /** A free or blown-out arc paints 23 commands, the glow layers of its centreline first. */
  lemma FreeArcGlow(trig: Trig, now: real, stream: nat -> real, at: nat, leftX: real, rightX: real,
                    y: real, t: real, magnetic: bool)
    ensures var cmds := FreeArcCmds(trig, now, stream, at, leftX, rightX, y, t, magnetic);
      var path := ArcPath(trig, leftX, rightX, y, t, magnetic, now, Draws(stream, at, ArcSegments + 1));
      |cmds| == 23 && cmds[..3] == GlowLayers(path, FreeIntensity(t, magnetic))
  {
  }

  /** After its glow layers, a free or blown-out arc paints the ten sparks of
      the left contact, then the ten of the right one, each from the next six draws. */
  lemma FreeArcSparks(trig: Trig, now: real, stream: nat -> real, at: nat, leftX: real, rightX: real,
                      y: real, t: real, magnetic: bool, j: nat)
    requires j < 10
    ensures var cmds := FreeArcCmds(trig, now, stream, at, leftX, rightX, y, t, magnetic);
      && |cmds| == 23
      && cmds[3 + j] == Spark(trig, stream, at + 13 + 6 * j, leftX, y)
      && cmds[13 + j] == Spark(trig, stream, at + 73 + 6 * j, rightX, y)
  {
    var glow := GlowLayers(ArcPath(trig, leftX, rightX, y, t, magnetic, now, Draws(stream, at, ArcSegments + 1)),
                           FreeIntensity(t, magnetic));
    var left := Sparks(trig, stream, at + 13, leftX, y, 10);
    var right := Sparks(trig, stream, at + 73, rightX, y, 10);
    var cmds := glow + (left + right);
    assert FreeArcCmds(trig, now, stream, at, leftX, rightX, y, t, magnetic) == cmds;
    assert cmds[3 + j] == left[j];
    assert cmds[13 + j] == right[j];
  }

  /** The arc's commands follow the clear and the two contacts. */
  lemma FrameArcAt(trig: Trig, now: real, stream: nat -> real, at: nat, data: ArcRenderData, k: nat)
    requires ArcVisible(data.progress, data.arcChutes) && k < ArcCmdCount(data.progress, data.arcChutes)
    ensures var t := data.progress;
      var F := FrameCmds(trig, now, stream, at, data);
      var c := ContactsAt(t, data.canvasWidth, data.canvasHeight);
      var arc := ArcCmds(trig, now, stream, at, c.leftX, c.rightX, c.y, t, data.arcChutes);
      |F| > 3 + k && k < |arc| && F[3 + k] == arc[k]
  {
    var t := data.progress;
    var c := ContactsAt(t, data.canvasWidth, data.canvasHeight);
    var pre := [ClearRect(0.0, 0.0, data.canvasWidth, data.canvasHeight)] + ContactCmds(c.leftX, c.rightX, c.y, ContactLength);
    var arc := ArcCmds(trig, now, stream, at, c.leftX, c.rightX, c.y, t, data.arcChutes);
    var rects := if data.arcChutes
      then ChuteRects(ChuteBaseX, ChuteBaseY, ChuteCount, ChuteWidth, ChuteHeight, ChuteSpacing, ChutePaint, ChuteCount)
      else [];
    FrameCmdsParts(trig, now, stream, at, data);
    ArcCmdsLength(trig, now, stream, at, data);
    assert FrameCmds(trig, now, stream, at, data) == pre + arc + rects;
    assert (pre + arc + rects)[3 + k] == arc[k];
  }

  /** A run of the arc's commands, as it sits in the frame. */
  lemma FrameArcSlice(trig: Trig, now: real, stream: nat -> real, at: nat, data: ArcRenderData, lo: nat, hi: nat)
    requires ArcVisible(data.progress, data.arcChutes) && lo <= hi <= ArcCmdCount(data.progress, data.arcChutes)
    ensures var t := data.progress;
      var F := FrameCmds(trig, now, stream, at, data);
      var c := ContactsAt(t, data.canvasWidth, data.canvasHeight);
      var arc := ArcCmds(trig, now, stream, at, c.leftX, c.rightX, c.y, t, data.arcChutes);
      |F| >= 3 + hi && hi <= |arc| && F[3 + lo .. 3 + hi] == arc[lo..hi]
  {
    var t := data.progress;
    var c := ContactsAt(t, data.canvasWidth, data.canvasHeight);
    var pre := [ClearRect(0.0, 0.0, data.canvasWidth, data.canvasHeight)] + ContactCmds(c.leftX, c.rightX, c.y, ContactLength);
    var arc := ArcCmds(trig, now, stream, at, c.leftX, c.rightX, c.y, t, data.arcChutes);
    var rects := if data.arcChutes
      then ChuteRects(ChuteBaseX, ChuteBaseY, ChuteCount, ChuteWidth, ChuteHeight, ChuteSpacing, ChutePaint, ChuteCount)
      else [];
    FrameCmdsParts(trig, now, stream, at, data);
    ArcCmdsLength(trig, now, stream, at, data);
    assert FrameCmds(trig, now, stream, at, data) == pre + arc + rects;
    assert (pre + arc + rects)[3 + lo .. 3 + hi] == arc[lo..hi];
  }

  /** A free or blown-out arc: its three glow layers follow a centreline that
      starts above the left contact and ends above the right one. */
  lemma FreeArcFrame(trig: Trig, now: real, stream: nat -> real, at: nat, data: ArcRenderData)
    requires Lawful(trig)
    requires ArcVisible(data.progress, data.arcChutes) && !Captured(data.progress, data.arcChutes)
    ensures var F := FrameCmds(trig, now, stream, at, data);
      var c := ContactsAt(data.progress, data.canvasWidth, data.canvasHeight);
      var path := ArcPath(trig, c.leftX, c.rightX, c.y, data.progress, data.arcChutes, now,
                          Draws(stream, at, ArcSegments + 1));
      && |F| > 25
      && F[3..6] == GlowLayers(path, FreeIntensity(data.progress, data.arcChutes))
      && path[0].x == c.leftX && path[12].x == c.rightX
  {
    var F := FrameCmds(trig, now, stream, at, data);
    var t := data.progress;
    var c := ContactsAt(t, data.canvasWidth, data.canvasHeight);
    ArcPathEndpoints(trig, c.leftX, c.rightX, c.y, t, data.arcChutes, now, Draws(stream, at, ArcSegments + 1));
    FreeArcGlow(trig, now, stream, at, c.leftX, c.rightX, c.y, t, data.arcChutes);
    var arc := FreeArcCmds(trig, now, stream, at, c.leftX, c.rightX, c.y, t, data.arcChutes);
    assert ArcCmds(trig, now, stream, at, c.leftX, c.rightX, c.y, t, data.arcChutes) == arc;
    FrameArcSlice(trig, now, stream, at, data, 0, 23);
    assert arc[0..3] == arc[..3];
    FrameArcSlice(trig, now, stream, at, data, 0, 3);
  }

  /** Then, in a free or blown-out arc's frame, spark j of the ten leaves the
      left contact, and spark j of the next ten the right one. */
  lemma FreeArcFrameSparks(trig: Trig, now: real, stream: nat -> real, at: nat, data: ArcRenderData, j: nat)
    requires ArcVisible(data.progress, data.arcChutes) && !Captured(data.progress, data.arcChutes)
    requires j < 10
    ensures var F := FrameCmds(trig, now, stream, at, data);
      var c := ContactsAt(data.progress, data.canvasWidth, data.canvasHeight);
      && |F| > 25
      && F[6 + j] == Spark(trig, stream, at + 13 + 6 * j, c.leftX, c.y)
      && F[16 + j] == Spark(trig, stream, at + 73 + 6 * j, c.rightX, c.y)
  {
    var t := data.progress;
    var c := ContactsAt(t, data.canvasWidth, data.canvasHeight);
    var arc := FreeArcCmds(trig, now, stream, at, c.leftX, c.rightX, c.y, t, data.arcChutes);
    assert ArcCmds(trig, now, stream, at, c.leftX, c.rightX, c.y, t, data.arcChutes) == arc;
    FreeArcSparks(trig, now, stream, at, c.leftX, c.rightX, c.y, t, data.arcChutes, j);
    FrameArcAt(trig, now, stream, at, data, 3 + j);
    FrameArcAt(trig, now, stream, at, data, 13 + j);
  }

  /** A captured arc: for every slot j of the eight, in slot order, three
      glow layers along an arc that ends exactly at the slot's centre and
      starts, within 3 pixels sideways and 10 vertically, at the contact
      feeding that slot: the left contact for slots 0 to 3, the right one for
      slots 4 to 7. No sparks are drawn. */
  lemma CapturedArcFrame(trig: Trig, now: real, stream: nat -> real, at: nat, data: ArcRenderData, j: nat)
    requires Lawful(trig) && UnitDraws(stream)
    requires ArcVisible(data.progress, data.arcChutes) && Captured(data.progress, data.arcChutes)
    requires j < 8
    ensures var F := FrameCmds(trig, now, stream, at, data);
      var c := ContactsAt(data.progress, data.canvasWidth, data.canvasHeight);
      var centers := ChuteCenters(ChuteBaseX, ChuteBaseY, ChuteCount, ChuteWidth, ChuteHeight, ChuteSpacing);
      var path := SlotArc(trig, stream, at, c.leftX, c.rightX, c.y, centers, j);
      var fromX := if j < 4 then c.leftX else c.rightX;
      && |F| == 35 && |centers| == 8
      && F[0] == ClearRect(0.0, 0.0, data.canvasWidth, data.canvasHeight)
      && F[1] == ContactStroke(c.leftX, c.y, ContactLength)
      && F[2] == ContactStroke(c.rightX, c.y, ContactLength)
      && F[27..] == ChuteRects(ChuteBaseX, ChuteBaseY, ChuteCount, ChuteWidth, ChuteHeight, ChuteSpacing, ChutePaint, 8)
      && F[3 + 3 * j .. 6 + 3 * j] == GlowLayers(path, CaptureIntensity(data.progress))
      && |path| == 11
      && path[10] == centers[j]
      && Abs(path[0].x - fromX) <= 3.0 && Abs(path[0].y - c.y) <= 10.0
  {
    var F := FrameCmds(trig, now, stream, at, data);
    var t := data.progress;
    var c := ContactsAt(t, data.canvasWidth, data.canvasHeight);
    var centers := ChuteCenters(ChuteBaseX, ChuteBaseY, ChuteCount, ChuteWidth, ChuteHeight, ChuteSpacing);
    FrameLayout(trig, now, stream, at, data);
    ChuteCentersLayout(ChuteBaseX, ChuteBaseY, ChuteCount, ChuteWidth, ChuteHeight, ChuteSpacing);
    CaptureCmdsSlots(trig, stream, at, c.leftX, c.rightX, c.y, t, centers, 8);
    FrameArcSlice(trig, now, stream, at, data, 3 * j, 3 * j + 3);
    var noise := Draws(stream, at + 11 * j, ChuteArcSegments + 1);
    ChuteArcEnds(trig, SlotStartX(j, 8, c.leftX, c.rightX), c.y, centers[j].x, centers[j].y, j, noise);
  }
}

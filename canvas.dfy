/** The part of the browser's 2D drawing context the renderer uses. The
    context keeps its drawing state (line width, stroke and fill paint, the
    current path, the save/restore stack) in fields, and every call that puts
    pixels on the surface appends one command to `trace`, so the order and
    content of what a frame paints can be stated and checked. */
module Canvas2D {

  datatype Point = Point(x: real, y: real)

  /** A paint as the renderer writes it: a hex colour string or an rgba(...) value. */
  datatype Paint = Hex(code: string) | Rgba(r: real, g: real, b: real, a: real)

  /** One painting call, with the drawing state it was made under. */
  datatype Cmd =
    | ClearRect(x: real, y: real, w: real, h: real)
    | FillRect(x: real, y: real, w: real, h: real, fill: Paint)
    | StrokePath(path: seq<Point>, width: real, stroke: Paint)

  /** The part of the drawing state that save() and restore() keep. */
  datatype DrawState = DrawState(lineWidth: real, strokeStyle: Paint, fillStyle: Paint)

  const Black: Paint := Hex("#000000")

  /** Regrouping appends to a trace, stated once so that proofs need not
      compare traces element by element. */
  lemma AppendAssoc<T>(a: seq<T>, b: seq<T>, c: seq<T>)
    ensures a + b + c == a + (b + c)
  {
  }

  class Context {
    var lineWidth: real
    var strokeStyle: Paint
    var fillStyle: Paint
    /** The current subpath; the renderer opens exactly one per beginPath(). */
    var path: seq<Point>
    /** The save() stack, oldest entry first. */
    var saved: seq<DrawState>
    /** Everything painted so far, oldest first. */
    var trace: seq<Cmd>

    /** A fresh context, with the browser's initial drawing state. */
    constructor ()
      ensures lineWidth == 1.0 && strokeStyle == Black && fillStyle == Black
      ensures path == [] && saved == [] && trace == []
    {
      lineWidth, strokeStyle, fillStyle := 1.0, Black, Black;
      path, saved, trace := [], [], [];
    }

    function State(): DrawState
      reads this
    {
      DrawState(lineWidth, strokeStyle, fillStyle)
    }

    /** The context still holds what stroking c set: its path, line width and
        stroke paint. */
    predicate Holds(c: Cmd)
      reads this
    {
      c.StrokePath? && path == c.path && lineWidth == c.width && strokeStyle == c.stroke
    }

    method Save()
      modifies this`saved
      ensures saved == old(saved) + [State()]
    {
      saved := saved + [State()];
    }

    /** Pops the last saved state; with nothing saved it does nothing. */
    method Restore()
      modifies this`saved, this`lineWidth, this`strokeStyle, this`fillStyle
      ensures old(saved) == [] ==> saved == [] && State() == old(State())
      ensures old(saved) != [] ==> saved == old(saved)[..|old(saved)| - 1]
                                   && State() == old(saved)[|old(saved)| - 1]
    {
      if saved != [] {
        var top := saved[|saved| - 1];
        lineWidth, strokeStyle, fillStyle := top.lineWidth, top.strokeStyle, top.fillStyle;
        saved := saved[..|saved| - 1];
      }
    }

    method ClearRect(x: real, y: real, w: real, h: real)
      modifies this`trace
      ensures trace == old(trace) + [Cmd.ClearRect(x, y, w, h)]
    {
      trace := trace + [Cmd.ClearRect(x, y, w, h)];
    }

    method FillRect(x: real, y: real, w: real, h: real)
      modifies this`trace
      ensures trace == old(trace) + [Cmd.FillRect(x, y, w, h, fillStyle)]
    {
      trace := trace + [Cmd.FillRect(x, y, w, h, fillStyle)];
    }

    method BeginPath()
      modifies this`path
      ensures path == []
    {
      path := [];
    }

    method MoveTo(p: Point)
      modifies this`path
      ensures path == [p]
    {
      path := [p];
    }

    method LineTo(p: Point)
      modifies this`path
      ensures path == old(path) + [p]
    {
      path := path + [p];
    }

    method Stroke()
      modifies this`trace
      ensures trace == old(trace) + [StrokePath(path, lineWidth, strokeStyle)]
    {
      trace := trace + [StrokePath(path, lineWidth, strokeStyle)];
    }
  }
}

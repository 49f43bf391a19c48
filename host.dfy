/** What the arc renderer reads from its JavaScript host: Math.PI, Math.sin,
    Math.cos and the stream of Math.random() draws. Sine and cosine are left
    uninterpreted; the renderer's properties need only the facts in Lawful. */
module Host {

  /** Math.PI, written as the decimal JavaScript prints for it. */
  const PI: real := 3.141592653589793

  /** Math.sin and Math.cos, supplied by the caller. */
  datatype Trig = Trig(sin: real -> real, cos: real -> real)

  /** The facts about sine and cosine that the geometry relies on:
      sin vanishes at 0 and at PI, and both functions stay within [-1, 1]. */
  ghost predicate Lawful(m: Trig) {
    && m.sin(0.0) == 0.0
    && m.sin(PI) == 0.0
    && (forall x :: -1.0 <= m.sin(x) <= 1.0)
    && (forall x :: -1.0 <= m.cos(x) <= 1.0)
  }

  /** sin^2 + cos^2 == 1, used only for the length of a spark. */
  ghost predicate Circular(m: Trig) {
    forall x :: m.sin(x) * m.sin(x) + m.cos(x) * m.cos(x) == 1.0
  }

  /** The point reached from (x, y) by going `length` in direction `angle`:
      (x + cos(angle) * length, y + sin(angle) * length). */
  function Polar(m: Trig, x: real, y: real, angle: real, length: real): (real, real) {
    (x + m.cos(angle) * length, y + m.sin(angle) * length)
  }

  /** Every draw of Math.random() lies in [0, 1). */
  ghost predicate UnitDraws(stream: nat -> real) {
    forall k :: 0.0 <= stream(k) < 1.0
  }

  /** The n draws of the stream starting at draw number `from`. */
  function Draws(stream: nat -> real, from: nat, n: nat): (d: seq<real>)
    ensures |d| == n
    ensures forall i :: 0 <= i < n ==> d[i] == stream(from + i)
  {
    seq(n, i requires 0 <= i < n => stream(from + i))
  }

  /** Math.random(): an endless stream of draws, of which `used` have been
      consumed so far. */
  class MathRandom {
    const stream: nat -> real
    var used: nat

    ghost predicate Valid() {
      UnitDraws(stream)
    }

    constructor (stream: nat -> real)
      requires UnitDraws(stream)
      ensures Valid() && this.stream == stream && used == 0
    {
      this.stream := stream;
      used := 0;
    }

    /** One call of Math.random(). */
    method Random() returns (r: real)
      requires Valid()
      modifies this`used
      ensures r == stream(old(used)) && used == old(used) + 1
      ensures 0.0 <= r < 1.0
    {
      r := stream(used);
      used := used + 1;
    }

    /** n consecutive calls of Math.random(), in order. */
    method Take(n: nat) returns (d: seq<real>)
      requires Valid()
      modifies this`used
      ensures used == old(used) + n
      ensures d == Draws(stream, old(used), n)
    {
      d := [];
      while |d| < n
        invariant |d| <= n && used == old(used) + |d|
        invariant d == Draws(stream, old(used), |d|)
      {
        var r := Random();
        d := d + [r];
      }
    }
  }
}

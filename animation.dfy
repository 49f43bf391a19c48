/** The progress clock of the arc simulator (src/hooks/useAnimation.ts): a
    progress value that every animation frame advances by `speed` and wraps
    back to 0 on reaching 1, and a running flag that reset clears and toggle
    flips. Browser scheduling (one frame per requestAnimationFrame callback)
    is left to the caller, who calls Frame once per callback. */
module Animation {

  /** The speed the hook uses when none is given. */
  const DefaultSpeed: real := 0.008

  /** The updater the hook hands to setProgress on every frame. Its final
      clamp to 1 can never apply, since every value from 1 up has already
      been wrapped to 0; it is kept to follow the code. */
  function Tick(prev: real, speed: real): (next: real)
    ensures 0.0 <= prev && 0.0 <= speed ==> 0.0 <= next < 1.0
    ensures prev + speed < 1.0 ==> next == prev + speed
    ensures prev + speed >= 1.0 ==> next == 0.0
  {
    var next := prev + speed;
    if next >= 1.0 then 0.0
    else if next > 1.0 then 1.0
    else next
  }

  /** Before it wraps, every tick with a positive speed strictly increases progress. */
  lemma TickIncreases(prev: real, speed: real)
    requires 0.0 < speed && prev + speed < 1.0
    ensures prev < Tick(prev, speed)
  {
  }

  /** Progress after n frames of a running clock that starts at `start`. */
  function Ticks(start: real, speed: real, n: nat): real {
    if n == 0 then start else Tick(Ticks(start, speed, n - 1), speed)
  }

  /** From anywhere in [0, 1), progress stays in [0, 1) however many frames pass. */
  lemma {:induction false} TicksInRange(start: real, speed: real, n: nat)
    requires 0.0 <= start < 1.0 && 0.0 <= speed
    ensures 0.0 <= Ticks(start, speed, n) < 1.0
  {
    if n > 0 {
      TicksInRange(start, speed, n - 1);
    }
  }

  /** Starting from 0, as long as n * speed stays below 1 the clock has
      counted exactly n steps of `speed`, each one strictly larger than the last. */
  lemma {:induction false} TicksFromZero(speed: real, n: nat)
    requires 0.0 < speed && n as real * speed < 1.0
    ensures Ticks(0.0, speed, n) == n as real * speed
    ensures n > 0 ==> Ticks(0.0, speed, n - 1) < Ticks(0.0, speed, n)
  {
    if n > 0 {
      var k := (n - 1) as real;
      var before, after := k * speed, n as real * speed;
      assert n as real == k + 1.0;
      StepMore(k, speed);
      assert after == before + speed;
      assert before < 1.0;
      var m: nat := n - 1;
      assert m as real * speed == before;
      TicksFromZero(speed, m);
      assert Ticks(0.0, speed, n - 1) == before;
      assert before + speed < 1.0;
      assert Ticks(0.0, speed, n) == Tick(before, speed);
    }
  }

  /** One more step of `speed` adds exactly `speed`. */
  lemma StepMore(k: real, speed: real)
    ensures (k + 1.0) * speed == k * speed + speed
  {
  }

  /** At the default speed one cycle of the animation lasts 125 frames: the
      progress climbs 0.008 per frame, stays below 1 for 124 frames and is
      back at 0 on the 125th. */
  lemma DefaultCycle()
    ensures Ticks(0.0, DefaultSpeed, 124) == 0.992
    ensures Ticks(0.0, DefaultSpeed, 125) == 0.0
    ensures forall n :: 0 < n < 125 ==> Ticks(0.0, DefaultSpeed, n) > 0.0
    ensures Tick(0.995, DefaultSpeed) == 0.0
  {
    TicksFromZero(DefaultSpeed, 124);
    forall n | 0 < n < 125
      ensures Ticks(0.0, DefaultSpeed, n) > 0.0
    {
      TicksFromZero(DefaultSpeed, n);
    }
  }

  /** The hook's state: `progress` and `running`, with the speed it was created with. */
  class AnimationClock {
    const speed: real
    var running: bool
    var progress: real

    /** Progress lies in [0, 1), which it keeps for a speed that is not negative. */
    ghost predicate Valid()
      reads this
    {
      0.0 <= speed && 0.0 <= progress < 1.0
    }

    /** The hook's initial state: running, at progress 0. */
    constructor (speed: real := DefaultSpeed)
      ensures this.speed == speed && running && progress == 0.0
      ensures 0.0 <= speed ==> Valid()
    {
      this.speed := speed;
      running := true;
      progress := 0.0;
    }

    /** One animation frame: a running clock ticks, a paused one does not. */
    method Frame()
      modifies this
      ensures running == old(running)
      ensures progress == if old(running) then Tick(old(progress), speed) else old(progress)
      ensures old(Valid()) ==> Valid()
    {
      if !running {
        return;
      }
      var next := progress + speed;
      if next >= 1.0 {
        progress := 0.0;
      } else {
        progress := if next > 1.0 then 1.0 else next;
      }
    }

    /** reset: back to progress 0, and paused. */
    method Reset()
      modifies this
      ensures progress == 0.0 && !running
      ensures 0.0 <= speed ==> Valid()
    {
      progress := 0.0;
      running := false;
    }

    /** toggle: flips running and leaves progress as it is. */
    method Toggle()
      modifies this
      ensures running == !old(running) && progress == old(progress)
      ensures old(Valid()) ==> Valid()
    {
      running := !running;
    }
  }
}

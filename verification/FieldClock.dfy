/** The capped fixed-step accumulators of worker/fieldWorker.cpp: how many ticks run, however time is
    cut into frames. Time is real; the step is any positive number. */
module FieldClock {
  import opened Measures

  /** One accumulator: what is left in it, and the ticks it has run. */
  datatype Clock = Clock(acc: real, ticks: nat)

  /** The ticks that the catch-up loop runs, at most cap of them. */
  function Ticks(acc: real, step: real, cap: nat): (n: nat)
    ensures n <= cap
    decreases cap
  {
    if cap == 0 || acc < step then 0 else 1 + Ticks(acc - step, step, cap - 1)
  }

  /** One call of update_world; a frame of no length is ignored. */
  function Framed(c: Clock, step: real, cap: nat, dt: real): Clock {
    if dt <= 0.0 then c
    else
      var n := Ticks(c.acc + dt, step, cap);
      Clock(c.acc + dt - Span(step, n), c.ticks + n)
  }

  function Frames(c: Clock, step: real, cap: nat, dts: seq<real>): Clock {
    if dts == [] then c else Framed(Frames(c, step, cap, dts[..|dts| - 1]), step, cap, dts[|dts| - 1])
  }

  /** The time that the frames take. */
  function Elapsed(dts: seq<real>): (r: real)
    ensures r >= 0.0
  {
    if dts == [] then 0.0
    else Elapsed(dts[..|dts| - 1]) + (if dts[|dts| - 1] <= 0.0 then 0.0 else dts[|dts| - 1])
  }

  /** How many frames are not ignored. */
  function Counted(dts: seq<real>): nat {
    if dts == [] then 0 else Counted(dts[..|dts| - 1]) + (if dts[|dts| - 1] <= 0.0 then 0 else 1)
  }

  /** The ticks that an uncapped clock would have run by time t. */
  function Due(t: real, step: real): nat
    requires step > 0.0 && t >= 0.0
  {
    (t / step).Floor
  }

  lemma Cancel(step: real, a: real, b: real)
    requires step > 0.0
    ensures step * a <= step * b <==> a <= b
  {
    assert step * b - step * a == step * (b - a);
  }

  lemma FloorIs(q: real, n: int)
    ensures q.Floor == n <==> n as real <= q < (n + 1) as real
  {
    assert q.Floor as real <= q < (q.Floor + 1) as real;
    if n < q.Floor {
      assert (n + 1) as real <= q.Floor as real;
    } else if n > q.Floor {
      assert n as real >= (q.Floor + 1) as real;
    }
  }

  lemma DueBy(t: real, step: real, n: nat)
    requires step > 0.0 && t >= 0.0
    ensures Span(step, n) <= t <==> n as real <= t / step
  {
    SpanIs(step, n);
    Cancel(step, n as real, t / step);
  }

  /** The number due is the only one whose span t falls in. */
  lemma DueWithin(t: real, step: real, n: nat)
    requires step > 0.0 && t >= 0.0
    ensures Due(t, step) == n <==> Span(step, n) <= t < Span(step, n + 1)
  {
    DueBy(t, step, n);
    DueBy(t, step, n + 1);
    FloorIs(t / step, n);
  }

  // ---------------------------------------------------------------- one frame

  /** The loop leaves less than a step unless it hit its cap, and never goes below zero. */
  lemma {:induction false} TicksLeave(acc: real, step: real, cap: nat)
    requires step > 0.0 && acc >= 0.0
    ensures var left := acc - Span(step, Ticks(acc, step, cap));
      left >= 0.0 && (left < step || Ticks(acc, step, cap) == cap)
    decreases cap
  {
    if cap != 0 && acc >= step { TicksLeave(acc - step, step, cap - 1); }
  }

  /** Ticks are not invented and not lost: the clock accounts for all the time. */
  ghost predicate Kept(c: Clock, step: real, c': Clock, elapsed: real) {
    c'.acc >= 0.0 && c'.ticks >= c.ticks && Span(step, c'.ticks - c.ticks) + c'.acc == c.acc + elapsed
  }

  lemma FrameKeeps(c: Clock, step: real, cap: nat, dt: real)
    requires step > 0.0 && c.acc >= 0.0
    ensures Kept(c, step, Framed(c, step, cap, dt), if dt <= 0.0 then 0.0 else dt)
  {
    if dt > 0.0 { TicksLeave(c.acc + dt, step, cap); }
  }

  lemma KeptOn(c: Clock, step: real, b: Clock, before: real, c': Clock, more: real)
    requires Kept(c, step, b, before) && Kept(b, step, c', more)
    ensures Kept(c, step, c', before + more)
  {
    SpanSum(step, b.ticks - c.ticks, c'.ticks - b.ticks);
  }

  lemma {:induction false} TimeIsKept(c: Clock, step: real, cap: nat, dts: seq<real>)
    requires step > 0.0 && c.acc >= 0.0
    ensures Kept(c, step, Frames(c, step, cap, dts), Elapsed(dts))
  {
    if dts != [] {
      TimeIsKept(c, step, cap, dts[..|dts| - 1]);
      var b, dt := Frames(c, step, cap, dts[..|dts| - 1]), dts[|dts| - 1];
      FrameKeeps(b, step, cap, dt);
      KeptOn(c, step, b, Elapsed(dts[..|dts| - 1]), Framed(b, step, cap, dt), if dt <= 0.0 then 0.0 else dt);
    }
  }

  // ---------------------------------------------------------------- closed form

  /** The k-th bound on the ticks: what was due after the first j frames, and cap for each later one. */
  function Bound(c: Clock, step: real, cap: nat, dts: seq<real>, j: nat): int
    requires step > 0.0 && c.acc >= 0.0 && j <= |dts|
  {
    BoundAt(c.acc + Elapsed(dts[..j]), step, cap, Counted(dts) - Counted(dts[..j]))
  }

  function BoundAt(t: real, step: real, cap: nat, later: int): int
    requires step > 0.0 && t >= 0.0
  {
    Due(t, step) + cap * later
  }

  ghost predicate Bounded(c: Clock, step: real, cap: nat, dts: seq<real>, n: int)
    requires step > 0.0 && c.acc >= 0.0
  {
    n <= cap * Counted(dts) && forall j :: 0 < j <= |dts| && dts[j - 1] > 0.0 ==> n <= Bound(c, step, cap, dts, j)
  }

  ghost predicate Attained(c: Clock, step: real, cap: nat, dts: seq<real>, n: int)
    requires step > 0.0 && c.acc >= 0.0
  {
    n == cap * Counted(dts) || exists j :: 0 < j <= |dts| && dts[j - 1] > 0.0 && n == Bound(c, step, cap, dts, j)
  }

  lemma BoundLater(c: Clock, step: real, cap: nat, dts: seq<real>, j: nat)
    requires step > 0.0 && c.acc >= 0.0 && j < |dts|
    ensures Bound(c, step, cap, dts, j) ==
      Bound(c, step, cap, dts[..|dts| - 1], j) + (if dts[|dts| - 1] <= 0.0 then 0 else cap)
  {
    var last := dts[..|dts| - 1];
    assert last[..j] == dts[..j];
    var d := Counted(last) - Counted(dts[..j]);
    assert cap * (d + 1) == cap * d + cap;
  }

  /** A clock that kept its time has run what is due exactly when it holds less than a step. */
  lemma DueExactly(c: Clock, step: real, c': Clock, elapsed: real)
    requires step > 0.0 && c.acc >= 0.0 && elapsed >= 0.0 && Kept(c, step, c', elapsed)
    ensures var n, due := c'.ticks - c.ticks, Due(c.acc + elapsed, step);
      n <= due && (c'.acc < step <==> n == due)
  {
    var n, due := c'.ticks - c.ticks, Due(c.acc + elapsed, step);
    DueWithin(c.acc + elapsed, step, n);
    DueWithin(c.acc + elapsed, step, due);
    if due < n { SpanGrows(step, due, n); }
  }

  /** A frame runs what is due then, or the cap. */
  lemma FrameTicks(c: Clock, step: real, cap: nat, b: Clock, before: real, dt: real)
    requires step > 0.0 && c.acc >= 0.0 && before >= 0.0 && dt > 0.0 && Kept(c, step, b, before)
    ensures var c', due := Framed(b, step, cap, dt), Due(c.acc + (before + dt), step);
      && b.ticks <= c'.ticks <= b.ticks + cap && c'.ticks - c.ticks <= due
      && (c'.ticks - b.ticks == cap || c'.ticks - c.ticks == due)
  {
    FrameKeeps(b, step, cap, dt);
    TicksLeave(b.acc + dt, step, cap);
    KeptOn(c, step, b, before, Framed(b, step, cap, dt), dt);
    DueExactly(c, step, Framed(b, step, cap, dt), before + dt);
  }

  /** The ticks run are the minimum of cap for every frame and, over the frames j, what was due then
      and cap for every later frame. */
  lemma {:induction false} ClosedForm(c: Clock, step: real, cap: nat, dts: seq<real>)
    requires step > 0.0 && c.acc >= 0.0
    ensures var n := Frames(c, step, cap, dts).ticks - c.ticks;
      Bounded(c, step, cap, dts, n) && Attained(c, step, cap, dts, n)
  {
    if dts != [] {
      var last, dt := dts[..|dts| - 1], dts[|dts| - 1];
      var b := Frames(c, step, cap, last);
      ClosedForm(c, step, cap, last);
      TimeIsKept(c, step, cap, last);
      if dt > 0.0 {
        FrameTicks(c, step, cap, b, Elapsed(last), dt);
        BoundLast(c, step, cap, dts);
      }
      BoundedLater(c, step, cap, dts, b.ticks - c.ticks, Framed(b, step, cap, dt).ticks - c.ticks);
      AttainedLater(c, step, cap, dts, b.ticks - c.ticks, Framed(b, step, cap, dt).ticks - c.ticks);
    }
  }

  lemma BoundLast(c: Clock, step: real, cap: nat, dts: seq<real>)
    requires step > 0.0 && c.acc >= 0.0
    ensures Bound(c, step, cap, dts, |dts|) == Due(c.acc + Elapsed(dts), step)
  {
    assert dts[..|dts|] == dts;
    BoundNow(c.acc + Elapsed(dts), step, cap);
  }

  lemma BoundNow(t: real, step: real, cap: nat)
    requires step > 0.0 && t >= 0.0
    ensures BoundAt(t, step, cap, 0) == Due(t, step)
  {
  }

  lemma BoundedLater(c: Clock, step: real, cap: nat, dts: seq<real>, n': int, n: int)
    requires step > 0.0 && c.acc >= 0.0 && dts != [] && Bounded(c, step, cap, dts[..|dts| - 1], n')
    requires dts[|dts| - 1] <= 0.0 ==> n == n'
    requires dts[|dts| - 1] > 0.0 ==> n <= n' + cap && n <= Bound(c, step, cap, dts, |dts|)
    ensures Bounded(c, step, cap, dts, n)
  {
    var last := dts[..|dts| - 1];
    CapMore(cap, Counted(last));
    forall j | 0 < j <= |dts| && dts[j - 1] > 0.0 ensures n <= Bound(c, step, cap, dts, j) {
      if j < |dts| {
        BoundLater(c, step, cap, dts, j);
        assert last[j - 1] == dts[j - 1];
      }
    }
  }

  lemma CapMore(cap: nat, k: nat)
    ensures cap * (k + 1) == cap * k + cap
  {
  }

  lemma AttainedLater(c: Clock, step: real, cap: nat, dts: seq<real>, n': int, n: int)
    requires step > 0.0 && c.acc >= 0.0 && dts != [] && Attained(c, step, cap, dts[..|dts| - 1], n')
    requires dts[|dts| - 1] <= 0.0 ==> n == n'
    requires dts[|dts| - 1] > 0.0 ==> n == n' + cap || n == Bound(c, step, cap, dts, |dts|)
    ensures Attained(c, step, cap, dts, n)
  {
    var last := dts[..|dts| - 1];
    if dts[|dts| - 1] > 0.0 && n == Bound(c, step, cap, dts, |dts|) {
    } else if n' == cap * Counted(last) {
      CapMore(cap, Counted(last));
    } else {
      var j :| 0 < j <= |last| && last[j - 1] > 0.0 && n' == Bound(c, step, cap, last, j);
      BoundLater(c, step, cap, dts, j);
      assert dts[j - 1] > 0.0;
    }
  }

  // ---------------------------------------------------------------- frame splits

  /** The clock has run everything that was due exactly when it holds less than a step. */
  lemma CaughtUpExactly(c: Clock, step: real, cap: nat, dts: seq<real>)
    requires step > 0.0 && c.acc >= 0.0
    ensures var c' := Frames(c, step, cap, dts);
      c'.acc < step <==> c'.ticks - c.ticks == Due(c.acc + Elapsed(dts), step)
  {
    TimeIsKept(c, step, cap, dts);
    DueExactly(c, step, Frames(c, step, cap, dts), Elapsed(dts));
  }

  /** How time is cut into frames does not matter to two clocks that have both caught up. */
  lemma SplitsAgree(c: Clock, step: real, cap: nat, a: seq<real>, b: seq<real>)
    requires step > 0.0 && c.acc >= 0.0 && Elapsed(a) == Elapsed(b)
    requires Frames(c, step, cap, a).acc < step && Frames(c, step, cap, b).acc < step
    ensures Frames(c, step, cap, a) == Frames(c, step, cap, b)
  {
    CaughtUpExactly(c, step, cap, a);
    CaughtUpExactly(c, step, cap, b);
    TimeIsKept(c, step, cap, a);
    TimeIsKept(c, step, cap, b);
  }

  /** A frame leaves a backlog exactly when it brings the clock to cap + 1 steps. */
  lemma BacklogExactly(c: Clock, step: real, cap: nat, dt: real)
    requires step > 0.0 && c.acc >= 0.0 && dt > 0.0
    ensures Framed(c, step, cap, dt).acc < step <==> c.acc + dt < step * (cap + 1) as real
  {
    var n := Ticks(c.acc + dt, step, cap);
    TicksLeave(c.acc + dt, step, cap);
    SpanIs(step, cap + 1);
    if n < cap { SpanGrows(step, n, cap); }
  }

  /** Frames of at most cap steps never leave a backlog. */
  lemma {:induction false} ShortFramesCatchUp(c: Clock, step: real, cap: nat, dts: seq<real>)
    requires step > 0.0 && 0.0 <= c.acc < step
    requires forall i :: 0 <= i < |dts| ==> dts[i] <= step * cap as real
    ensures 0.0 <= Frames(c, step, cap, dts).acc < step
  {
    if dts != [] {
      var last, dt := dts[..|dts| - 1], dts[|dts| - 1];
      ShortFramesCatchUp(c, step, cap, last);
      var b := Frames(c, step, cap, last);
      if dt > 0.0 {
        BacklogExactly(b, step, cap, dt);
        SpanIs(step, cap + 1);
        SpanIs(step, cap);
        TicksLeave(b.acc + dt, step, cap);
      }
    }
  }
}

/**
  The render-progress record shared by the video endpoints: a timer that is
  started, polled for a percentage estimated from elapsed time, and finished.
  The wall clock (`time.time()`) is a parameter `now` of the operations that
  read it.
 */
module RenderState {
  import opened Numerics

  /** Python's `min(100, x)`: 100 unless `x` is strictly smaller. */
  function AtMost100(x: int): (r: int)
    ensures r <= 100
    ensures r == x || (r == 100 && x >= 100)
  {
    if x < 100 then x else 100
  }

  /** The percentage reported `now` for a render started at `start` that is expected
      to take `estimated` seconds: `min(100, int(elapsed / estimated * 100))`. */
  function ProgressAt(start: real, estimated: real, now: real): (p: int)
    requires estimated != 0.0
    ensures p <= 100
  {
    AtMost100(Trunc((now - start) / estimated * 100.0))
  }

  /** Once time has not run backwards, the reported progress is at least 0. */
  lemma ProgressNonNegative(start: real, estimated: real, now: real)
    requires estimated > 0.0 && now >= start
    ensures 0 <= ProgressAt(start, estimated, now) <= 100
  {
    assert (now - start) / estimated * 100.0 >= 0.0;
    TruncSign((now - start) / estimated * 100.0);
  }

  /** The reported progress never decreases as the clock advances. */
  lemma ProgressMonotone(start: real, estimated: real, now: real, later: real)
    requires estimated > 0.0 && now <= later
    ensures ProgressAt(start, estimated, now) <= ProgressAt(start, estimated, later)
  {
    assert (now - start) / estimated <= (later - start) / estimated;
    TruncMonotone((now - start) / estimated * 100.0, (later - start) / estimated * 100.0);
  }

  /** The progress reaches 100 once the estimated time has elapsed. */
  lemma ProgressFullAfterEstimate(start: real, estimated: real, now: real)
    requires estimated > 0.0 && now >= start + estimated
    ensures ProgressAt(start, estimated, now) == 100
  {
    assert (now - start) / estimated >= 1.0;
    TruncMonotone(100.0, (now - start) / estimated * 100.0);
  }

  /** The module-level `render_status` record. */
  class RenderStatus {
    var started: bool
    var progress: int
    var startTime: real
    /** Seconds a render is expected to take; no operation changes it. */
    const estimatedTime: real

    /** The stored progress never exceeds 100. */
    ghost predicate Valid()
      reads this
    {
      progress <= 100 && estimatedTime > 0.0
    }

    /** The initial record: not started, progress 0, start time 0, estimate 30 seconds. */
    constructor ()
      ensures Valid()
      ensures !started && progress == 0 && startTime == 0.0 && estimatedTime == 30.0
    {
      started := false;
      progress := 0;
      startTime := 0.0;
      estimatedTime := 30.0;
    }

    /** `start_render_timer`: marks the render started at `now` with progress 0. */
    method StartRenderTimer(now: real)
      requires Valid()
      modifies this
      ensures Valid()
      ensures started && progress == 0 && startTime == now
    {
      started := true;
      progress := 0;
      startTime := now;
    }

    /** `get_progress`: 0 and no change while not started; otherwise the elapsed-time
        estimate, which is also stored. */
    method GetProgress(now: real) returns (p: int)
      requires Valid()
      modifies this
      ensures Valid()
      ensures p <= 100
      ensures !old(started) ==> p == 0 && unchanged(this)
      ensures old(started) ==> p == ProgressAt(startTime, estimatedTime, now)
      ensures old(started) ==> started && progress == p && startTime == old(startTime)
    {
      if !started {
        return 0;
      }
      var elapsed := now - startTime;
      p := AtMost100(Trunc(elapsed / estimatedTime * 100.0));
      progress := p;
    }

    /** `finish_render`: progress 100, not started; the start time is kept. */
    method FinishRender()
      requires Valid()
      modifies this
      ensures Valid()
      ensures progress == 100 && !started && startTime == old(startTime)
    {
      progress := 100;
      started := false;
    }
  }
}

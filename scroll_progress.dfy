/**
 * The scroll-to-frame pipeline shared, line for line, by both scroll hooks:
 * the raw scroll fraction, its remapping through an active range
 * `[startTrigger, endTrigger]` into a local progress in [0,1], and the
 * selection of a frame number in `[1, totalFrames]`.
 * Scroll offsets and fractions are exact reals.
 */
module ScrollProgress {
  import opened Wrappers
  import opened RealArith

  /** `window.pageYOffset || document.documentElement.scrollTop`: a zero offset falls back to the element's. */
  function ScrollTop(pageYOffset: real, documentScrollTop: real): (t: real)
    ensures pageYOffset != 0.0 ==> t == pageYOffset
    ensures pageYOffset == 0.0 ==> t == documentScrollTop
  {
    if pageYOffset != 0.0 then pageYOffset else documentScrollTop
  }

  /**
   * `scrollTop / maxScrollTop`, or nothing at all when the page cannot be
   * scrolled (`maxScrollTop <= 0`): the handler returns before dividing.
   */
  function ScrollFraction(scrollTop: real, maxScrollTop: real): (f: Option<real>)
    ensures f.None? <==> maxScrollTop <= 0.0
    ensures f.Some? ==> f.value * maxScrollTop == scrollTop
    ensures f.Some? && 0.0 <= scrollTop <= maxScrollTop ==> 0.0 <= f.value <= 1.0
  {
    if maxScrollTop <= 0.0 then None
    else
      var fraction := scrollTop / maxScrollTop;
      assert fraction * maxScrollTop == scrollTop;
      ScaledBounds(fraction, maxScrollTop, scrollTop, 0.0, 1.0);
      Some(fraction)
  }

  /**
   * The animation progress of one sequence for a global scroll fraction.
   * The division is reached only when `startTrigger < fraction < endTrigger`,
   * so its divisor is positive whatever the triggers are.
   */
  function Remap(fraction: real, startTrigger: real, endTrigger: real): (p: real)
    ensures 0.0 <= p <= 1.0
    ensures fraction <= startTrigger ==> p == 0.0
    ensures startTrigger < fraction && endTrigger <= fraction ==> p == 1.0
    ensures startTrigger < fraction < endTrigger ==>
              0.0 < p < 1.0 && startTrigger + p * (endTrigger - startTrigger) == fraction
  {
    if fraction <= startTrigger then 0.0
    else if fraction >= endTrigger then 1.0
    else
      var triggerRange := endTrigger - startTrigger;
      var adjustedProgress := (fraction - startTrigger) / triggerRange;
      Max(0.0, Min(1.0, adjustedProgress))
  }

  /** The remapped progress never decreases as the page scrolls further, for any pair of triggers. */
  lemma RemapMonotone(f1: real, f2: real, startTrigger: real, endTrigger: real)
    requires f1 <= f2
    ensures Remap(f1, startTrigger, endTrigger) <= Remap(f2, startTrigger, endTrigger)
  {
    var p1, p2 := Remap(f1, startTrigger, endTrigger), Remap(f2, startTrigger, endTrigger);
    if startTrigger < f1 && f2 < endTrigger {
      var range := endTrigger - startTrigger;
      OffsetOrder(startTrigger, range, p1, p2, f1, f2);
    }
  }

  /** Two points `start + p * range` on a line of positive slope are ordered like their parameters. */
  lemma OffsetOrder(start: real, range: real, p1: real, p2: real, f1: real, f2: real)
    requires range > 0.0 && f1 <= f2
    requires start + p1 * range == f1 && start + p2 * range == f2
    ensures p1 <= p2
  {
    ScaleLeqIff(p1, p2, range);
  }

  /** With an empty or reversed active range, the progress is a step from 0 to 1 at `startTrigger`. */
  lemma RemapDegenerateRange(fraction: real, startTrigger: real, endTrigger: real)
    requires endTrigger <= startTrigger
    ensures Remap(fraction, startTrigger, endTrigger) == if fraction <= startTrigger then 0.0 else 1.0
  {
  }

  /**
   * `min(totalFrames, max(1, ceil(progress * totalFrames * multiplier)))`.
   * For `totalFrames >= 1` this is the least frame number in `[1, totalFrames]`
   * that reaches the scaled progress, or the last frame when none does.
   */
  function SelectFrame(progress: real, totalFrames: int, multiplier: real): (frame: int)
    ensures totalFrames < 1 ==> frame == totalFrames
    ensures totalFrames >= 1 ==> 1 <= frame <= totalFrames
    ensures totalFrames >= 1 ==>
              (frame == totalFrames || progress * totalFrames as real * multiplier <= frame as real) &&
              (frame == 1 || (frame - 1) as real < progress * totalFrames as real * multiplier)
  {
    var scaled := Ceil(progress * totalFrames as real * multiplier);
    var atLeastFirst := if 1 >= scaled then 1 else scaled;
    if totalFrames <= atLeastFirst then totalFrames else atLeastFirst
  }

  /** Progress 0 shows the first frame, whatever the multiplier. */
  lemma SelectFrameAtStart(totalFrames: int, multiplier: real)
    requires totalFrames >= 1
    ensures SelectFrame(0.0, totalFrames, multiplier) == 1
  {
  }

  /** Progress 1 shows the last frame when the multiplier is at least 1. */
  lemma SelectFrameAtEnd(totalFrames: int, multiplier: real)
    requires totalFrames >= 1 && multiplier >= 1.0
    ensures SelectFrame(1.0, totalFrames, multiplier) == totalFrames
  {
    assert totalFrames as real * multiplier >= totalFrames as real;
  }

  /** For a non-negative multiplier, more progress never selects an earlier frame. */
  lemma SelectFrameMonotone(p1: real, p2: real, totalFrames: int, multiplier: real)
    requires p1 <= p2 && multiplier >= 0.0
    ensures SelectFrame(p1, totalFrames, multiplier) <= SelectFrame(p2, totalFrames, multiplier)
  {
    if totalFrames >= 1 {
      var k := totalFrames as real * multiplier;
      assert k >= 0.0;
      assert (p2 - p1) * k >= 0.0;
      assert p1 * totalFrames as real * multiplier == p1 * k;
      assert p2 * totalFrames as real * multiplier == p2 * k;
      CeilMonotone(p1 * k, p2 * k);
    }
  }

  /** The frame shown for a given scroll fraction of the page. */
  function FrameForFraction(fraction: real, startTrigger: real, endTrigger: real,
                            totalFrames: int, multiplier: real): (frame: int)
    ensures totalFrames >= 1 ==> 1 <= frame <= totalFrames
    ensures totalFrames >= 1 && fraction <= startTrigger ==> frame == 1
    ensures totalFrames >= 1 && multiplier >= 1.0 && startTrigger < fraction && endTrigger <= fraction ==>
              frame == totalFrames
  {
    SelectFrame(Remap(fraction, startTrigger, endTrigger), totalFrames, multiplier)
  }

  /** For a non-negative multiplier the frame is monotone in the scroll fraction. */
  lemma FrameMonotoneInFraction(f1: real, f2: real, startTrigger: real, endTrigger: real,
                                totalFrames: int, multiplier: real)
    requires f1 <= f2 && multiplier >= 0.0
    ensures FrameForFraction(f1, startTrigger, endTrigger, totalFrames, multiplier)
         <= FrameForFraction(f2, startTrigger, endTrigger, totalFrames, multiplier)
  {
    RemapMonotone(f1, f2, startTrigger, endTrigger);
    SelectFrameMonotone(Remap(f1, startTrigger, endTrigger), Remap(f2, startTrigger, endTrigger),
                        totalFrames, multiplier);
  }

  /**
   * One run of a scroll handler: the frame to show, or nothing (the current
   * frame is kept) when the page has no scrollable extent.
   */
  function FrameForScroll(scrollTop: real, scrollHeight: real, innerHeight: real,
                          startTrigger: real, endTrigger: real,
                          totalFrames: int, multiplier: real): (frame: Option<int>)
    ensures frame.None? <==> scrollHeight - innerHeight <= 0.0
    ensures frame.Some? && totalFrames >= 1 ==> 1 <= frame.value <= totalFrames
    ensures frame.Some? ==>
              frame.value == FrameForFraction(scrollTop / (scrollHeight - innerHeight),
                                              startTrigger, endTrigger, totalFrames, multiplier)
  {
    match ScrollFraction(scrollTop, scrollHeight - innerHeight)
    case None => None
    case Some(fraction) => Some(FrameForFraction(fraction, startTrigger, endTrigger, totalFrames, multiplier))
  }

  /** Scrolling further down a fixed page never moves the animation backwards. */
  lemma FrameForScrollMonotone(t1: real, t2: real, scrollHeight: real, innerHeight: real,
                               startTrigger: real, endTrigger: real,
                               totalFrames: int, multiplier: real)
    requires t1 <= t2 && multiplier >= 0.0 && scrollHeight - innerHeight > 0.0
    ensures FrameForScroll(t1, scrollHeight, innerHeight, startTrigger, endTrigger, totalFrames, multiplier).value
         <= FrameForScroll(t2, scrollHeight, innerHeight, startTrigger, endTrigger, totalFrames, multiplier).value
  {
    var m := scrollHeight - innerHeight;
    assert t1 / m <= t2 / m by {
      assert (t2 - t1) / m >= 0.0;
    }
    FrameMonotoneInFraction(t1 / m, t2 / m, startTrigger, endTrigger, totalFrames, multiplier);
  }

  /** 140 frames active over the first 30% of the page: halfway through that range shows frame 70. */
  lemma MidpointOfActiveRange()
    ensures FrameForFraction(0.15, 0.0, 0.3, 140, 1.0) == 70
  {
    assert Remap(0.15, 0.0, 0.3) == 0.5;
  }

  /** 100 frames at multiplier 2: 60% of the page asks for frame 120, which is clamped to 100. */
  lemma MultiplierFinishesEarly()
    ensures FrameForFraction(0.6, 0.0, 1.0, 100, 2.0) == 100
  {
    assert Remap(0.6, 0.0, 1.0) == 0.6;
  }
}

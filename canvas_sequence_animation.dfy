/**
 * `CanvasSequenceAnimation`: the canvas hook driven at multiplier 1, a
 * window-wide pointer parallax coalesced to one animation-frame callback at
 * a time, and the loading screen (rotating text, progress bar).
 */
module CanvasSequenceAnimation {
  import opened Wrappers
  import opened Parallax
  import CanvasScrollHook

  /** Client coordinates of a pointer event. */
  datatype PointerEvent = PointerEvent(clientX: real, clientY: real)

  /**
   * The mouse handlers over the window.  `pending` is the animation-frame
   * callback scheduled by a mouse move, with the event it captured;
   * `ticking` is the flag that keeps it the only one.
   */
  class WindowPointerTracker {
    var ticking: bool
    var pending: Option<PointerEvent>
    var mousePosition: Pointer

    ghost predicate Valid()
      reads this
    {
      ticking <==> pending.Some?
    }

    constructor ()
      ensures Valid() && !ticking && mousePosition == Origin
    {
      ticking := false;
      pending := None;
      mousePosition := Origin;
    }

    /**
     * `mousemove`: schedules a callback only when none is pending; while
     * one is, the event is dropped (the callback keeps the first event).
     */
    method MouseMove(e: PointerEvent)
      requires Valid()
      modifies this`ticking, this`pending
      ensures Valid() && ticking
      ensures pending == if old(ticking) then old(pending) else Some(e)
    {
      if !ticking {
        pending := Some(e);
        ticking := true;
      }
    }

    /**
     * The display refresh: the pending callback, if any, normalises its
     * event against the window size read now and clears `ticking`.
     */
    method AnimationFrame(innerWidth: real, innerHeight: real)
      requires Valid()
      requires innerWidth > 0.0 && innerHeight > 0.0
      modifies this`ticking, this`pending, this`mousePosition
      ensures Valid() && !ticking
      ensures old(pending).None? ==> mousePosition == old(mousePosition)
      ensures old(pending).Some? ==>
                mousePosition == Pointer(Normalize(old(pending).value.clientX, innerWidth),
                                         Normalize(old(pending).value.clientY, innerHeight))
      ensures old(pending).Some? ==>
                (0.0 <= old(pending).value.clientX <= innerWidth && 0.0 <= old(pending).value.clientY <= innerHeight
                 ==> InUnitSquare(mousePosition))
    {
      if pending.Some? {
        var e := pending.value;
        mousePosition := Pointer(Normalize(e.clientX, innerWidth), Normalize(e.clientY, innerHeight));
        pending := None;
        ticking := false;
      }
    }

    /** `mouseleave`: back to the centre, which carries no transform. */
    method MouseLeave()
      requires Valid()
      modifies this`mousePosition
      ensures Valid()
      ensures mousePosition == Origin && ParallaxStyle(mousePosition) == Identity
    {
      mousePosition := Origin;
    }
  }

  /** The texts the loading screen rotates through. */
  const LoadingTextCount: nat := 6

  /** One tick of the 800 ms loading-text interval: `(prev + 1) % 6`. */
  function NextLoadingTextIndex(prev: nat): (next: nat)
    ensures next < LoadingTextCount
    ensures prev + 1 < LoadingTextCount ==> next == prev + 1
    ensures prev + 1 == LoadingTextCount ==> next == 0
  {
    (prev + 1) % LoadingTextCount
  }

  /** The index after `ticks` ticks from `start`. */
  function LoadingTextAfter(start: nat, ticks: nat): nat
    decreases ticks
  {
    if ticks == 0 then start else NextLoadingTextIndex(LoadingTextAfter(start, ticks - 1))
  }

  /** From any valid index, `ticks` ticks advance it by `ticks` modulo 6. */
  lemma {:induction false} LoadingTextAfterTicks(start: nat, ticks: nat)
    requires start < LoadingTextCount
    ensures LoadingTextAfter(start, ticks) == (start + ticks) % LoadingTextCount
    decreases ticks
  {
    if ticks > 0 {
      LoadingTextAfterTicks(start, ticks - 1);
    }
  }

  /** Six ticks bring the loading text back to where it started. */
  lemma LoadingTextCycles(start: nat)
    requires start < LoadingTextCount
    ensures LoadingTextAfter(start, LoadingTextCount) == start
  {
    LoadingTextAfterTicks(start, LoadingTextCount);
  }

  /** The loading bar's width in percent, `currentFrame / totalFrames * 100`. */
  function LoadingBarWidth(currentFrame: int, totalFrames: int): (percent: real)
    requires totalFrames != 0
    ensures percent * totalFrames as real == currentFrame as real * 100.0
    ensures 1 <= currentFrame <= totalFrames ==> 0.0 < percent <= 100.0
  {
    (currentFrame as real / totalFrames as real) * 100.0
  }

  /** The loading screen, and with it the text interval, is shown only while `imagesLoaded` is false. */
  predicate ShowsLoadingScreen(imagesLoaded: bool) {
    !imagesLoaded
  }

  /** The canvas hook reports its images as loaded from the start, so the loading screen never shows. */
  lemma LoadingScreenNeverShown(hook: CanvasScrollHook.CanvasScrollAnimation)
    requires hook.Valid()
    ensures !ShowsLoadingScreen(hook.imagesLoaded)
  {
  }

  /**
   * The component's use of the hook: its props pass through and the scroll
   * multiplier is always 1 (the component's defaults are 148 frames, the
   * full scroll range and a 1158x770 original size).
   */
  method UseCanvasSequence(totalFrames: int, srcPrefix: string, startTrigger: real, endTrigger: real,
                           originalWidth: real, originalHeight: real)
    returns (hook: CanvasScrollHook.CanvasScrollAnimation)
    requires totalFrames >= 1
    ensures fresh(hook) && hook.Valid()
    ensures hook.totalFrames == totalFrames && hook.srcPrefix == srcPrefix && hook.scrollMultiplier == 1.0
    ensures hook.startTrigger == startTrigger && hook.endTrigger == endTrigger
    ensures hook.canvasDimensions == CanvasScrollHook.Dimensions(originalWidth, originalHeight)
  {
    hook := new CanvasScrollHook.CanvasScrollAnimation(totalFrames, srcPrefix, 1.0, startTrigger, endTrigger,
                                                       originalWidth, originalHeight);
  }
}

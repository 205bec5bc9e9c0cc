/**
 * `PngSequenceAnimation`: the image-swap hook driven at multiplier 1, an
 * `<img>` whose source is the current frame's address, and a pointer
 * parallax measured against the container's bounding box.  The mouse
 * listeners go on the container element if it exists when the component
 * mounts.
 */
module PngSequenceAnimation {
  import opened Wrappers
  import opened Parallax
  import opened FrameStore
  import ScrollHook
  import Decimal

  datatype PointerEvent = PointerEvent(clientX: real, clientY: real)

  /** `getBoundingClientRect()` of the container. */
  datatype Rect = Rect(left: real, top: real, width: real, height: real)

  predicate Inside(e: PointerEvent, r: Rect) {
    r.left <= e.clientX <= r.left + r.width && r.top <= e.clientY <= r.top + r.height
  }

  /** The pointer relative to the container, each axis in [-1,1] exactly when the pointer is inside. */
  function NormalizeToRect(e: PointerEvent, r: Rect): (p: Pointer)
    requires r.width > 0.0 && r.height > 0.0
    ensures Inside(e, r) <==> InUnitSquare(p)
    ensures e.clientX == r.left + r.width / 2.0 && e.clientY == r.top + r.height / 2.0 ==> p == Origin
  {
    Pointer(Normalize(e.clientX - r.left, r.width), Normalize(e.clientY - r.top, r.height))
  }

  /** `getImageSrc(currentFrame)`: the address of the frame the hook selected. */
  function ImageSrc(srcPrefix: string, currentFrame: nat): (src: string)
    ensures |src| >= |srcPrefix| + 5
    ensures src[..|srcPrefix|] == srcPrefix && src[|src| - 4..] == ".png"
    ensures Decimal.AllDigits(src[|srcPrefix|..|src| - 4])
    ensures Decimal.ParseDigits(src[|srcPrefix|..|src| - 4]) == currentFrame
    ensures |src| == |srcPrefix| + 5 || src[|srcPrefix|] != '0'
  {
    FrameSrc(srcPrefix, currentFrame)
  }

  /** The image shown is always one the hook's preload effect requested. */
  lemma ShownImageWasRequested(hook: ScrollHook.ScrollAnimation)
    requires hook.Valid()
    requires |hook.requests| == hook.totalFrames
    requires forall k :: 0 <= k < hook.totalFrames ==> hook.requests[k] == FrameSrc(hook.srcPrefix, k + 1)
    ensures ImageSrc(hook.srcPrefix, hook.currentFrame) in hook.requests
  {
    assert hook.requests[hook.currentFrame - 1] == ImageSrc(hook.srcPrefix, hook.currentFrame);
  }

  /**
   * The container's mouse handlers.  `attached` records whether they were
   * registered; `pending` is the scheduled animation-frame callback with the
   * event it captured, and `ticking` keeps it the only one.
   */
  class ContainerPointerTracker {
    var attached: bool
    var ticking: bool
    var pending: Option<PointerEvent>
    var mousePosition: Pointer

    ghost predicate Valid()
      reads this
    {
      && (ticking <==> pending.Some?)
      && (!attached ==> !ticking && mousePosition == Origin)
    }

    constructor ()
      ensures Valid() && !attached && !ticking && mousePosition == Origin
    {
      attached := false;
      ticking := false;
      pending := None;
      mousePosition := Origin;
    }

    /** The mount effect: register the handlers if the container element exists now. */
    method AttachListeners(containerPresent: bool)
      requires Valid()
      modifies this`attached
      ensures Valid()
      ensures attached == (old(attached) || containerPresent)
    {
      if containerPresent {
        attached := true;
      }
    }

    /**
     * `mousemove` on the container: schedules a callback only when the
     * handlers are registered, none is pending and the container still
     * exists; otherwise nothing happens.
     */
    method MouseMove(e: PointerEvent, containerPresent: bool)
      requires Valid()
      modifies this`ticking, this`pending
      ensures Valid() && attached == old(attached)
      ensures if attached && !old(ticking) && containerPresent
              then ticking && pending == Some(e)
              else ticking == old(ticking) && pending == old(pending)
    {
      if !attached {
        return;
      }
      if !ticking && containerPresent {
        pending := Some(e);
        ticking := true;
      }
    }

    /** The display refresh: the pending callback normalises its event against the container's box as it is now. */
    method AnimationFrame(rect: Rect)
      requires Valid()
      requires rect.width > 0.0 && rect.height > 0.0
      modifies this`ticking, this`pending, this`mousePosition
      ensures Valid() && !ticking && attached == old(attached)
      ensures old(pending).None? ==> mousePosition == old(mousePosition)
      ensures old(pending).Some? ==> mousePosition == NormalizeToRect(old(pending).value, rect)
    {
      if pending.Some? {
        mousePosition := NormalizeToRect(pending.value, rect);
        pending := None;
        ticking := false;
      }
    }

    /** `mouseleave`: back to the centre, which carries no transform. */
    method MouseLeave()
      requires Valid()
      modifies this`mousePosition
      ensures Valid() && attached == old(attached)
      ensures mousePosition == Origin && ParallaxStyle(mousePosition) == Identity
    {
      if attached {
        mousePosition := Origin;
      }
    }
  }

  /** The element holding the container ref is rendered only once the hook reports its images loaded. */
  function ContainerRendered(imagesLoaded: bool): bool {
    imagesLoaded
  }

  /**
   * Mounting the component: the hook is created with multiplier 1 and the
   * `scrollContainer` prop as its (ignored) container, then the mount effect
   * runs once, while the loading screen is still shown.
   */
  method Mount(totalFrames: int, srcPrefix: string, scrollContainer: ScrollHook.ScrollContainer?,
               startTrigger: real, endTrigger: real)
    returns (hook: ScrollHook.ScrollAnimation, tracker: ContainerPointerTracker)
    requires totalFrames >= 1
    ensures fresh(hook) && hook.Valid() && fresh(tracker) && tracker.Valid()
    ensures hook.totalFrames == totalFrames && hook.srcPrefix == srcPrefix && hook.scrollMultiplier == 1.0
    ensures hook.containerRef == scrollContainer
    ensures hook.startTrigger == startTrigger && hook.endTrigger == endTrigger
    ensures !tracker.attached && tracker.mousePosition == Origin
  {
    hook := new ScrollHook.ScrollAnimation(totalFrames, srcPrefix, 1.0, scrollContainer, startTrigger, endTrigger);
    tracker := new ContainerPointerTracker();
    tracker.AttachListeners(ContainerRendered(hook.imagesLoaded));
  }
}

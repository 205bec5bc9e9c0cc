/**
 * `useCanvasScrollAnimation`: a scroll-driven image sequence painted on a
 * canvas.  The hook's React state (`currentFrame`, `imagesLoaded`,
 * `canvasDimensions`) and refs (`imagesRef`, `contextRef`, the canvas'
 * backing size) are the fields of `CanvasScrollAnimation`; each effect or
 * event handler is a method.  Canvas paints are recorded as `Paint` events.
 */
module CanvasScrollHook {
  import opened Wrappers
  import opened RealArith
  import opened ScrollProgress
  import opened FrameStore

  /** The sequence's target aspect ratio, 3840:2160 (16:9). */
  const AspectRatio: real := 3840.0 / 2160.0
  /** Viewports at most this wide take the mobile path. */
  const MobileBreakpoint: real := 768.0
  /** Canvas `width`/`height` are `unsigned long`: an assigned number is truncated and wrapped modulo 2^32. */
  const CanvasSizeModulus: int := 0x1_0000_0000
  /** The largest value a reflected `unsigned long` attribute stores; anything above stores the default. */
  const MaxStoredSize: int := 0x7FFF_FFFF
  /** The canvas' default `width` and `height`. */
  const DefaultCanvasWidth: int := 300
  const DefaultCanvasHeight: int := 150

  datatype Dimensions = Dimensions(width: real, height: real)

  /**
   * The viewport height used for sizing: on a mobile-width viewport whose
   * browser supports `100lvh`, the measured large-viewport height
   * (`largeViewportHeight`, the probe element's `offsetHeight`); otherwise
   * `innerHeight`.
   */
  function ViewportHeight(innerWidth: real, innerHeight: real, largeViewportHeight: Option<real>): (h: real)
    ensures innerWidth > MobileBreakpoint || largeViewportHeight.None? ==> h == innerHeight
    ensures innerWidth <= MobileBreakpoint && largeViewportHeight.Some? ==> h == largeViewportHeight.value
  {
    if innerWidth <= MobileBreakpoint && largeViewportHeight.Some? then largeViewportHeight.value
    else innerHeight
  }

  /**
   * Cover-fit: the canvas covers the viewport in both axes, keeps the
   * target aspect ratio exactly, and fills one axis exactly.
   */
  function CoverFit(viewportWidth: real, viewportHeight: real): (d: Dimensions)
    ensures d.width >= viewportWidth && d.width >= viewportHeight * AspectRatio
    ensures d.height >= viewportHeight && d.height >= viewportWidth / AspectRatio
    ensures d.width == d.height * AspectRatio
    ensures d.width == viewportWidth || d.height == viewportHeight
  {
    var heightBasedWidth := viewportHeight * AspectRatio;
    var widthBasedHeight := viewportWidth / AspectRatio;
    Dimensions(Max(viewportWidth, heightBasedWidth), Max(viewportHeight, widthBasedHeight))
  }

  /** No smaller surface of the target aspect ratio covers the viewport. */
  lemma CoverFitIsSmallest(viewportWidth: real, viewportHeight: real, width: real, height: real)
    requires width == height * AspectRatio
    requires width >= viewportWidth && height >= viewportHeight
    ensures CoverFit(viewportWidth, viewportHeight).width <= width
    ensures CoverFit(viewportWidth, viewportHeight).height <= height
  {
    var d := CoverFit(viewportWidth, viewportHeight);
    if d.width == viewportWidth {
      assert d.height * AspectRatio <= height * AspectRatio;
    } else {
      assert d.height == viewportHeight;
      assert d.width == viewportHeight * AspectRatio <= height * AspectRatio;
    }
  }

  /** An 800x600 viewport gets a 16:9 canvas that is 600 high and at least 800 wide. */
  lemma CoverFitLandscapeExample()
    ensures CoverFit(800.0, 600.0).width >= 800.0 && CoverFit(800.0, 600.0).height == 600.0
  {
  }

  /** The canvas size for the current window. */
  function CanvasDimensionsFor(innerWidth: real, innerHeight: real, largeViewportHeight: Option<real>): (d: Dimensions)
    ensures d.width >= innerWidth && d.width == d.height * AspectRatio
    ensures d.height >= ViewportHeight(innerWidth, innerHeight, largeViewportHeight)
    ensures innerWidth > MobileBreakpoint || largeViewportHeight.None? ==> d.height >= innerHeight
  {
    CoverFit(innerWidth, ViewportHeight(innerWidth, innerHeight, largeViewportHeight))
  }

  /** `window.devicePixelRatio || 1`: an undefined or zero ratio counts as 1. */
  function PixelRatio(devicePixelRatio: Option<real>): (scale: real)
    ensures scale != 0.0
    ensures devicePixelRatio.Some? && devicePixelRatio.value != 0.0 ==> scale == devicePixelRatio.value
    ensures devicePixelRatio.None? || devicePixelRatio.value == 0.0 ==> scale == 1.0
  {
    if devicePixelRatio.Some? && devicePixelRatio.value != 0.0 then devicePixelRatio.value else 1.0
  }

  /**
   * The value a canvas keeps when a number is assigned to its `width` or
   * `height`: the number is truncated toward zero and reduced modulo 2^32
   * (the `unsigned long` conversion); a result above 2^31 - 1 is not stored,
   * and the attribute takes its default instead.
   */
  function CanvasPixels(x: real, default: int): (n: int)
    requires 0 <= default <= MaxStoredSize
    ensures 0 <= n <= MaxStoredSize
    ensures 0.0 <= x < (MaxStoredSize + 1) as real ==> n as real <= x < n as real + 1.0
    ensures -1.0 < x < 0.0 ==> n == 0
    ensures (MaxStoredSize + 1) as real <= x < CanvasSizeModulus as real ==> n == default
    ensures -(MaxStoredSize + 1) as real <= x <= -1.0 ==> n == default
  {
    var truncated := if x >= 0.0 then x.Floor else -((-x).Floor);
    var wrapped := truncated % CanvasSizeModulus;
    if wrapped <= MaxStoredSize then wrapped else default
  }

  /**
   * The canvas backing store: the CSS size times the pixel ratio in each
   * axis, to whole pixels, or the default size in an axis whose scaled
   * size is too large to store.
   */
  function BackingSize(css: Dimensions, devicePixelRatio: Option<real>): (backing: Dimensions)
    ensures var w := css.width * PixelRatio(devicePixelRatio);
            0.0 <= w < (MaxStoredSize + 1) as real ==> backing.width <= w < backing.width + 1.0
    ensures var h := css.height * PixelRatio(devicePixelRatio);
            0.0 <= h < (MaxStoredSize + 1) as real ==> backing.height <= h < backing.height + 1.0
    ensures var w := css.width * PixelRatio(devicePixelRatio);
            (MaxStoredSize + 1) as real <= w < CanvasSizeModulus as real ==> backing.width == DefaultCanvasWidth as real
    ensures var h := css.height * PixelRatio(devicePixelRatio);
            (MaxStoredSize + 1) as real <= h < CanvasSizeModulus as real ==> backing.height == DefaultCanvasHeight as real
    ensures backing.width.Floor as real == backing.width && backing.height.Floor as real == backing.height
  {
    var scale := PixelRatio(devicePixelRatio);
    Dimensions(CanvasPixels(css.width * scale, DefaultCanvasWidth) as real,
               CanvasPixels(css.height * scale, DefaultCanvasHeight) as real)
  }

  /** One `drawImage` of a stored frame, stretched to the canvas' CSS size. */
  datatype Paint = Paint(frame: int, src: string, size: Dimensions)

  class CanvasScrollAnimation {
    const totalFrames: int
    const srcPrefix: string
    const scrollMultiplier: real
    const startTrigger: real
    const endTrigger: real

    var currentFrame: int
    var imagesLoaded: bool
    var canvasDimensions: Dimensions
    /** `imagesRef.current`: frame number to the source of the image loaded for it. */
    var images: map<int, string>
    /** Whether `contextRef.current` holds a 2D context. */
    var hasContext: bool
    /** The canvas' backing store size and the context's scale factor. */
    var backing: Dimensions
    var contextScale: real
    /** Every paint issued to the canvas, oldest first. */
    var paints: seq<Paint>

    ghost predicate Valid()
      reads this
    {
      && totalFrames >= 1
      && 1 <= currentFrame <= totalFrames
      && imagesLoaded
      && (forall i :: i in images ==> 1 <= i <= totalFrames && images[i] == FrameSrc(srcPrefix, i))
      && (forall k :: 0 <= k < |paints| ==>
            1 <= paints[k].frame <= totalFrames && paints[k].src == FrameSrc(srcPrefix, paints[k].frame))
    }

    /** Mounting the hook: frame 1, `imagesLoaded` already true, the original size, an empty store. */
    constructor (totalFrames: int, srcPrefix: string, scrollMultiplier: real,
                 startTrigger: real, endTrigger: real, originalWidth: real, originalHeight: real)
      requires totalFrames >= 1
      ensures Valid()
      ensures this.totalFrames == totalFrames && this.srcPrefix == srcPrefix
      ensures this.scrollMultiplier == scrollMultiplier
      ensures this.startTrigger == startTrigger && this.endTrigger == endTrigger
      ensures currentFrame == 1 && imagesLoaded
      ensures canvasDimensions == Dimensions(originalWidth, originalHeight)
      ensures images == map[] && !hasContext && paints == []
    {
      this.totalFrames := totalFrames;
      this.srcPrefix := srcPrefix;
      this.scrollMultiplier := scrollMultiplier;
      this.startTrigger := startTrigger;
      this.endTrigger := endTrigger;
      currentFrame := 1;
      imagesLoaded := true;
      canvasDimensions := Dimensions(originalWidth, originalHeight);
      images := map[];
      hasContext := false;
      backing := Dimensions(0.0, 0.0);
      contextScale := 1.0;
      paints := [];
    }

    /** The resize/orientation handler. */
    method UpdateCanvasDimensions(innerWidth: real, innerHeight: real, largeViewportHeight: Option<real>)
      requires Valid()
      modifies this`canvasDimensions
      ensures Valid()
      ensures canvasDimensions == CanvasDimensionsFor(innerWidth, innerHeight, largeViewportHeight)
    {
      canvasDimensions := CanvasDimensionsFor(innerWidth, innerHeight, largeViewportHeight);
    }

    /**
     * The preload effect, given each frame's load outcome (`outcomes[i - 1]`
     * for frame `i`): a frame enters the store only when its image loads,
     * and `imagesLoaded` ends true whether or not some load failed.
     */
    method Preload(outcomes: seq<bool>)
      requires Valid()
      requires |outcomes| == totalFrames
      modifies this`images, this`imagesLoaded
      ensures Valid()
      ensures forall i :: i in images <==> i in old(images) || (1 <= i <= totalFrames && outcomes[i - 1])
      ensures imagesLoaded
    {
      var i := 1;
      while i <= totalFrames
        invariant 1 <= i <= totalFrames + 1
        invariant forall j :: j in images <==> j in old(images) || (1 <= j < i && outcomes[j - 1])
        invariant Valid()
      {
        if outcomes[i - 1] {
          images := images[i := FrameSrc(srcPrefix, i)];
        }
        i := i + 1;
      }
      match Settle(outcomes)
      case Fulfilled =>
        imagesLoaded := true;
      case Rejected =>
        imagesLoaded := true;
    }

    /**
     * The canvas set-up effect: nothing without a mounted canvas or before
     * the images are loaded; otherwise take the context, size the backing
     * store by the pixel ratio, scale the context by it, and paint frame 1
     * if it is stored.
     */
    method InitializeCanvas(canvasMounted: bool, devicePixelRatio: Option<real>)
      requires Valid()
      modifies this`hasContext, this`backing, this`contextScale, this`paints
      ensures Valid()
      ensures !canvasMounted ==>
                hasContext == old(hasContext) && backing == old(backing) &&
                contextScale == old(contextScale) && paints == old(paints)
      ensures canvasMounted ==> hasContext && contextScale == PixelRatio(devicePixelRatio)
      ensures canvasMounted ==> backing == BackingSize(canvasDimensions, devicePixelRatio)
      ensures canvasMounted ==>
                paints == old(paints) + if 1 in images then [Paint(1, images[1], canvasDimensions)] else []
    {
      if !canvasMounted || !imagesLoaded {
        return;
      }
      hasContext := true;
      var scale := PixelRatio(devicePixelRatio);
      backing := BackingSize(canvasDimensions, devicePixelRatio);
      contextScale := scale;
      if 1 in images {
        paints := paints + [Paint(1, images[1], canvasDimensions)];
      }
    }

    /**
     * The frame-change effect: skipped without a context or when the
     * current frame is not in the store (the canvas keeps its last paint).
     */
    method PaintCurrentFrame()
      requires Valid()
      modifies this`paints
      ensures Valid()
      ensures paints == old(paints) +
                if hasContext && currentFrame in images
                then [Paint(currentFrame, images[currentFrame], canvasDimensions)] else []
    {
      if !hasContext || currentFrame !in images {
        return;
      }
      paints := paints + [Paint(currentFrame, images[currentFrame], canvasDimensions)];
    }

    /** The scroll handler: the frame for the window's scroll position, or no change when it cannot scroll. */
    method HandleScroll(pageYOffset: real, documentScrollTop: real, scrollHeight: real, innerHeight: real)
      requires Valid()
      modifies this`currentFrame
      ensures Valid()
      ensures var frame := FrameForScroll(ScrollTop(pageYOffset, documentScrollTop), scrollHeight, innerHeight,
                                          startTrigger, endTrigger, totalFrames, scrollMultiplier);
              currentFrame == if frame.Some? then frame.value else old(currentFrame)
      ensures scrollHeight - innerHeight <= 0.0 ==> currentFrame == old(currentFrame)
    {
      if !imagesLoaded {
        return;
      }
      var scrollTop := ScrollTop(pageYOffset, documentScrollTop);
      match FrameForScroll(scrollTop, scrollHeight, innerHeight, startTrigger, endTrigger, totalFrames, scrollMultiplier)
      case None =>
      case Some(frame) =>
        currentFrame := frame;
    }
  }
}

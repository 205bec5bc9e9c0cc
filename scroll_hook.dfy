/**
 * `useScrollAnimation`: the image-swap variant of the scroll hook.  It
 * starts unloaded, preloads every frame, and only once `imagesLoaded` is
 * true attaches a window scroll listener and runs it once.  The
 * `containerRef` argument is kept but never read: progress comes from the
 * window's scroll values alone.
 */
module ScrollHook {
  import opened ScrollProgress
  import opened FrameStore

  /** A scroll container element, with the scroll values it would offer. */
  class ScrollContainer {
    var scrollTop: real
    var scrollHeight: real
    constructor (scrollTop: real, scrollHeight: real)
      ensures this.scrollTop == scrollTop && this.scrollHeight == scrollHeight
    {
      this.scrollTop := scrollTop;
      this.scrollHeight := scrollHeight;
    }
  }

  class ScrollAnimation {
    const totalFrames: int
    const srcPrefix: string
    const scrollMultiplier: real
    const containerRef: ScrollContainer?
    const startTrigger: real
    const endTrigger: real

    var currentFrame: int
    var imagesLoaded: bool
    /** Whether the window scroll listener is attached. */
    var listening: bool
    /** The image sources requested by the preload effect, in request order. */
    var requests: seq<string>

    ghost predicate Valid()
      reads this
    {
      && totalFrames >= 1
      && 1 <= currentFrame <= totalFrames
      && (listening ==> imagesLoaded)
    }

    constructor (totalFrames: int, srcPrefix: string, scrollMultiplier: real,
                 containerRef: ScrollContainer?, startTrigger: real, endTrigger: real)
      requires totalFrames >= 1
      ensures Valid()
      ensures this.totalFrames == totalFrames && this.srcPrefix == srcPrefix
      ensures this.scrollMultiplier == scrollMultiplier && this.containerRef == containerRef
      ensures this.startTrigger == startTrigger && this.endTrigger == endTrigger
      ensures currentFrame == 1 && !imagesLoaded && !listening && requests == []
    {
      this.totalFrames := totalFrames;
      this.srcPrefix := srcPrefix;
      this.scrollMultiplier := scrollMultiplier;
      this.containerRef := containerRef;
      this.startTrigger := startTrigger;
      this.endTrigger := endTrigger;
      currentFrame := 1;
      imagesLoaded := false;
      listening := false;
      requests := [];
    }

    /** The preload effect issues one request per frame, frames 1 to `totalFrames` in order. */
    method Preload()
      requires Valid()
      modifies this`requests
      ensures Valid()
      ensures |requests| == totalFrames
      ensures forall k :: 0 <= k < totalFrames ==> requests[k] == FrameSrc(srcPrefix, k + 1)
    {
      requests := RequestSources(srcPrefix, totalFrames);
    }

    /**
     * `Promise.all` over the requests settles: `imagesLoaded` becomes true on
     * the `then` path (every load succeeded) and on the `catch` path (some
     * load failed) alike.
     */
    method ImagesSettled(outcomes: seq<bool>)
      requires Valid()
      requires |outcomes| == |requests|
      modifies this`imagesLoaded
      ensures Valid()
      ensures imagesLoaded
    {
      match Settle(outcomes)
      case Fulfilled =>
        imagesLoaded := true;
      case Rejected =>
        imagesLoaded := true;
    }

    /**
     * The scroll effect, run whenever `imagesLoaded` changes: nothing while
     * the images are loading; once loaded, attach the listener and run the
     * handler once at the current scroll position.
     */
    method ScrollEffect(pageYOffset: real, documentScrollTop: real, scrollHeight: real, innerHeight: real)
      requires Valid()
      modifies this`listening, this`currentFrame
      ensures Valid()
      ensures listening == (old(listening) || imagesLoaded)
      ensures !imagesLoaded ==> currentFrame == old(currentFrame) && listening == old(listening)
      ensures imagesLoaded ==>
                currentFrame == WindowFrame(pageYOffset, documentScrollTop, scrollHeight, innerHeight, old(currentFrame))
    {
      if !imagesLoaded {
        return;
      }
      listening := true;
      HandleScroll(pageYOffset, documentScrollTop, scrollHeight, innerHeight);
    }

    /**
     * The frame the scroll handler leaves: the selected frame for the window
     * scroll position, or `previous` when the page cannot scroll.  The
     * container's own scroll values play no part.
     */
    function WindowFrame(pageYOffset: real, documentScrollTop: real, scrollHeight: real, innerHeight: real,
                         previous: int): (frame: int)
      reads this
      requires Valid()
      requires 1 <= previous <= totalFrames
      ensures 1 <= frame <= totalFrames
      ensures scrollHeight - innerHeight <= 0.0 ==> frame == previous
      ensures scrollHeight - innerHeight > 0.0 ==>
                frame == FrameForFraction(ScrollTop(pageYOffset, documentScrollTop) / (scrollHeight - innerHeight),
                                          startTrigger, endTrigger, totalFrames, scrollMultiplier)
    {
      var frame := FrameForScroll(ScrollTop(pageYOffset, documentScrollTop), scrollHeight, innerHeight,
                                  startTrigger, endTrigger, totalFrames, scrollMultiplier);
      if frame.Some? then frame.value else previous
    }

    /** A window scroll event: handled only while the listener is attached. */
    method HandleScroll(pageYOffset: real, documentScrollTop: real, scrollHeight: real, innerHeight: real)
      requires Valid()
      modifies this`currentFrame
      ensures Valid()
      ensures !listening ==> currentFrame == old(currentFrame)
      ensures listening ==>
                currentFrame == WindowFrame(pageYOffset, documentScrollTop, scrollHeight, innerHeight, old(currentFrame))
    {
      if !listening {
        return;
      }
      var scrollTop := ScrollTop(pageYOffset, documentScrollTop);
      match FrameForScroll(scrollTop, scrollHeight, innerHeight, startTrigger, endTrigger, totalFrames, scrollMultiplier)
      case None =>
      case Some(frame) =>
        currentFrame := frame;
    }
  }

  /**
   * Two hooks that differ only in their container select the same frame
   * for the same window scroll values.
   */
  lemma ContainerIsIgnored(a: ScrollAnimation, b: ScrollAnimation,
                           pageYOffset: real, documentScrollTop: real, scrollHeight: real, innerHeight: real,
                           previous: int)
    requires a.Valid() && b.Valid()
    requires a.totalFrames == b.totalFrames && a.scrollMultiplier == b.scrollMultiplier
    requires a.startTrigger == b.startTrigger && a.endTrigger == b.endTrigger
    requires 1 <= previous <= a.totalFrames
    ensures a.WindowFrame(pageYOffset, documentScrollTop, scrollHeight, innerHeight, previous)
         == b.WindowFrame(pageYOffset, documentScrollTop, scrollHeight, innerHeight, previous)
  {
  }
}

/**
 * The `/video` page's `ScrollSequence`: a fixed 76-frame sequence whose
 * file names are zero-padded to three digits, a floor-based frame index
 * with no guard against an unscrollable page, and one animation-frame
 * callback per scroll event (no coalescing).
 */
module VideoPage {
  import opened Wrappers
  import opened RealArith
  import Decimal

  const FrameCount: int := 76
  const FramePrefix: string := "/scene1/ezgif-frame-"

  /** `String(n)` for an integer. */
  function IntToString(n: int): (s: string)
    ensures n >= 0 ==> |s| >= 1 && Decimal.AllDigits(s) && Decimal.ParseDigits(s) == n && (|s| == 1 || s[0] != '0')
    ensures n < 0 ==> |s| >= 2 && s[0] == '-' && Decimal.AllDigits(s[1..]) && Decimal.ParseDigits(s[1..]) == -n
  {
    if n < 0 then
      Decimal.ParseNatToString(-n);
      var digits := Decimal.NatToString(-n);
      assert ("-" + digits)[1..] == digits;
      "-" + digits
    else
      Decimal.ParseNatToString(n);
      Decimal.NatToString(n)
  }

  /** `currentFrame(index)`: `/scene1/ezgif-frame-` + the index padded with zeros to three characters + `.png`. */
  function FrameFile(index: int): (f: string)
    ensures |f| >= |FramePrefix| + 7
    ensures f[..|FramePrefix|] == FramePrefix && f[|f| - 4..] == ".png"
  {
    var f := FramePrefix + Decimal.PadStart(IntToString(index), 3, '0') + ".png";
    assert f[..|FramePrefix|] == FramePrefix;
    f
  }

  /** The three characters between the prefix and `.png` spell the frame number, for frames 1 to 999. */
  lemma FrameFileDigits(index: int)
    requires 1 <= index <= 999
    ensures var f := FrameFile(index);
            |f| == |FramePrefix| + 7 &&
            f[..|FramePrefix|] == FramePrefix && f[|FramePrefix| + 3..] == ".png" &&
            Decimal.AllDigits(f[|FramePrefix|..|FramePrefix| + 3]) &&
            Decimal.ParseDigits(f[|FramePrefix|..|FramePrefix| + 3]) == index
  {
    var digits := Decimal.NatToString(index);
    Decimal.NatToStringLength(index);
    var padded := Decimal.PadStart(digits, 3, '0');
    assert padded == Decimal.Repeat('0', 3 - |digits|) + digits;
    Decimal.ParseLeadingZeros(3 - |digits|, digits);
    Decimal.ParseNatToString(index);
    var f := FrameFile(index);
    assert f[|FramePrefix|..|FramePrefix| + 3] == padded;
  }

  /** Frames 1 to 999 have distinct file names. */
  lemma FrameFileInjective(i: int, j: int)
    requires 1 <= i <= 999 && 1 <= j <= 999
    requires FrameFile(i) == FrameFile(j)
    ensures i == j
  {
    FrameFileDigits(i);
    FrameFileDigits(j);
  }

  /** The argument `currentFrame` receives: a number, or nothing at all. */
  datatype JsArgument = Undefined | Number(n: int)

  datatype TypeError = CannotReadToStringOfUndefined

  /** `currentFrame` as written: `(index).toString()` throws when `index` is undefined. */
  function CurrentFrame(index: JsArgument): (r: Result<string, TypeError>)
    ensures r.Failure? <==> index.Undefined?
    ensures index.Number? ==> r.value == FrameFile(index.n)
  {
    match index
    case Undefined => Failure(CannotReadToStringOfUndefined)
    case Number(n) => Success(FrameFile(n))
  }

  /** The initial `currentFrame()` call at mount passes no index, and throws. */
  lemma UndefinedIndexThrows()
    ensures CurrentFrame(Undefined) == Failure(CannotReadToStringOfUndefined)
  {
  }

  /** `preloadImages`: one request per frame, frames 1 to 76 in order. */
  function PreloadSources(): (sources: seq<string>)
    ensures |sources| == FrameCount
    ensures forall k :: 0 <= k < FrameCount ==> sources[k] == FrameFile(k + 1)
  {
    seq(FrameCount, k requires 0 <= k < FrameCount => FrameFile(k + 1))
  }

  /** No frame file is requested twice. */
  lemma PreloadSourcesDistinct(i: int, j: int)
    requires 0 <= i < j < FrameCount
    ensures PreloadSources()[i] != PreloadSources()[j]
  {
    if PreloadSources()[i] == PreloadSources()[j] {
      FrameFileInjective(i + 1, j + 1);
    }
  }

  /**
   * `Math.min(frameCount - 1, Math.floor(scrollFraction * frameCount))`:
   * the band of width 1/76 the fraction falls into, the last band also
   * taking every fraction from 75/76 on.
   */
  function FrameIndex(scrollFraction: real): (index: int)
    ensures index <= FrameCount - 1
    ensures scrollFraction >= 0.0 ==> index >= 0
    ensures scrollFraction >= 1.0 ==> index == FrameCount - 1
    ensures index == FrameCount - 1 <==> scrollFraction * FrameCount as real >= (FrameCount - 1) as real
    ensures index == FrameCount - 1 ||
            (index as real <= scrollFraction * FrameCount as real < (index + 1) as real)
  {
    var band := (scrollFraction * FrameCount as real).Floor;
    if FrameCount - 1 <= band then FrameCount - 1 else band
  }

  /** Scrolling further never selects an earlier frame. */
  lemma FrameIndexMonotone(f1: real, f2: real)
    requires f1 <= f2
    ensures FrameIndex(f1) <= FrameIndex(f2)
  {
    FloorMonotone(f1 * FrameCount as real, f2 * FrameCount as real);
  }

  /**
   * The frame `handleScroll` asks for: the index plus one.  There is no guard
   * for a page that cannot scroll, so the caller must have
   * `scrollHeight - innerHeight > 0`.
   */
  function ScrollFrame(scrollTop: real, scrollHeight: real, innerHeight: real): (frame: int)
    requires scrollHeight - innerHeight > 0.0
    ensures scrollTop >= 0.0 ==> 1 <= frame <= FrameCount
    ensures scrollTop >= scrollHeight - innerHeight ==> frame == FrameCount
  {
    var maxScrollTop := scrollHeight - innerHeight;
    assert scrollTop >= maxScrollTop ==> scrollTop / maxScrollTop >= 1.0;
    FrameIndex(scrollTop / maxScrollTop) + 1
  }

  /** Every frame the scroll handler can ask for was preloaded. */
  lemma ScrolledFrameIsPreloaded(scrollTop: real, scrollHeight: real, innerHeight: real)
    requires scrollHeight - innerHeight > 0.0 && scrollTop >= 0.0
    ensures FrameFile(ScrollFrame(scrollTop, scrollHeight, innerHeight)) in PreloadSources()
  {
    var frame := ScrollFrame(scrollTop, scrollHeight, innerHeight);
    assert PreloadSources()[frame - 1] == FrameFile(frame);
  }

  /** The initial frame of the corrected mount is preloaded too. */
  lemma InitialFrameIsPreloaded()
    ensures CurrentFrame(Number(1)).Success? && CurrentFrame(Number(1)).value in PreloadSources()
  {
    assert PreloadSources()[0] == FrameFile(1);
  }

  /** The page's canvas, its one `Image`, and its listeners. */
  class ScrollSequence {
    var canvasWidth: int
    var canvasHeight: int
    /** `img.src`, once set. */
    var imageSrc: Option<string>
    /** Whether the scroll and resize listeners are attached. */
    var listening: bool
    /** The sources preloaded, in request order. */
    var requested: seq<string>
    /** The `updateImage(frame)` callbacks scheduled and not yet run, oldest first. */
    var scheduled: seq<int>

    ghost predicate Valid()
      reads this
    {
      listening ==> requested == PreloadSources() && imageSrc.Some?
    }

    constructor ()
      ensures Valid() && !listening && imageSrc.None? && requested == [] && scheduled == []
    {
      canvasWidth, canvasHeight := 0, 0;
      imageSrc := None;
      listening := false;
      requested := [];
      scheduled := [];
    }

    /**
     * The effect as written: the canvas is sized to the window, then the
     * initial `currentFrame()` throws, so no image is set, nothing is
     * preloaded and no listener is attached.
     */
    method MountAsWritten(innerWidth: int, innerHeight: int) returns (thrown: bool)
      requires Valid()
      modifies this`canvasWidth, this`canvasHeight
      ensures Valid()
      ensures canvasWidth == innerWidth && canvasHeight == innerHeight
      ensures thrown
    {
      canvasWidth := innerWidth;
      canvasHeight := innerHeight;
      var initial := CurrentFrame(Undefined);
      thrown := initial.Failure?;
    }

    /**
     * The effect with the initial image at frame 1: the canvas is sized to
     * the window, the image shows frame 1, all 76 frames are preloaded and
     * the listeners are attached.
     */
    method Mount(innerWidth: int, innerHeight: int)
      requires Valid()
      modifies this`canvasWidth, this`canvasHeight, this`imageSrc, this`requested, this`listening
      ensures Valid()
      ensures canvasWidth == innerWidth && canvasHeight == innerHeight
      ensures imageSrc == Some(FrameFile(1)) && listening && requested == PreloadSources()
    {
      canvasWidth := innerWidth;
      canvasHeight := innerHeight;
      imageSrc := Some(FrameFile(1));
      requested := PreloadSources();
      listening := true;
    }

    /** A scroll event: schedules one more `updateImage` callback, whatever is already pending. */
    method HandleScroll(scrollTop: real, scrollHeight: real, innerHeight: real)
      requires Valid()
      requires scrollHeight - innerHeight > 0.0
      modifies this`scheduled
      ensures Valid()
      ensures scheduled == old(scheduled) + if listening then [ScrollFrame(scrollTop, scrollHeight, innerHeight)] else []
    {
      if listening {
        scheduled := scheduled + [ScrollFrame(scrollTop, scrollHeight, innerHeight)];
      }
    }

    /** The display refresh runs every scheduled callback in order; the image ends on the last one's frame. */
    method RunAnimationFrame()
      requires Valid()
      modifies this`scheduled, this`imageSrc
      ensures Valid() && scheduled == []
      ensures imageSrc == if old(scheduled) == [] then old(imageSrc)
                          else Some(FrameFile(old(scheduled)[|old(scheduled)| - 1]))
    {
      var pending := scheduled;
      var i := 0;
      while i < |pending|
        invariant 0 <= i <= |pending|
        invariant Valid()
        invariant imageSrc == if i == 0 then old(imageSrc) else Some(FrameFile(pending[i - 1]))
      {
        imageSrc := Some(FrameFile(pending[i]));
        i := i + 1;
      }
      scheduled := [];
    }

    /** The resize handler: the canvas follows the window. */
    method HandleResize(innerWidth: int, innerHeight: int)
      requires Valid()
      modifies this`canvasWidth, this`canvasHeight
      ensures Valid()
      ensures listening ==> canvasWidth == innerWidth && canvasHeight == innerHeight
      ensures !listening ==> canvasWidth == old(canvasWidth) && canvasHeight == old(canvasHeight)
    {
      if listening {
        canvasWidth := innerWidth;
        canvasHeight := innerHeight;
      }
    }
  }
}

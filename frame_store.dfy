/**
 * What both scroll hooks share about preloading: the address of frame `i`,
 * the request loop over `1..totalFrames`, and how `Promise.all` over the
 * load outcomes settles.  A load outcome is an input (`true` = the image
 * loaded, `false` = its `onerror` fired).
 */
module FrameStore {
  import Decimal

  /** `${srcPrefix}${i}.png`: the frame number in plain decimal, no padding. */
  function FrameSrc(srcPrefix: string, i: nat): (src: string)
    ensures |src| >= |srcPrefix| + 5
    ensures src[..|srcPrefix|] == srcPrefix
    ensures src[|src| - 4..] == ".png"
    ensures Decimal.AllDigits(src[|srcPrefix|..|src| - 4])
    ensures Decimal.ParseDigits(src[|srcPrefix|..|src| - 4]) == i
    ensures |src| == |srcPrefix| + 5 || src[|srcPrefix|] != '0'
  {
    var digits := Decimal.NatToString(i);
    Decimal.ParseNatToString(i);
    var src := srcPrefix + digits + ".png";
    assert src[|srcPrefix|..|src| - 4] == digits;
    assert src[|srcPrefix|] == digits[0];
    src
  }

  /** Distinct frames have distinct addresses under the same prefix. */
  lemma FrameSrcInjective(srcPrefix: string, i: nat, j: nat)
    requires FrameSrc(srcPrefix, i) == FrameSrc(srcPrefix, j)
    ensures i == j
  {
  }

  /**
   * The preload loop `for (let i = 1; i <= totalFrames; i++)`: one request
   * per frame, in frame order.
   */
  method RequestSources(srcPrefix: string, totalFrames: int) returns (requests: seq<string>)
    ensures |requests| == if totalFrames < 0 then 0 else totalFrames
    ensures forall k :: 0 <= k < |requests| ==> requests[k] == FrameSrc(srcPrefix, k + 1)
  {
    requests := [];
    var i := 1;
    while i <= totalFrames
      invariant 1 <= i && (totalFrames >= 0 ==> i <= totalFrames + 1) && (totalFrames < 1 ==> i == 1)
      invariant |requests| == i - 1
      invariant forall k :: 0 <= k < |requests| ==> requests[k] == FrameSrc(srcPrefix, k + 1)
    {
      requests := requests + [FrameSrc(srcPrefix, i)];
      i := i + 1;
    }
  }

  /**
   * How `Promise.all` over the frame loads settles once every load has an
   * outcome.  It mirrors the `.then`/`.catch` split of the preload effects;
   * both arms set `imagesLoaded`, so the outcome decides which arm runs but
   * not the resulting state.
   */
  datatype Settlement = Fulfilled | Rejected

  function Settle(outcomes: seq<bool>): (s: Settlement)
    ensures s == Fulfilled <==> forall k :: 0 <= k < |outcomes| ==> outcomes[k]
  {
    if forall k :: 0 <= k < |outcomes| ==> outcomes[k] then Fulfilled else Rejected
  }
}

/** The home page's banner carousel: the banners with a clone of the last one in front
    and of the first one behind, an index stepped by the arrows, the dots and the
    auto-advance, and the reset that jumps from a clone back to the real banner it
    copies with the slide animation switched off. */
module BannerSlider {
  import opened Options
  import opened Text

  datatype Banner = Banner(id: string, imageUrl: string, link: Option<string>)

  /** `[banners[banners.length - 1], ...banners, banners[0]]` */
  function Extended(banners: seq<Banner>): (r: seq<Banner>)
    requires |banners| > 0
    ensures |r| == |banners| + 2
    ensures r[0] == banners[|banners| - 1] && r[|r| - 1] == banners[0]
    ensures r[1..|r| - 1] == banners
    ensures forall i :: 1 <= i <= |banners| ==> r[i] == banners[i - 1]
  {
    [banners[|banners| - 1]] + banners + [banners[0]]
  }

  /** The slides drawn: none at all without banners. */
  function Slides(banners: seq<Banner>): (r: Option<seq<Banner>>)
    ensures r.None? <==> |banners| == 0
    ensures r.Some? ==> |r.value| == |banners| + 2
  {
    if |banners| == 0 then None else Some(Extended(banners))
  }

  /** The banner at slide `index`, if that slide exists. */
  function VisibleAt(banners: seq<Banner>, index: int): Option<Banner>
  {
    if |banners| > 0 && 0 <= index < |banners| + 2 then Some(Extended(banners)[index]) else None
  }

  /** A slide's target: `banner.link || "#"`. */
  function Href(b: Banner): string
  {
    OrOpt(b.link, "#")
  }

  /** One setter call of the slider. */
  datatype Step = SetAnimate(on: bool) | SetIndex(to: int)

  /** The slider's rendered state. */
  datatype View = View(index: int, animate: bool)

  function RunSteps(v: View, steps: seq<Step>): View
    decreases |steps|
  {
    if steps == [] then v
    else
      var w := match steps[0]
        case SetAnimate(on) => v.(animate := on)
        case SetIndex(to) => v.(index := to);
      RunSteps(w, steps[1..])
  }

  /** The loop effect's timed setter calls for `n` banners when the index is `index`:
      on the trailing clone, jump to the first banner; on the leading clone, jump to
      the last; elsewhere nothing. */
  function ResetSteps(n: nat, index: int): seq<Step>
  {
    if index == n + 1 then [SetAnimate(false), SetIndex(1), SetAnimate(true)]
    else if index == 0 then [SetAnimate(false), SetIndex(n), SetAnimate(true)]
    else []
  }

  /** Every jump is made with the animation off and is followed by switching it on. */
  lemma JumpsAreNotAnimated(n: nat, index: int, k: int)
    requires 0 <= k < |ResetSteps(n, index)| && ResetSteps(n, index)[k].SetIndex?
    ensures 0 < k < |ResetSteps(n, index)| - 1
    ensures ResetSteps(n, index)[k - 1] == SetAnimate(false)
    ensures ResetSteps(n, index)[k + 1] == SetAnimate(true)
  {
  }

  /** The reset lands on a real banner, shows the same picture as the clone it
      leaves, and switches the animation back on; away from the clones it changes
      nothing. */
  lemma ResetSpec(banners: seq<Banner>, v: View)
    requires |banners| > 0
    ensures var n := |banners|;
            var w := RunSteps(v, ResetSteps(n, v.index));
            && (v.index == n + 1 ==> w == View(1, true))
            && (v.index == 0 ==> w == View(n, true))
            && (v.index != 0 && v.index != n + 1 ==> w == v)
            && (0 <= v.index <= n + 1 ==> 1 <= w.index <= n && VisibleAt(banners, w.index) == VisibleAt(banners, v.index))
  {
    var n := |banners|;
    var e := Extended(banners);
    if v.index == n + 1 {
      assert RunSteps(v, ResetSteps(n, v.index)) == RunSteps(View(1, false), [SetAnimate(true)]);
      assert e[n + 1] == e[1];
    } else if v.index == 0 {
      assert RunSteps(v, ResetSteps(n, v.index)) == RunSteps(View(n, false), [SetAnimate(true)]);
      assert e[0] == e[n];
    }
  }

  /** The index after the reset. */
  function AfterReset(n: nat, index: int): int
  {
    RunSteps(View(index, true), ResetSteps(n, index)).index
  }

  /** Stepping past either end wraps round: next from the last banner comes to the
      first, previous from the first comes to the last. */
  lemma WrapsAround(banners: seq<Banner>)
    requires |banners| > 0
    ensures var n := |banners|;
            && AfterReset(n, n + 1) == 1 && VisibleAt(banners, AfterReset(n, n + 1)) == Some(banners[0])
            && AfterReset(n, 1 - 1) == n && VisibleAt(banners, AfterReset(n, 1 - 1)) == Some(banners[n - 1])
  {
    ResetSpec(banners, View(|banners| + 1, true));
    ResetSpec(banners, View(0, true));
  }

  /** Dot `idx` is lit when the index is `idx + 1`. */
  predicate DotLit(index: int, idx: int)
  {
    index == idx + 1
  }

  /** On a real banner exactly the dot of that banner is lit; on a clone no dot is lit,
      although the clone shows a real banner's picture. */
  lemma DotsFollowBanners(banners: seq<Banner>, index: int)
    requires |banners| > 0
    ensures 1 <= index <= |banners| ==>
              (forall idx :: 0 <= idx < |banners| ==> (DotLit(index, idx) <==> idx == index - 1))
              && VisibleAt(banners, index) == Some(banners[index - 1])
    ensures index == 0 || index == |banners| + 1 ==>
              (forall idx :: 0 <= idx < |banners| ==> !DotLit(index, idx))
              && VisibleAt(banners, index).Some?
  {
  }

  /** The mounted slider. It exists only with at least one banner: with none the
      component returns before any state is created. */
  class Slider {
    const banners: seq<Banner>
    var index: int
    var animate: bool

    constructor (bs: seq<Banner>)
      requires |bs| > 0
      ensures banners == bs && index == 1 && animate
      ensures VisibleAt(banners, index) == Some(bs[0])
    {
      banners, index, animate := bs, 1, true;
    }

    /** The next arrow, and each tick of the auto-advance interval. */
    method Next()
      modifies this
      ensures index == old(index) + 1 && animate == old(animate)
    {
      index := index + 1;
    }

    /** The previous arrow. */
    method Prev()
      modifies this
      ensures index == old(index) - 1 && animate == old(animate)
    {
      index := index - 1;
    }

    /** Clicking dot `idx`, one of the dots drawn. */
    method GoToDot(idx: int)
      requires 0 <= idx < |banners|
      modifies this
      ensures index == idx + 1 && animate == old(animate)
      ensures forall k :: 0 <= k < |banners| ==> (DotLit(index, k) <==> k == idx)
      ensures VisibleAt(banners, index) == Some(banners[idx])
    {
      index := idx + 1;
    }

    /** The loop effect, with its timed setter calls run in order and nothing between
        them; `steps` are those calls. */
    method LoopReset() returns (steps: seq<Step>)
      modifies this
      ensures steps == ResetSteps(|banners|, old(index))
      ensures View(index, animate) == RunSteps(View(old(index), old(animate)), steps)
    {
      steps := ResetSteps(|banners|, index);
      if index == |banners| + 1 {
        animate := false;
        index := 1;
        animate := true;
      } else if index == 0 {
        animate := false;
        index := |banners|;
        animate := true;
      }
      assert steps == [] || RunSteps(View(old(index), old(animate)), steps)
                            == RunSteps(View(index, false), [SetAnimate(true)]);
    }
  }
}

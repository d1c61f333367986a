/** The order-progress bar, `src/components/track-order/ProgressBar.tsx`: one
    coloured segment and one label per section, the first `visibleSections`
    of them lit. */
module ProgressBar {
  import opened Strings

  datatype Section = Section(id: string, title: string, iconColor: string)

  /** What one section renders: whether its segment is filled (`completed`),
      whether it carries the current-section overlay, and its label with the
      label's colour. */
  datatype SegmentView = SegmentView(completed: bool, current: bool, caption: string, captionColor: string)

  const InactiveCaptionColor := "#9CA3AF"

  /** Section `i` of the bar: filled when `i < visibleSections`, current when
      it is the last filled one, labelled with its title up to the first ':'
      in its own colour when filled and grey otherwise. */
  function Segment(s: Section, i: int, visible: int): (v: SegmentView)
    ensures v.completed <==> i < visible
    ensures v.current <==> i == visible - 1
    ensures v.current ==> v.completed
    ensures v.caption <= s.title && ':' !in v.caption
    ensures v.captionColor == if v.completed then s.iconColor else InactiveCaptionColor
  {
    var completed := i < visible;
    BeforeFirstSpec(s.title, ':');
    SegmentView(completed, i == visible - 1, BeforeFirst(s.title, ':'),
                if completed then s.iconColor else InactiveCaptionColor)
  }

  /** The segments of the bar for `visibleSections`. */
  function Render(sections: seq<Section>, visible: int): (r: seq<SegmentView>)
    ensures |r| == |sections|
    ensures forall i :: 0 <= i < |r| ==> r[i] == Segment(sections[i], i, visible)
  {
    seq(|sections|, i requires 0 <= i < |sections| => Segment(sections[i], i, visible))
  }

  function CountCompleted(r: seq<SegmentView>): nat
    decreases |r|
  {
    if |r| == 0 then 0 else (if r[0].completed then 1 else 0) + CountCompleted(r[1..])
  }

  /** The filled segments are the first ones, as many as `visibleSections`
      allows; the current segment is the last filled one, and there is one
      exactly when `visibleSections` is between 1 and the number of sections. */
  lemma RenderShape(sections: seq<Section>, visible: int)
    ensures var r := Render(sections, visible);
      && (forall i, j :: 0 <= i < j < |r| && r[j].completed ==> r[i].completed)
      && (forall i :: 0 <= i < |r| ==> (r[i].completed <==> i < visible))
      && (forall i :: 0 <= i < |r| ==> (r[i].current <==> i == visible - 1))
      && (forall i :: 0 <= i < |r| && r[i].current ==> r[i].completed)
      && ((exists i :: 0 <= i < |r| && r[i].current) <==> 1 <= visible <= |sections|)
      && CountCompleted(r) == Clamp(visible, |sections|)
  {
    var r := Render(sections, visible);
    if 1 <= visible <= |sections| {
      assert r[visible - 1].current;
    }
    CountPrefix(r, visible);
  }

  function Clamp(v: int, n: nat): nat
  {
    if v < 0 then 0 else if v > n then n else v
  }

  lemma {:induction false} CountPrefix(r: seq<SegmentView>, visible: int)
    requires forall i :: 0 <= i < |r| ==> (r[i].completed <==> i < visible)
    ensures CountCompleted(r) == Clamp(visible, |r|)
    decreases |r|
  {
    if |r| > 0 {
      CountPrefix(r[1..], visible - 1);
    }
  }

  /** A label is `title.split(':')[0]`: the title up to its first ':' (all
      of it when there is none), coloured with the section's colour exactly
      when lit. */
  lemma Labels(sections: seq<Section>, visible: int, i: int)
    requires 0 <= i < |sections|
    ensures var v := Render(sections, visible)[i];
      && v.caption == Split(sections[i].title, ':')[0]
      && (':' !in sections[i].title ==> v.caption == sections[i].title)
      && v.captionColor == (if i < visible then sections[i].iconColor else InactiveCaptionColor)
  {
    BeforeFirstSpec(sections[i].title, ':');
  }
}

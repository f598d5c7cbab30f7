/**
 * The demo feed: key points of the bundled meeting summaries, the playback
 * effect that plays only the active, unpaused video, and the tap toggle.
 */
module DemoVideoFeed {
  import opened Common
  import opened Text
  import VideoFeed

  /** The number of bundled demo meetings (and videos). */
  const DemoMeetingCount: nat := 3

  /** `summarizeKeyPoints` of the demo: the first three cleaned lines, with no placeholders and no sentence split. */
  function SummarizeKeyPoints(summary: string): (r: seq<string>)
    ensures |r| <= 3
  {
    var lines := VideoFeed.LineCandidates(summary);
    Take(lines, 3)
  }

  /** Every demo key point is a non-empty trimmed excerpt of the summary with carriage returns removed, in order. */
  lemma KeyPointsAreTrimmedExcerpts(summary: string)
    ensures var r := SummarizeKeyPoints(summary);
      r == VideoFeed.LineCandidates(summary)[..|r|]
      && forall k :: 0 <= k < |r| ==>
        r[k] != "" && IsTrimmed(r[k]) && Contains(VideoFeed.RemoveReturns(summary), r[k])
  {
    var candidates := VideoFeed.LineCandidates(summary);
    var r := SummarizeKeyPoints(summary);
    VideoFeed.LineCandidatesContained(summary);
    forall k | 0 <= k < |r|
      ensures r[k] != "" && IsTrimmed(r[k]) && Contains(VideoFeed.RemoveReturns(summary), r[k])
    {
      assert r[k] == candidates[k];
    }
  }

  /** On a summary whose lines survive cleaning, the demo and the feed agree. */
  lemma AgreesWithFeed(summary: string)
    requires !IsBlank(summary) && VideoFeed.LineCandidates(summary) != []
    ensures SummarizeKeyPoints(summary) == VideoFeed.SummarizeKeyPoints(Some(summary))
  {
  }

  /** A blank summary has no key points in the demo, where the feed shows placeholders. */
  lemma BlankSummaryHasNoPoints()
    ensures SummarizeKeyPoints("") == []
  {
    assert VideoFeed.RemoveReturns("") == "";
    assert Split("", '\n') == [""];
    assert VideoFeed.CleanLines([""]) == [""];
  }
}

/** The demo feed's video playback: which of the three clips plays, and the pause toggles. */
module DemoPlayback {
  import DemoVideoFeed

  /**
   * The playback state of the demo feed: the visible slide, the pause flag of each slide, and
   * for each mounted video element whether the last call made on it was `play` (true) or `pause`.
   */
  class DemoPlayer {
    var activeIndex: int
    var pausedByIndex: map<int, bool>
    const mounted: seq<bool>
    const playing: array<bool>

    ghost predicate Valid()
      reads this
    {
      |mounted| == DemoVideoFeed.DemoMeetingCount && playing.Length == DemoVideoFeed.DemoMeetingCount
    }

    constructor (mounted: seq<bool>, playing: array<bool>)
      requires |mounted| == DemoVideoFeed.DemoMeetingCount && playing.Length == DemoVideoFeed.DemoMeetingCount
      ensures Valid() && activeIndex == 0 && pausedByIndex == map[]
      ensures this.mounted == mounted && this.playing == playing
    {
      activeIndex := 0;
      pausedByIndex := map[];
      this.mounted := mounted;
      this.playing := playing;
    }

    /** `Boolean(isPausedByIndex[i])`: an index never tapped is not paused. */
    function Paused(i: int): bool
      reads this
    {
      i in pausedByIndex && pausedByIndex[i]
    }

    /**
     * The playback effect: video `i` is played exactly when it is the active slide and not
     * paused, every other mounted video is paused, and unmounted slots are left alone.
     */
    method ApplyPlayback()
      requires Valid()
      modifies playing
      ensures forall i :: 0 <= i < DemoVideoFeed.DemoMeetingCount ==>
        playing[i] == (if mounted[i] then i == activeIndex && !Paused(i) else old(playing[i]))
      ensures (forall i :: 0 <= i < DemoVideoFeed.DemoMeetingCount && !mounted[i] ==> !old(playing[i])) ==>
        forall i :: 0 <= i < DemoVideoFeed.DemoMeetingCount && playing[i] ==> i == activeIndex
    {
      for i := 0 to DemoVideoFeed.DemoMeetingCount
        invariant forall j :: 0 <= j < i ==>
          playing[j] == (if mounted[j] then j == activeIndex && !Paused(j) else old(playing[j]))
        invariant forall j :: i <= j < DemoVideoFeed.DemoMeetingCount ==> playing[j] == old(playing[j])
      {
        // An unmounted slot has no video element to play or pause.
        if mounted[i] {
          var isActive := i == activeIndex;
          var isPaused := Paused(i);
          if isActive && !isPaused {
            playing[i] := true;
          } else {
            playing[i] := false;
          }
        }
      }
    }

    /** The tap handler: flips the pause flag of the tapped slide and of no other. */
    method TogglePause(index: int)
      modifies this
      ensures pausedByIndex == Toggled(old(pausedByIndex), index)
      ensures activeIndex == old(activeIndex)
    {
      pausedByIndex := Toggled(pausedByIndex, index);
    }
  }

  /** `{ ...previous, [index]: !previous[index] }`. */
  function Toggled(paused: map<int, bool>, index: int): map<int, bool> {
    paused[index := !(index in paused && paused[index])]
  }

  /** A tap flips the tapped flag and leaves every other flag as it was. */
  lemma ToggleFlipsOnlyTapped(paused: map<int, bool>, index: int, other: int)
    requires other != index
    ensures var t := Toggled(paused, index);
      (t[index] == !(index in paused && paused[index]))
      && ((other in t && t[other]) == (other in paused && paused[other]))
  {
  }

  /** Two taps on the same slide restore every pause flag. */
  lemma ToggleTwiceRestores(paused: map<int, bool>, index: int, i: int)
    ensures var t := Toggled(Toggled(paused, index), index);
      (i in t && t[i]) == (i in paused && paused[i])
  {
  }

  /**
   * After the effect at most one video plays, and it is the active one, provided no unmounted
   * slot was playing before: `before` and `after` are the play flags around `ApplyPlayback`.
   */
  lemma AtMostActivePlays(mounted: seq<bool>, before: seq<bool>, after: seq<bool>,
                          activeIndex: int, paused: int -> bool, i: int)
    requires |mounted| == |before| == |after| == DemoVideoFeed.DemoMeetingCount
    requires forall j :: 0 <= j < |after| ==>
      after[j] == (if mounted[j] then j == activeIndex && !paused(j) else before[j])
    requires forall j :: 0 <= j < |before| && !mounted[j] ==> !before[j]
    requires 0 <= i < |after| && after[i]
    ensures i == activeIndex && mounted[i] && !paused(i)
  {
  }
}

/** Tap tempo and the typed tempo field (src/components/TopBar/BPMControl.tsx
    and src/components/Transport/TransportControls.tsx). The window of recent
    taps is the component state; each handler takes it, together with the tap
    time `Date.now()` in milliseconds, and returns the new window and the tempo
    it reports, if any. */
module TapTempo {
  import opened Wrappers
  import JsText

  /** At most this many taps are averaged. */
  const TapWindow: nat := 4

  const DefaultMinBpm: int := 40
  const DefaultMaxBpm: int := 240

  /** `Math.max(lo, Math.min(hi, x))`. */
  function Clamp(x: int, lo: int, hi: int): (r: int)
    ensures lo <= hi ==> lo <= r <= hi
    ensures lo <= x <= hi ==> r == x
    ensures lo > hi ==> r == lo
  {
    var upper := if hi < x then hi else x;
    if lo > upper then lo else upper
  }

  /** `Math.round` on a finite value: the nearest integer, halves rounded up. */
  function Round(x: real): (r: int)
    ensures x - 0.5 < r as real <= x + 0.5
  {
    (x + 0.5).Floor
  }

  /** `[...taps, now].slice(-4)`: the newest taps, at most four, oldest first. */
  function RecentTaps(taps: seq<int>, now: int): (r: seq<int>)
    ensures |r| == if |taps| + 1 < TapWindow then |taps| + 1 else TapWindow
    ensures r[|r| - 1] == now
    ensures r == (taps + [now])[|taps| + 1 - |r|..]
  {
    var all := taps + [now];
    if |all| <= TapWindow then all else all[|all| - TapWindow..]
  }

  /** `reduce((a, b) => a + b, 0)`, summing left to right. */
  function Sum(xs: seq<int>): int {
    if |xs| == 0 then 0 else Sum(xs[..|xs| - 1]) + xs[|xs| - 1]
  }

  /** The gaps between consecutive taps, built by the handler's `for` loop. */
  method Intervals(recent: seq<int>) returns (intervals: seq<int>)
    requires |recent| >= 1
    ensures |intervals| == |recent| - 1
    ensures forall k :: 0 <= k < |intervals| ==> intervals[k] == recent[k + 1] - recent[k]
  {
    intervals := [];
    var i := 1;
    while i < |recent|
      invariant 1 <= i <= |recent|
      invariant |intervals| == i - 1
      invariant forall k :: 0 <= k < |intervals| ==> intervals[k] == recent[k + 1] - recent[k]
    {
      intervals := intervals + [recent[i] - recent[i - 1]];
      i := i + 1;
    }
  }

  /** The gaps between consecutive taps add up to the time from the first tap
      to the last. */
  lemma {:induction false} IntervalsTelescope(recent: seq<int>, intervals: seq<int>)
    requires |recent| >= 1 && |intervals| == |recent| - 1
    requires forall k :: 0 <= k < |intervals| ==> intervals[k] == recent[k + 1] - recent[k]
    ensures Sum(intervals) == recent[|recent| - 1] - recent[0]
  {
    if |intervals| > 0 {
      var n := |recent|;
      IntervalsTelescope(recent[..n - 1], intervals[..n - 2]);
      assert recent[..n - 1][n - 2] == recent[n - 2];
    }
  }

  /** The tempo reported for a mean tap interval of `mean` milliseconds,
      clamped to [lo, hi]. A zero mean divides to +Infinity, which the clamp
      turns into `Math.max(lo, hi)`. */
  function BpmOfMeanInterval(mean: real, lo: int, hi: int): (bpm: int)
    ensures lo <= hi ==> lo <= bpm <= hi
    ensures mean == 0.0 && lo <= hi ==> bpm == hi
  {
    if mean == 0.0 then Clamp(hi, lo, hi)
    else Clamp(Round(60000.0 / mean), lo, hi)
  }

  /** The tempo of a window of at least two taps, in closed form: the mean
      interval is the span from first to last tap over the number of gaps. */
  function WindowBpm(recent: seq<int>, lo: int, hi: int): int
    requires |recent| >= 2
  {
    BpmOfMeanInterval((recent[|recent| - 1] - recent[0]) as real / (|recent| - 1) as real, lo, hi)
  }

  /** `handleTapTempo`: append the tap, keep the last four, and once two or
      more are kept report the rounded, clamped tempo of their mean interval. */
  method HandleTapTempo(tapTimes: seq<int>, now: int, lo: int, hi: int)
      returns (recentTaps: seq<int>, bpm: Option<int>)
    ensures recentTaps == RecentTaps(tapTimes, now)
    ensures 1 <= |recentTaps| <= TapWindow && recentTaps[|recentTaps| - 1] == now
    ensures bpm.Some? <==> |recentTaps| >= 2
    ensures bpm.Some? ==> bpm.value == WindowBpm(recentTaps, lo, hi)
    ensures bpm.Some? && lo <= hi ==> lo <= bpm.value <= hi
  {
    recentTaps := RecentTaps(tapTimes, now);
    if |recentTaps| >= 2 {
      var intervals := Intervals(recentTaps);
      var total := Sum(intervals);
      IntervalsTelescope(recentTaps, intervals);
      assert total == recentTaps[|recentTaps| - 1] - recentTaps[0];
      var avgInterval := total as real / |intervals| as real;
      bpm := Some(BpmOfMeanInterval(avgInterval, lo, hi));
    } else {
      bpm := None;
    }
  }

  /** The transport's tap button: the same handler with the fixed range
      40..240. */
  method TransportTapTempo(tapTimes: seq<int>, now: int) returns (recentTaps: seq<int>, bpm: Option<int>)
    ensures recentTaps == RecentTaps(tapTimes, now)
    ensures bpm.Some? <==> |tapTimes| >= 1
    ensures bpm.Some? ==> bpm.value == WindowBpm(recentTaps, DefaultMinBpm, DefaultMaxBpm)
    ensures bpm.Some? ==> DefaultMinBpm <= bpm.value <= DefaultMaxBpm
  {
    recentTaps, bpm := HandleTapTempo(tapTimes, now, DefaultMinBpm, DefaultMaxBpm);
  }

  /** Taps a steady `gap` milliseconds apart report 60000 / gap, rounded, when
      that lies in range. */
  lemma SteadyTapsReportTheirTempo(recent: seq<int>, gap: int, lo: int, hi: int)
    requires |recent| >= 2 && gap > 0
    requires forall k :: 0 <= k < |recent| - 1 ==> recent[k + 1] - recent[k] == gap
    requires lo <= Round(60000.0 / gap as real) <= hi
    ensures WindowBpm(recent, lo, hi) == Round(60000.0 / gap as real)
  {
    var intervals := seq(|recent| - 1, k requires 0 <= k < |recent| - 1 => recent[k + 1] - recent[k]);
    IntervalsTelescope(recent, intervals);
    SumOfConstant(intervals, gap);
    MeanOfEqualParts(|recent| - 1, gap);
  }

  lemma MeanOfEqualParts(m: int, g: int)
    requires m > 0
    ensures (m * g) as real / m as real == g as real
  {
    assert (m * g) as real == m as real * g as real;
  }

  lemma {:induction false} SumOfConstant(xs: seq<int>, c: int)
    requires forall k :: 0 <= k < |xs| ==> xs[k] == c
    ensures Sum(xs) == |xs| * c
  {
    if |xs| > 0 {
      SumOfConstant(xs[..|xs| - 1], c);
    }
  }

  /** `handleNumberBlur` (also Enter): the typed text, read by `parseInt`,
      clamped to [lo, hi]; text that is not a number reports nothing. */
  function CommitTypedBpm(editValue: string, lo: int, hi: int): (r: Option<int>)
    ensures r.Some? <==> JsText.ParseInt(editValue).Some?
    ensures r.Some? && lo <= hi ==> lo <= r.value <= hi
    ensures r.Some? && lo <= JsText.ParseInt(editValue).value <= hi ==> r.value == JsText.ParseInt(editValue).value
  {
    match JsText.ParseInt(editValue)
    case Some(n) => Some(Clamp(n, lo, hi))
    case None => None
  }

  /** Escape reports nothing and puts the current tempo's decimal text back in
      the field. */
  function EscapeEditText(value: int): (text: string)
    ensures JsText.ParseInt(text) == Some(value)
  {
    JsText.ParseIntOfDecimal(value);
    JsText.IntToDecimal(value)
  }

  /** Committing the text Escape restored reports the current tempo again, when
      it lies in range. */
  lemma EscapeThenCommit(value: int, lo: int, hi: int)
    requires lo <= value <= hi
    ensures CommitTypedBpm(EscapeEditText(value), lo, hi) == Some(value)
  {
  }
}

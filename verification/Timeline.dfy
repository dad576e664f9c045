/** The activity timeline of a session, from samples sorted by time. */
module Timeline {
  import opened Wrappers
  import Buckets

  /** One line of the activity stream; counts an older recorder left out are absent. Times are in seconds. */
  datatype Sample = Sample(
    ts: real,
    window: Option<string>,
    mouse: Option<(real, real)>,
    clicks: Option<real>,
    keys: Option<real>,
    hotkeys: nat)

  predicate Sorted(samples: seq<Sample>) {
    forall i, j | 0 <= i < j < |samples| :: samples[i].ts <= samples[j].ts
  }

  /** The window title, unless it is missing or empty. */
  function Title(s: Sample): Option<string> {
    if s.window == Some("") then None else s.window
  }

  function Abs(x: real): (r: real)
    ensures r >= 0.0
  {
    if x < 0.0 then -x else x
  }

  function Offset(samples: seq<Sample>, i: nat): real
    requires i < |samples|
  {
    samples[i].ts * 1000.0 - samples[0].ts * 1000.0
  }

  function Duration(samples: seq<Sample>): (r: real)
    requires samples != []
    ensures r >= 1.0
  {
    var last := Offset(samples, |samples| - 1);
    if last < 1.0 then 1.0 else last
  }

  function Count(bucketCount: int): (r: nat)
    ensures r >= 1
  {
    if bucketCount < 1 then 1 else bucketCount
  }

  function Width(samples: seq<Sample>, bucketCount: int): (r: real)
    requires samples != []
    ensures r > 0.0
  {
    Duration(samples) / Count(bucketCount) as real
  }

  function SlotOf(samples: seq<Sample>, bucketCount: int, i: nat): int
    requires i < |samples|
  {
    Buckets.Slot(Offset(samples, i), Width(samples, bucketCount), Count(bucketCount))
  }

  /**
   * Every sample falls into exactly one bucket: the one its time lies in, the last bucket including
   * the end of the session.
   */
  lemma SampleIsInItsBucket(samples: seq<Sample>, bucketCount: int, i: nat, k: int)
    requires Sorted(samples) && i < |samples| && 0 <= k < Count(bucketCount)
    ensures 0 <= SlotOf(samples, bucketCount, i) < Count(bucketCount)
    ensures SlotOf(samples, bucketCount, i) == k <==>
      var width := Width(samples, bucketCount);
      && Buckets.Edge(k, width) <= Offset(samples, i)
      && (Offset(samples, i) < Buckets.Edge(k + 1, width) ||
        (k == Count(bucketCount) - 1 && Offset(samples, i) <= Buckets.Edge(k + 1, width)))
  {
    var width := Width(samples, bucketCount);
    OffsetsInside(samples, i);
    Buckets.SlotExact(Offset(samples, i), width, Count(bucketCount), k);
    Buckets.Quotient(Duration(samples), Count(bucketCount) as real, width);
    assert Buckets.Edge(Count(bucketCount), width) == Duration(samples);
  }

  lemma OffsetsInside(samples: seq<Sample>, i: nat)
    requires Sorted(samples) && i < |samples|
    ensures 0.0 <= Offset(samples, i) <= Duration(samples)
  {
    assert samples[0].ts <= samples[i].ts <= samples[|samples| - 1].ts;
  }

  // ---------------------------------------------------------------- buckets

  datatype Tally = Tally(movement: real, keys: real, clicks: real, window: Option<string>)

  const NO_TALLY := Tally(0.0, 0.0, 0.0, None)

  /** The way of the pointer from the sample before, when both know it. */
  function Moved(samples: seq<Sample>, i: nat): (r: real)
    requires i < |samples|
    ensures r >= 0.0
  {
    if i > 0 && samples[i - 1].mouse.Some? && samples[i].mouse.Some?
    then Abs(samples[i].mouse.value.0 - samples[i - 1].mouse.value.0) +
      Abs(samples[i].mouse.value.1 - samples[i - 1].mouse.value.1)
    else 0.0
  }

  /** What sample `i` adds to its bucket; the first title names it. */
  function Added(t: Tally, samples: seq<Sample>, i: nat): Tally
    requires i < |samples|
  {
    Tally(
      t.movement + Moved(samples, i),
      t.keys + samples[i].keys.GetOr(0.0),
      t.clicks + samples[i].clicks.GetOr(0.0),
      if t.window.None? then Title(samples[i]) else t.window)
  }

  /** Bucket `b` after the first `n` samples. */
  function TallyOf(samples: seq<Sample>, bucketCount: int, n: nat, b: int): Tally
    requires n <= |samples|
  {
    if n == 0 then NO_TALLY
    else
      var before := TallyOf(samples, bucketCount, n - 1, b);
      if SlotOf(samples, bucketCount, n - 1) == b then Added(before, samples, n - 1) else before
  }

  /** All samples in one bucket. */
  function Whole(samples: seq<Sample>, n: nat): Tally
    requires n <= |samples|
  {
    if n == 0 then NO_TALLY else Added(Whole(samples, n - 1), samples, n - 1)
  }

  datatype Sums = Sums(movement: real, keys: real, clicks: real)

  /** The first `m` buckets together. */
  function SumOver(samples: seq<Sample>, bucketCount: int, n: nat, m: nat): Sums
    requires n <= |samples|
  {
    if m == 0 then Sums(0.0, 0.0, 0.0)
    else
      var s, t := SumOver(samples, bucketCount, n, m - 1), TallyOf(samples, bucketCount, n, m - 1);
      Sums(s.movement + t.movement, s.keys + t.keys, s.clicks + t.clicks)
  }

  lemma {:induction false} SumOverStep(samples: seq<Sample>, bucketCount: int, n: nat, m: nat)
    requires n < |samples|
    ensures var s, t := SumOver(samples, bucketCount, n, m), SumOver(samples, bucketCount, n + 1, m);
      if 0 <= SlotOf(samples, bucketCount, n) < m
      then t == Sums(s.movement + Moved(samples, n), s.keys + samples[n].keys.GetOr(0.0), s.clicks +
        samples[n].clicks.GetOr(0.0))
      else t == s
  {
    hide SlotOf, Moved;
    if m > 0 {
      SumOverStep(samples, bucketCount, n, m - 1);
    }
  }

  /** The buckets together hold what the samples together hold. */
  lemma {:induction false} BucketsConserve(samples: seq<Sample>, bucketCount: int, n: nat)
    requires Sorted(samples) && n <= |samples|
    ensures var s, w := SumOver(samples, bucketCount, n, Count(bucketCount)), Whole(samples, n);
      s.movement == w.movement && s.keys == w.keys && s.clicks == w.clicks
  {
    hide SlotOf, Moved, SumOver;
    if n == 0 {
      NoSums(samples, bucketCount, Count(bucketCount));
    } else {
      BucketsConserve(samples, bucketCount, n - 1);
      SumOverStep(samples, bucketCount, n - 1, Count(bucketCount));
      SampleIsInItsBucket(samples, bucketCount, n - 1, 0);
    }
  }

  lemma {:induction false} NoSums(samples: seq<Sample>, bucketCount: int, m: nat)
    ensures SumOver(samples, bucketCount, 0, m) == Sums(0.0, 0.0, 0.0)
  {
    if m > 0 {
      NoSums(samples, bucketCount, m - 1);
    }
  }

  /** Rounded, the buckets cover the session without gap or overlap. */
  lemma BucketsMeet(samples: seq<Sample>, bucketCount: int, k: nat)
    requires samples != [] && k < Count(bucketCount)
    ensures var width := Width(samples, bucketCount);
      && Buckets.Round(Buckets.Edge(0, width)) == 0
      && Buckets.Round(Buckets.Edge(k, width)) <= Buckets.Round(Buckets.Edge(k + 1, width))
      && Buckets.Round(Buckets.Edge(Count(bucketCount), width)) == Buckets.Round(Duration(samples))
  {
    var width := Width(samples, bucketCount);
    Buckets.Quotient(Duration(samples), Count(bucketCount) as real, width);
    Buckets.Scaled(k as real, (k + 1) as real, width);
    Buckets.RoundIsMonotone(Buckets.Edge(k, width), Buckets.Edge(k + 1, width));
    assert Buckets.Edge(Count(bucketCount), width) == Duration(samples);
  }

  // ------------------------------------------------------------------ focus

  datatype Focus = Focus(window: string, start: real, end: real)

  /** One more moment with `title` in front. */
  function Focused(focus: seq<Focus>, title: string, at: real): seq<Focus> {
    if focus != [] && focus[|focus| - 1].window == title
    then focus[|focus| - 1 := focus[|focus| - 1].(end := at)]
    else focus + [Focus(title, at, at)]
  }

  function FocusOf(samples: seq<Sample>, n: nat): seq<Focus>
    requires n <= |samples|
  {
    if n == 0 then []
    else
      var before := FocusOf(samples, n - 1);
      if Title(samples[n - 1]).Some? then Focused(before, Title(samples[n - 1]).value, Offset(samples, n - 1)) else
        before
  }

  /** In order, apart from each other, neighbours of different windows, and all of it by `now`. */
  ghost predicate InOrder(focus: seq<Focus>, now: real) {
    && (forall k | 0 <= k < |focus| :: 0.0 <= focus[k].start <= focus[k].end <= now)
    && (forall j, k | 0 <= j < k < |focus| :: focus[j].end <= focus[k].start)
    && (forall k | 0 < k < |focus| :: focus[k - 1].window != focus[k].window)
  }

  lemma FocusedKeepsOrder(focus: seq<Focus>, before: real, title: string, at: real)
    requires InOrder(focus, before) && 0.0 <= before <= at
    ensures InOrder(focus, at) && InOrder(Focused(focus, title, at), at)
  {
    var later, n := Focused(focus, title, at), |focus|;
    if n > 0 && focus[n - 1].window == title {
      assert later[n - 1] == focus[n - 1].(end := at) && forall k | 0 <= k < n - 1 :: later[k] == focus[k];
    } else {
      assert later[n] == Focus(title, at, at) && forall k | 0 <= k < n :: later[k] == focus[k];
    }
  }

  lemma {:induction false} FocusIsOrdered(samples: seq<Sample>, n: nat)
    requires Sorted(samples) && 0 < n <= |samples|
    ensures InOrder(FocusOf(samples, n), Offset(samples, n - 1))
  {
    hide InOrder, Focused;
    var at := Offset(samples, n - 1);
    OffsetsInside(samples, n - 1);
    if n == 1 {
      assert InOrder([], 0.0) by {
        NoFocus();
      }
      if Title(samples[0]).Some? {
        FocusedKeepsOrder([], 0.0, Title(samples[0]).value, at);
      }
      assert at == 0.0;
    } else {
      FocusIsOrdered(samples, n - 1);
      OffsetsInside(samples, n - 2);
      assert samples[n - 2].ts <= samples[n - 1].ts;
      FocusedKeepsOrder(FocusOf(samples, n - 1), Offset(samples, n - 2), Title(samples[n - 1]).GetOr(""), at);
    }
  }

  lemma NoFocus()
    ensures InOrder([], 0.0)
  {
  }

  /** Some interval of `title` contains the moment `at`. */
  ghost predicate Covered(focus: seq<Focus>, title: string, at: real) {
    exists k :: 0 <= k < |focus| && focus[k].window == title && focus[k].start <= at <= focus[k].end
  }

  lemma FocusedCovers(focus: seq<Focus>, before: real, title: string, at: real)
    requires InOrder(focus, before) && before <= at
    ensures Covered(Focused(focus, title, at), title, at)
    ensures forall other, then_ :: Covered(focus, other, then_) ==> Covered(Focused(focus, title, at), other, then_)
  {
    var later := Focused(focus, title, at);
    assert later[|later| - 1].window == title && later[|later| - 1].end == at;
    forall other, then_ | Covered(focus, other, then_) ensures Covered(later, other, then_) {
      var k :| 0 <= k < |focus| && focus[k].window == other && focus[k].start <= then_ <= focus[k].end;
      assert later[k].window == other && later[k].start <= then_ <= later[k].end;
    }
  }

  /** Every sample with a title lies in an interval of that title. */
  lemma {:induction false} FocusCoversSamples(samples: seq<Sample>, n: nat, i: nat)
    requires Sorted(samples) && i < n <= |samples| && Title(samples[i]).Some?
    ensures Covered(FocusOf(samples, n), Title(samples[i]).value, Offset(samples, i))
  {
    hide InOrder, Focused, Covered;
    var title := Title(samples[n - 1]);
    if n > 1 {
      FocusIsOrdered(samples, n - 1);
      assert samples[n - 2].ts <= samples[n - 1].ts;
      FocusedCovers(FocusOf(samples, n - 1), Offset(samples, n - 2), title.GetOr(""), Offset(samples, n - 1));
    } else {
      NoFocus();
      FocusedCovers([], 0.0, title.GetOr(""), Offset(samples, 0));
    }
    if i < n - 1 {
      FocusCoversSamples(samples, n - 1, i);
    }
  }

  // ----------------------------------------------------------- window totals

  /** Time credited to `w`: from the sample before to each sample that shows it. */
  function HeldBy(samples: seq<Sample>, n: nat, w: string): real
    requires n <= |samples|
  {
    if n <= 1 then 0.0
    else HeldBy(samples, n - 1, w) + if Title(samples[n - 1]) == Some(w) then
      Offset(samples, n - 1) - Offset(samples, n - 2) else 0.0
  }

  /** `w` is a key of the totals: some sample but the first shows it. */
  ghost predicate IsTotalled(samples: seq<Sample>, n: nat, w: string)
    requires n <= |samples|
  {
    exists i :: 0 < i < n && Title(samples[i]) == Some(w)
  }

  function HeldByAll(samples: seq<Sample>, n: nat, windows: seq<string>): real
    requires n <= |samples|
  {
    if windows == [] then 0.0
    else HeldByAll(samples, n, windows[..|windows| - 1]) + HeldBy(samples, n, windows[|windows| - 1])
  }

  ghost predicate Distinct(windows: seq<string>) {
    forall i, j | 0 <= i < j < |windows| :: windows[i] != windows[j]
  }

  lemma {:induction false} HeldByAllStep(samples: seq<Sample>, n: nat, windows: seq<string>)
    requires Distinct(windows) && 1 < n <= |samples|
    ensures HeldByAll(samples, n, windows) == HeldByAll(samples, n - 1, windows) +
      if Title(samples[n - 1]).Some? && Title(samples[n - 1]).value in windows then
        Offset(samples, n - 1) - Offset(samples, n - 2) else 0.0
  {
    if windows != [] {
      var front, last := windows[..|windows| - 1], windows[|windows| - 1];
      assert windows == front + [last];
      HeldByAllStep(samples, n, front);
    }
  }

  /** No moment is credited twice: the totals of different windows add up to no more than the session's span. */
  lemma {:induction false} TotalsFitTheSpan(samples: seq<Sample>, n: nat, windows: seq<string>)
    requires Sorted(samples) && Distinct(windows) && 0 < n <= |samples|
    ensures 0.0 <= HeldByAll(samples, n, windows) <= Offset(samples, n - 1)
  {
    if n == 1 {
      NothingHeld(samples, windows);
    } else {
      TotalsFitTheSpan(samples, n - 1, windows);
      HeldByAllStep(samples, n, windows);
      assert samples[n - 2].ts <= samples[n - 1].ts;
    }
  }

  lemma {:induction false} NothingHeld(samples: seq<Sample>, windows: seq<string>)
    requires samples != []
    ensures HeldByAll(samples, 1, windows) == 0.0
  {
    if windows != [] {
      NothingHeld(samples, windows[..|windows| - 1]);
    }
  }

  // ---------------------------------------------------------------- building

  datatype Bucket = Bucket(startMs: int, endMs: int, tally: Tally)

  datatype FocusMs = FocusMs(window: string, startMs: int, endMs: int)

  datatype View = View(
    durationMs: int,
    bucketMs: int,
    buckets: seq<Bucket>,
    focus: seq<FocusMs>,
    topWindows: seq<TopWindow>,
    sampleCount: nat,
    inputMeasured: bool)

  function RoundedFocus(focus: seq<Focus>): seq<FocusMs> {
    seq(|focus|, k requires 0 <= k < |focus| => FocusMs(focus[k].window, Buckets.Round(focus[k].start),
      Buckets.Round(focus[k].end)))
  }

  /** Rounding keeps the intervals in order and apart, and within the session. */
  lemma RoundedFocusIsOrdered(samples: seq<Sample>, j: nat, k: nat)
    requires Sorted(samples) && samples != [] && j < k < |FocusOf(samples, |samples|)|
    ensures var f := RoundedFocus(FocusOf(samples, |samples|));
      0 <= f[j].startMs <= f[j].endMs <= f[k].startMs <= f[k].endMs <= Buckets.Round(Duration(samples))
  {
    var focus := FocusOf(samples, |samples|);
    FocusIsOrdered(samples, |samples|);
    OffsetsInside(samples, |samples| - 1);
    Buckets.RoundIsMonotone(0.0, focus[j].start);
    Buckets.RoundIsMonotone(focus[j].start, focus[j].end);
    Buckets.RoundIsMonotone(focus[j].end, focus[k].start);
    Buckets.RoundIsMonotone(focus[k].start, focus[k].end);
    Buckets.RoundIsMonotone(focus[k].end, Duration(samples));
  }

  /** The sample proves that input was being counted. */
  predicate Measures(s: Sample) {
    s.keys.GetOr(0.0) > 0.0 || s.clicks.GetOr(0.0) > 0.0 || s.hotkeys > 0
  }

  /** A `Map` of totals: its keys in insertion order, and the time held by each. */
  datatype Totals = Totals(keys: seq<string>, held: map<string, real>)

  function Credited(t: Totals, window: string, held: real): Totals {
    if window in t.held then t.(held := t.held[window := t.held[window] + held])
    else Totals(t.keys + [window], t.held[window := held])
  }

  /** The windows with a total, in the order they first got one. */
  function WindowsOf(samples: seq<Sample>, n: nat): (r: seq<string>)
    requires n <= |samples|
    ensures Distinct(r) && forall w :: w in r <==> IsTotalled(samples, n, w)
  {
    if n <= 1 then []
    else
      var before, title := WindowsOf(samples, n - 1), Title(samples[n - 1]);
      if title.Some? && title.value !in before then before + [title.value] else before
  }

  ghost predicate TotalsAre(totals: Totals, samples: seq<Sample>, n: nat)
    requires n <= |samples|
  {
    && totals.keys == WindowsOf(samples, n)
    && forall w ::
       (w in totals.held <==> w in totals.keys) && (w in totals.held ==> totals.held[w] == HeldBy(samples, n, w))
  }

  datatype TopWindow = TopWindow(window: string, totalMs: int)

  function Rounded(samples: seq<Sample>, windows: seq<string>): seq<TopWindow> {
    seq(|windows|, k requires 0 <= k < |windows| => TopWindow(windows[k],
      Buckets.Round(HeldBy(samples, |samples|, windows[k]))))
  }

  /** Behind every entry of at least its total: the sort is stable, and descends. */
  function Placed(sorted: seq<TopWindow>, x: TopWindow): (r: seq<TopWindow>)
    ensures multiset(r) == multiset(sorted) + multiset{x}
  {
    if sorted == [] then [x]
    else
      var front, last := sorted[..|sorted| - 1], sorted[|sorted| - 1];
      assert sorted == front + [last];
      if last.totalMs >= x.totalMs then sorted + [x] else Placed(front, x) + [last]
  }

  function Ranked(xs: seq<TopWindow>): (r: seq<TopWindow>)
    ensures multiset(r) == multiset(xs)
  {
    if xs == [] then []
    else
      assert xs == xs[..|xs| - 1] + [xs[|xs| - 1]];
      Placed(Ranked(xs[..|xs| - 1]), xs[|xs| - 1])
  }

  predicate Descending(xs: seq<TopWindow>) {
    forall j, k | 0 <= j < k < |xs| :: xs[j].totalMs >= xs[k].totalMs
  }

  lemma {:induction false} PlacedDescends(sorted: seq<TopWindow>, x: TopWindow)
    requires Descending(sorted)
    ensures Descending(Placed(sorted, x))
  {
    if sorted != [] && sorted[|sorted| - 1].totalMs < x.totalMs {
      var front, last := sorted[..|sorted| - 1], sorted[|sorted| - 1];
      PlacedDescends(front, x);
      var r := Placed(front, x);
      forall k | 0 <= k < |r| ensures r[k].totalMs >= last.totalMs {
        assert r[k] in multiset(r);
        assert r[k] == x || r[k] in front;
      }
    }
  }

  lemma {:induction false} RankedDescends(xs: seq<TopWindow>)
    ensures Descending(Ranked(xs))
  {
    if xs != [] {
      RankedDescends(xs[..|xs| - 1]);
      PlacedDescends(Ranked(xs[..|xs| - 1]), xs[|xs| - 1]);
    }
  }

  function TopWindows(samples: seq<Sample>): seq<TopWindow> {
    Ranked(Rounded(samples, WindowsOf(samples, |samples|)))
  }

  /**
   * The ranking descends, and lists each window some sample but the first shows exactly once, with
   * its rounded total.
   */
  lemma TopWindowsExact(samples: seq<Sample>, x: TopWindow)
    ensures Descending(TopWindows(samples))
    ensures multiset(TopWindows(samples))[x] ==
      if IsTotalled(samples, |samples|, x.window) &&
        x.totalMs == Buckets.Round(HeldBy(samples, |samples|, x.window)) then 1 else 0
  {
    hide HeldBy;
    var windows := WindowsOf(samples, |samples|);
    RankedDescends(Rounded(samples, windows));
    RoundedOnce(samples, windows, x);
  }

  lemma {:induction false} RoundedOnce(samples: seq<Sample>, windows: seq<string>, x: TopWindow)
    requires Distinct(windows)
    ensures multiset(Rounded(samples, windows))[x] ==
      if x.window in windows && x.totalMs == Buckets.Round(HeldBy(samples, |samples|, x.window)) then 1 else 0
  {
    hide HeldBy, Buckets.Round;
    if windows != [] {
      var front, last := windows[..|windows| - 1], windows[|windows| - 1];
      assert windows == front + [last];
      RoundedOnce(samples, front, x);
      var y := TopWindow(last, Buckets.Round(HeldBy(samples, |samples|, last)));
      assert Rounded(samples, windows) == Rounded(samples, front) + [y];
    }
  }

  lemma {:induction false} UntotalledHoldsNothing(samples: seq<Sample>, n: nat, w: string)
    requires n <= |samples| && !IsTotalled(samples, n, w)
    ensures HeldBy(samples, n, w) == 0.0
  {
    if n > 1 {
      UntotalledHoldsNothing(samples, n - 1, w);
    }
  }

  lemma TotalsStep(totals: Totals, samples: seq<Sample>, n: nat)
    requires n < |samples| && TotalsAre(totals, samples, n)
    ensures n > 0 && Title(samples[n]).Some? ==>
      TotalsAre(Credited(totals, Title(samples[n]).value, Offset(samples, n) - Offset(samples, n - 1)), samples, n + 1)
    ensures n == 0 || Title(samples[n]).None? ==> TotalsAre(totals, samples, n + 1)
  {
    if n > 0 && Title(samples[n]).Some? && Title(samples[n]).value !in totals.held {
      UntotalledHoldsNothing(samples, n, Title(samples[n]).value);
    }
  }

  /** Bucket `b` as the console gets it, once the first `n` samples are in. */
  function BucketAt(samples: seq<Sample>, bucketCount: int, n: nat, b: int): Bucket
    requires samples != [] && n <= |samples|
  {
    var width := Width(samples, bucketCount);
    Bucket(Buckets.Round(Buckets.Edge(b, width)), Buckets.Round(Buckets.Edge(b + 1, width)),
      TallyOf(samples, bucketCount, n, b))
  }

  lemma BucketStep(samples: seq<Sample>, bucketCount: int, n: nat, b: int)
    requires n < |samples|
    ensures BucketAt(samples, bucketCount, n + 1, b) ==
      var before := BucketAt(samples, bucketCount, n, b);
      if SlotOf(samples, bucketCount, n) == b then before.(tally := Added(before.tally, samples, n)) else before
  {
  }

  /** The part of the loop body that a sample with a title goes through. */
  method TakeTitle(samples: seq<Sample>, i: nat, focus: seq<Focus>, totals: Totals)
    returns (f: seq<Focus>, t: Totals)
    requires i < |samples| && focus == FocusOf(samples, i) && TotalsAre(totals, samples, i)
    ensures f == FocusOf(samples, i + 1) && TotalsAre(t, samples, i + 1)
  {
    hide TotalsAre;
    TotalsStep(totals, samples, i);
    f, t := focus, totals;
    var title := Title(samples[i]);
    if title.Some? {
      f := Focused(focus, title.value, Offset(samples, i));
      if i > 0 {
        t := Credited(totals, title.value, Offset(samples, i) - Offset(samples, i - 1));
      }
    }
  }

  method RankTotals(samples: seq<Sample>, totals: Totals) returns (topWindows: seq<TopWindow>)
    requires TotalsAre(totals, samples, |samples|)
    ensures topWindows == TopWindows(samples)
  {
    hide HeldBy, WindowsOf, Ranked;
    var keys := totals.keys;
    var entries := seq(|keys|, k requires 0 <= k < |keys| &&
      keys[k] in totals.held => TopWindow(keys[k], Buckets.Round(totals.held[keys[k]])));
    assert entries == Rounded(samples, keys);
    return Ranked(entries);
  }

  method BuildTimeline(samples: seq<Sample>, bucketCount: int) returns (view: View)
    requires Sorted(samples)
    ensures samples == [] ==> view == View(0, 0, [], [], [], 0, false)
    ensures samples != [] ==>
      && view.durationMs == Buckets.Round(Duration(samples))
      && view.bucketMs == Buckets.Round(Width(samples, bucketCount))
      && view.sampleCount == |samples|
      && |view.buckets| == Count(bucketCount)
      && view.focus == RoundedFocus(FocusOf(samples, |samples|))
      && view.topWindows == TopWindows(samples)
      && (view.inputMeasured <==> exists i :: 0 <= i < |samples| && Measures(samples[i]))
    ensures samples != [] ==> forall b | 0 <= b < Count(bucketCount) ::
      view.buckets[b] == BucketAt(samples, bucketCount, |samples|, b)
  {
    if samples == [] {
      return View(0, 0, [], [], [], 0, false);
    }
    var count, width := Count(bucketCount), Width(samples, bucketCount);
    var buckets := new Bucket[count](b => Bucket(Buckets.Round(Buckets.Edge(b, width)),
      Buckets.Round(Buckets.Edge(b + 1, width)), NO_TALLY));
    var measured := false;
    var focus: seq<Focus> := [];
    var totals := Totals([], map[]);
    for i := 0 to |samples|
      invariant forall b | 0 <= b < count :: buckets[b] == BucketAt(samples, bucketCount, i, b)
      invariant focus == FocusOf(samples, i)
      invariant TotalsAre(totals, samples, i)
      invariant measured <==> exists j :: 0 <= j < i && Measures(samples[j])
    {
      hide TotalsAre, SlotOf, Added, BucketAt, Sorted, FocusOf, Measures;
      forall b { BucketStep(samples, bucketCount, i, b); }
      SampleIsInItsBucket(samples, bucketCount, i, 0);
      var slot := SlotOf(samples, bucketCount, i);
      buckets[slot] := buckets[slot].(tally := Added(buckets[slot].tally, samples, i));
      if Measures(samples[i]) {
        measured := true;
      }
      focus, totals := TakeTitle(samples, i, focus, totals);
    }
    var topWindows := RankTotals(samples, totals);
    var durationMs, bucketMs := Buckets.Round(Duration(samples)), Buckets.Round(width);
    return View(durationMs, bucketMs, buckets[..], RoundedFocus(focus), topWindows, |samples|, measured);
  }
}

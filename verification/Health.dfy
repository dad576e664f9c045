/** Per-track stall detection over ticks, and the history it stands for. */
module Health {
  import opened Wrappers

  datatype Verdict = Fine | Stalled | Quiet

  datatype Sample = Sample(trackId: string, kind: string, bytes: int)

  // ------------------------------------------------------------- specification

  /** What one tick sees of one track: no delta the first time, then the change in bytes. */
  type Deltas = map<string, Option<int>>

  function PreviousAfter(previous: map<string, int>, samples: seq<Sample>): map<string, int> {
    if samples == [] then previous
    else
      var last := samples[|samples| - 1];
      PreviousAfter(previous, samples[..|samples| - 1])[last.trackId := last.bytes]
  }

  function DeltasOf(previous: map<string, int>, samples: seq<Sample>): Deltas {
    if samples == [] then map[]
    else
      var front, last := samples[..|samples| - 1], samples[|samples| - 1];
      var before := PreviousAfter(previous, front);
      DeltasOf(previous, front)[last.trackId := if last.trackId in before then
        Some(last.bytes - before[last.trackId]) else None]
  }

  predicate AnyAdvancing(deltas: Deltas) {
    exists t :: t in deltas && deltas[t].Some? && deltas[t].value > 0
  }

  /** A sample the stall rule applies to: seen before, and not the metadata stream. */
  predicate Counted(deltas: Deltas, sample: Sample) {
    sample.trackId in deltas && deltas[sample.trackId].Some? && sample.kind != "metadata"
  }

  /** Nothing arrived on this track in a tick where something arrived on another. */
  predicate Idle(deltas: Deltas, trackId: string) {
    trackId in deltas && deltas[trackId].Some? && deltas[trackId].value <= 0 && AnyAdvancing(deltas)
  }

  function Ticked(idleTicks: map<string, nat>, deltas: Deltas, sample: Sample): map<string, nat> {
    if !Counted(deltas, sample) then idleTicks
    else if Idle(deltas, sample.trackId) then
      idleTicks[sample.trackId := (if sample.trackId in idleTicks then idleTicks[sample.trackId] else 0) + 1]
    else idleTicks[sample.trackId := 0]
  }

  function IdleAfter(idleTicks: map<string, nat>, deltas: Deltas, samples: seq<Sample>): map<string, nat> {
    if samples == [] then idleTicks
    else Ticked(IdleAfter(idleTicks, deltas, samples[..|samples| - 1]), deltas, samples[|samples| - 1])
  }

  function Judge(deltas: Deltas, idle: map<string, nat>, sample: Sample, stallTicks: nat, quietBytes: nat): Verdict {
    if !Counted(deltas, sample) then Fine
    else if sample.trackId in idle && idle[sample.trackId] >= stallTicks then Stalled
    else if sample.kind == "audio" && 0 < deltas[sample.trackId].value < quietBytes then Quiet
    else Fine
  }

  function Verdicts(idleTicks: map<string, nat>, deltas: Deltas, samples: seq<Sample>, stallTicks: nat,
      quietBytes: nat): map<string, Verdict> {
    if samples == [] then map[]
    else
      var front, last := samples[..|samples| - 1], samples[|samples| - 1];
      Verdicts(idleTicks, deltas, front, stallTicks, quietBytes)[
        last.trackId := Judge(deltas, IdleAfter(idleTicks, deltas, samples), last, stallTicks, quietBytes)]
  }

  // --------------------------------------------------------------- the tracker

  class HealthTracker {
    var previous: map<string, int>
    var idleTicks: map<string, nat>
    const stallTicks: nat
    const quietBytesPerTick: nat

    constructor (stallTicks: nat := 3, quietBytesPerTick: nat := 2_000)
      ensures previous == map[] && idleTicks == map[]
      ensures this.stallTicks == stallTicks && this.quietBytesPerTick == quietBytesPerTick
    {
      previous, idleTicks := map[], map[];
      this.stallTicks, this.quietBytesPerTick := stallTicks, quietBytesPerTick;
    }

    method Observe(samples: seq<Sample>) returns (health: map<string, Verdict>)
      modifies this
      ensures previous == PreviousAfter(old(previous), samples)
      ensures idleTicks == IdleAfter(old(idleTicks), DeltasOf(old(previous), samples), samples)
      ensures health == Verdicts(old(idleTicks), DeltasOf(old(previous), samples), samples, stallTicks,
        quietBytesPerTick)
    {
      var deltas := TakeDeltas(samples);
      var anyAdvancing := exists t :: t in deltas && deltas[t].Some? && deltas[t].value > 0;

      hide Judge, Ticked, DeltasOf, PreviousAfter;
      health := map[];
      for k := 0 to |samples|
        modifies this`idleTicks
        invariant idleTicks == IdleAfter(old(idleTicks), deltas, samples[..k])
        invariant health == Verdicts(old(idleTicks), deltas, samples[..k], stallTicks, quietBytesPerTick)
      {
        assert samples[..k + 1][..k] == samples[..k];
        var verdict := Rate(samples[k], deltas, anyAdvancing);
        health := health[samples[k].trackId := verdict];
      }
      assert samples[..|samples|] == samples;
    }

    /** The first loop: what arrived since each track was last seen. */
    method TakeDeltas(samples: seq<Sample>) returns (deltas: Deltas)
      modifies this`previous
      ensures previous == PreviousAfter(old(previous), samples)
      ensures deltas == DeltasOf(old(previous), samples)
    {
      deltas := map[];
      for k := 0 to |samples|
        invariant previous == PreviousAfter(old(previous), samples[..k])
        invariant deltas == DeltasOf(old(previous), samples[..k])
      {
        assert samples[..k + 1][..k] == samples[..k];
        var sample := samples[k];
        var delta := if sample.trackId in previous then Some(sample.bytes - previous[sample.trackId]) else None;
        deltas := deltas[sample.trackId := delta];
        previous := previous[sample.trackId := sample.bytes];
      }
      assert samples[..|samples|] == samples;
    }

    /** The body of the second loop. */
    method Rate(sample: Sample, deltas: Deltas, anyAdvancing: bool) returns (verdict: Verdict)
      requires anyAdvancing == AnyAdvancing(deltas)
      modifies this`idleTicks
      ensures idleTicks == Ticked(old(idleTicks), deltas, sample)
      ensures verdict == Judge(deltas, idleTicks, sample, stallTicks, quietBytesPerTick)
    {
      var delta := if sample.trackId in deltas then deltas[sample.trackId] else None;
      if delta.None? {
        return Fine;
      }
      if sample.kind == "metadata" {
        return Fine;
      }

      var idle: nat := 0;
      if delta.value <= 0 && anyAdvancing {
        idle := (if sample.trackId in idleTicks then idleTicks[sample.trackId] else 0) + 1;
      }
      idleTicks := idleTicks[sample.trackId := idle];

      if idle >= stallTicks {
        return Stalled;
      }
      if sample.kind == "audio" && delta.value > 0 && delta.value < quietBytesPerTick {
        return Quiet;
      }
      return Fine;
    }
  }

  // ------------------------------------------------------------------- history

  predicate DistinctIds(samples: seq<Sample>) {
    forall i, j | 0 <= i < j < |samples| :: samples[i].trackId != samples[j].trackId
  }

  /** What the tracker remembers after a sequence of ticks. */
  function PreviousOver(ticks: seq<seq<Sample>>): map<string, int> {
    if ticks == [] then map[] else PreviousAfter(PreviousOver(ticks[..|ticks| - 1]), ticks[|ticks| - 1])
  }

  function DeltasAt(ticks: seq<seq<Sample>>, n: nat): Deltas
    requires n < |ticks|
  {
    DeltasOf(PreviousOver(ticks[..n]), ticks[n])
  }

  /** The bytes of a track in one tick, and in the last of several ticks that saw it. */
  function BytesIn(samples: seq<Sample>, trackId: string): Option<int> {
    if samples == [] then None
    else if samples[|samples| - 1].trackId == trackId then Some(samples[|samples| - 1].bytes)
    else BytesIn(samples[..|samples| - 1], trackId)
  }

  function LastBytes(ticks: seq<seq<Sample>>, trackId: string): Option<int> {
    if ticks == [] then None
    else if BytesIn(ticks[|ticks| - 1], trackId).Some? then BytesIn(ticks[|ticks| - 1], trackId)
    else LastBytes(ticks[..|ticks| - 1], trackId)
  }

  lemma {:induction false} PreviousAfterIs(previous: map<string, int>, samples: seq<Sample>, trackId: string)
    ensures var after, seen := PreviousAfter(previous, samples), BytesIn(samples, trackId);
      if seen.Some? then trackId in after && after[trackId] == seen.value
      else (trackId in after <==> trackId in previous) && (trackId in after ==> after[trackId] == previous[trackId])
  {
    if samples != [] {
      PreviousAfterIs(previous, samples[..|samples| - 1], trackId);
    }
  }

  lemma {:induction false} PreviousOverIs(ticks: seq<seq<Sample>>, trackId: string)
    ensures trackId in PreviousOver(ticks) <==> LastBytes(ticks, trackId).Some?
    ensures trackId in PreviousOver(ticks) ==> PreviousOver(ticks)[trackId] == LastBytes(ticks, trackId).value
  {
    if ticks != [] {
      PreviousOverIs(ticks[..|ticks| - 1], trackId);
      PreviousAfterIs(PreviousOver(ticks[..|ticks| - 1]), ticks[|ticks| - 1], trackId);
    }
  }

  /** A tick's sample of a track, if it has one. */
  lemma {:induction false} SampleOf(samples: seq<Sample>, trackId: string) returns (k: nat)
    requires BytesIn(samples, trackId).Some?
    ensures k < |samples| && samples[k].trackId == trackId
  {
    if samples[|samples| - 1].trackId == trackId {
      k := |samples| - 1;
    } else {
      k := SampleOf(samples[..|samples| - 1], trackId);
    }
  }

  lemma {:induction false} DeltasOfIs(previous: map<string, int>, samples: seq<Sample>, trackId: string)
    requires DistinctIds(samples)
    ensures trackId in DeltasOf(previous, samples) <==> BytesIn(samples, trackId).Some?
    ensures trackId in DeltasOf(previous, samples) ==>
      DeltasOf(previous, samples)[trackId] ==
        if trackId in previous then Some(BytesIn(samples, trackId).value - previous[trackId]) else None
  {
    hide PreviousAfter;
    if samples != [] {
      var front, last := samples[..|samples| - 1], samples[|samples| - 1];
      assert samples == front + [last];
      DeltasOfIs(previous, front, trackId);
      PreviousAfterIs(previous, front, last.trackId);
      NotSeenBefore(front, last);
    }
  }

  lemma NotSeenBefore(front: seq<Sample>, last: Sample)
    requires DistinctIds(front + [last])
    ensures BytesIn(front, last.trackId).None?
  {
    if front != [] {
      assert (front + [last])[|front| - 1].trackId != (front + [last])[|front|].trackId;
      var shorter := front[..|front| - 1];
      assert forall i | 0 <= i < |shorter| :: (shorter + [last])[i] == (front + [last])[i];
      NotSeenBefore(shorter, last);
    }
  }

  /** The delta of a tick is the growth since the last tick that saw the track. */
  lemma DeltaIsGrowth(ticks: seq<seq<Sample>>, n: nat, trackId: string)
    requires n < |ticks| && DistinctIds(ticks[n])
    ensures trackId in DeltasAt(ticks, n) <==> BytesIn(ticks[n], trackId).Some?
    ensures trackId in DeltasAt(ticks, n) ==>
      DeltasAt(ticks, n)[trackId] ==
        match LastBytes(ticks[..n], trackId)
        case None => None
        case Some(before) => Some(BytesIn(ticks[n], trackId).value - before)
  {
    PreviousOverIs(ticks[..n], trackId);
    DeltasOfIs(PreviousOver(ticks[..n]), ticks[n], trackId);
  }

  function IdleOver(ticks: seq<seq<Sample>>): map<string, nat> {
    if ticks == [] then map[]
    else IdleAfter(IdleOver(ticks[..|ticks| - 1]), DeltasAt(ticks, |ticks| - 1), ticks[|ticks| - 1])
  }

  /** The verdicts of the last of a sequence of ticks. */
  function HealthAt(ticks: seq<seq<Sample>>, stallTicks: nat, quietBytes: nat): map<string, Verdict>
    requires ticks != []
  {
    var n := |ticks| - 1;
    Verdicts(IdleOver(ticks[..n]), DeltasAt(ticks, n), ticks[n], stallTicks, quietBytes)
  }

  ghost predicate CountedAt(ticks: seq<seq<Sample>>, n: nat, trackId: string)
    requires n < |ticks|
  {
    exists k :: 0 <= k < |ticks[n]| && ticks[n][k].trackId == trackId && Counted(DeltasAt(ticks, n), ticks[n][k])
  }

  /** One entry for every tick that counted this track: was it idle in it? */
  ghost function IdleHistory(ticks: seq<seq<Sample>>, trackId: string): seq<bool> {
    if ticks == [] then []
    else
      var n := |ticks| - 1;
      IdleHistory(ticks[..n], trackId) + if CountedAt(ticks, n, trackId) then [Idle(DeltasAt(ticks, n), trackId)] else
        []
  }

  /** The length of the run of idle ticks at the end. */
  function Streak(history: seq<bool>): nat {
    if history == [] || !history[|history| - 1] then 0 else Streak(history[..|history| - 1]) + 1
  }

  lemma StreakStep(history: seq<bool>, x: bool)
    ensures Streak(history + [x]) == if x then Streak(history) + 1 else 0
  {
    assert (history + [x])[..|history + [x]| - 1] == history;
  }

  lemma {:induction false} StreakExact(history: seq<bool>, k: nat)
    ensures Streak(history) >= k <==> |history| >= k && forall i | |history| - k <= i < |history| :: history[i]
  {
    if k > 0 && history != [] && history[|history| - 1] {
      var front := history[..|history| - 1];
      StreakExact(front, k - 1);
      assert forall i | 0 <= i < |front| :: front[i] == history[i];
    }
  }

  lemma {:induction false} IdleAfterIs(idleTicks: map<string, nat>, deltas: Deltas, samples: seq<Sample>,
      trackId: string)
    requires DistinctIds(samples)
    ensures var after := IdleAfter(idleTicks, deltas, samples);
      if exists k :: 0 <= k < |samples| && samples[k].trackId == trackId && Counted(deltas, samples[k])
      then trackId in after
           && after[trackId] == if Idle(deltas, trackId) then
             (if trackId in idleTicks then idleTicks[trackId] else 0) + 1 else 0
      else (trackId in after <==> trackId in idleTicks) && (trackId in after ==> after[trackId] == idleTicks[trackId])
  {
    if samples != [] {
      var front, last := samples[..|samples| - 1], samples[|samples| - 1];
      assert samples == front + [last];
      IdleAfterIs(idleTicks, deltas, front, trackId);
      assert forall k | 0 <= k < |front| :: front[k] == samples[k];
    }
  }

  ghost predicate AllDistinct(ticks: seq<seq<Sample>>) {
    forall n | 0 <= n < |ticks| :: DistinctIds(ticks[n])
  }

  /** The counter a tracker keeps is the streak of its track's idle history. */
  lemma {:induction false} CounterIsStreak(ticks: seq<seq<Sample>>, trackId: string)
    requires AllDistinct(ticks)
    ensures (if trackId in IdleOver(ticks) then IdleOver(ticks)[trackId] else 0) == Streak(IdleHistory(ticks, trackId))
  {
    if ticks != [] {
      var n := |ticks| - 1;
      CounterIsStreak(ticks[..n], trackId);
      IdleAfterIs(IdleOver(ticks[..n]), DeltasAt(ticks, n), ticks[n], trackId);
      var history := IdleHistory(ticks[..n], trackId);
      StreakStep(history, Idle(DeltasAt(ticks, n), trackId));
      assert history + [] == history;
    }
  }

  lemma {:induction false} VerdictIs(idleTicks: map<string, nat>, deltas: Deltas, samples: seq<Sample>,
      stallTicks: nat, quietBytes: nat, k: nat)
    requires DistinctIds(samples) && k < |samples|
    ensures var v := Verdicts(idleTicks, deltas, samples, stallTicks, quietBytes);
      samples[k].trackId in v
      && v[samples[k].trackId] ==
        Judge(deltas, IdleAfter(idleTicks, deltas, samples), samples[k], stallTicks, quietBytes)
  {
    var front, last := samples[..|samples| - 1], samples[|samples| - 1];
    assert samples == front + [last];
    if k < |front| {
      VerdictIs(idleTicks, deltas, front, stallTicks, quietBytes, k);
      assert samples[k].trackId != last.trackId;
    }
  }

  /**
   * A track is stalled exactly when it is not metadata, was seen before, and
   * was idle in each of the last `stallTicks` ticks that counted it.
   */
  lemma StalledExactly(ticks: seq<seq<Sample>>, stallTicks: nat, quietBytes: nat, k: nat)
    requires ticks != [] && AllDistinct(ticks) && k < |ticks[|ticks| - 1]|
    ensures var n, sample, history :=
      |ticks| - 1, ticks[|ticks| - 1][k], IdleHistory(ticks, ticks[|ticks| - 1][k].trackId);
      && sample.trackId in HealthAt(ticks, stallTicks, quietBytes)
      && (HealthAt(ticks, stallTicks, quietBytes)[sample.trackId] == Stalled <==>
            && Counted(DeltasAt(ticks, n), sample)
            && |history| >= stallTicks && forall i | |history| - stallTicks <= i < |history| :: history[i])
  {
    var n := |ticks| - 1;
    var sample := ticks[n][k];
    VerdictIs(IdleOver(ticks[..n]), DeltasAt(ticks, n), ticks[n], stallTicks, quietBytes, k);
    CounterIsStreak(ticks, sample.trackId);
    StreakExact(IdleHistory(ticks, sample.trackId), stallTicks);
    if Counted(DeltasAt(ticks, n), sample) {
      IdleAfterIs(IdleOver(ticks[..n]), DeltasAt(ticks, n), ticks[n], sample.trackId);
    }
  }

  /** A track is quiet exactly when it is audio, was seen before, and a trickle arrived. */
  lemma QuietExactly(ticks: seq<seq<Sample>>, stallTicks: nat, quietBytes: nat, k: nat)
    requires ticks != [] && AllDistinct(ticks) && k < |ticks[|ticks| - 1]| && stallTicks >= 1
    ensures var sample, deltas := ticks[|ticks| - 1][k], DeltasAt(ticks, |ticks| - 1);
      && sample.trackId in HealthAt(ticks, stallTicks, quietBytes)
      && (HealthAt(ticks, stallTicks, quietBytes)[sample.trackId] == Quiet <==>
            Counted(deltas, sample) && sample.kind == "audio" && 0 < deltas[sample.trackId].value < quietBytes)
  {
    var n := |ticks| - 1;
    var sample := ticks[n][k];
    VerdictIs(IdleOver(ticks[..n]), DeltasAt(ticks, n), ticks[n], stallTicks, quietBytes, k);
    if Counted(DeltasAt(ticks, n), sample) {
      IdleAfterIs(IdleOver(ticks[..n]), DeltasAt(ticks, n), ticks[n], sample.trackId);
    }
  }

  /** A stalled verdict never comes alone: some other track advanced in that tick and is not stalled. */
  lemma StalledNeverAlone(ticks: seq<seq<Sample>>, stallTicks: nat, quietBytes: nat, k: nat) returns (m: nat)
    requires ticks != [] && AllDistinct(ticks) && k < |ticks[|ticks| - 1]| && stallTicks >= 1
    requires ticks[|ticks| - 1][k].trackId in HealthAt(ticks, stallTicks, quietBytes)
    requires HealthAt(ticks, stallTicks, quietBytes)[ticks[|ticks| - 1][k].trackId] == Stalled
    ensures m < |ticks[|ticks| - 1]| && m != k
    ensures var other, deltas := ticks[|ticks| - 1][m].trackId, DeltasAt(ticks, |ticks| - 1);
      && other in deltas && deltas[other].Some? && deltas[other].value > 0
      && other in HealthAt(ticks, stallTicks, quietBytes) && HealthAt(ticks, stallTicks, quietBytes)[other] != Stalled
  {
    var n := |ticks| - 1;
    var deltas, sample := DeltasAt(ticks, n), ticks[n][k];
    StalledExactly(ticks, stallTicks, quietBytes, k);
    assert CountedAt(ticks, n, sample.trackId);
    var history := IdleHistory(ticks, sample.trackId);
    assert history[|history| - 1] && Idle(deltas, sample.trackId);
    var other :| other in deltas && deltas[other].Some? && deltas[other].value > 0;
    DeltaIsGrowth(ticks, n, other);
    m := SampleOf(ticks[n], other);
    VerdictIs(IdleOver(ticks[..n]), deltas, ticks[n], stallTicks, quietBytes, m);
    if Counted(deltas, ticks[n][m]) {
      IdleAfterIs(IdleOver(ticks[..n]), deltas, ticks[n], other);
    }
  }
}

/** Uploading closed segments while the recording still runs. */
module Continuous {
  import opened Wrappers
  import Prefixes

  type Millis = int

  // -------------------------------------------------------------- eligibility

  /** The number in `seg-<digits>.`, for names that start so. */
  function SegmentIndex(name: string): Option<nat> {
    if !("seg-" <= name) then None
    else
      var tail := name[4..];
      var (index, rest) := Prefixes.TakeDigits(tail, 0);
      if tail != "" && Prefixes.IsDigit(tail[0]) && rest != "" && rest[0] == '.' then Some(index) else None
  }

  datatype Numbered = Numbered(name: string, index: nat)

  /** The segments of a listing with their numbers, in listing order. */
  function Numbers(names: seq<string>): (r: seq<Numbered>)
    ensures forall x :: x in r <==> x.name in names && SegmentIndex(x.name) == Some(x.index)
    ensures |r| <= |names|
  {
    if names == [] then []
    else
      var front, last := names[..|names| - 1], names[|names| - 1];
      assert names == front + [last];
      Numbers(front) + match SegmentIndex(last) case Some(index) => [Numbered(last, index)] case None => []
  }

  predicate Ascending(xs: seq<Numbered>) {
    forall i, j | 0 <= i < j < |xs| :: xs[i].index <= xs[j].index
  }

  /** Behind every segment with the same or a lower number: the sort is stable. */
  function InsertByIndex(sorted: seq<Numbered>, x: Numbered): (r: seq<Numbered>)
    ensures multiset(r) == multiset(sorted) + multiset{x}
  {
    if sorted == [] then [x]
    else
      var front, last := sorted[..|sorted| - 1], sorted[|sorted| - 1];
      assert sorted == front + [last];
      if last.index <= x.index then sorted + [x] else InsertByIndex(front, x) + [last]
  }

  ghost predicate Below(xs: seq<Numbered>, top: int) {
    forall k | 0 <= k < |xs| :: xs[k].index <= top
  }

  lemma {:induction false} InsertKeepsOrder(sorted: seq<Numbered>, x: Numbered, top: int)
    requires Ascending(sorted) && Below(sorted, top) && x.index <= top
    ensures Ascending(InsertByIndex(sorted, x)) && Below(InsertByIndex(sorted, x), top)
  {
    hide Below, Ascending;
    if sorted == [] {
      assert [] + [x] == [x];
      AppendKeepsOrder([], x, top);
    } else {
      var front, last := sorted[..|sorted| - 1], sorted[|sorted| - 1];
      FrontIsOrdered(sorted, top);
      if last.index <= x.index {
        AppendKeepsOrder(sorted, x, top);
      } else {
        InsertKeepsOrder(front, x, last.index);
        AppendKeepsOrder(InsertByIndex(front, x), last, top);
      }
    }
  }

  lemma FrontIsOrdered(xs: seq<Numbered>, top: int)
    requires xs != [] && Ascending(xs) && Below(xs, top)
    ensures var front, last := xs[..|xs| - 1], xs[|xs| - 1];
      Ascending(front) && Below(front, last.index) && Below(xs, last.index) && last.index <= top
  {
  }

  lemma AppendKeepsOrder(xs: seq<Numbered>, x: Numbered, top: int)
    requires Ascending(xs) && Below(xs, x.index) && x.index <= top
    ensures Ascending(xs + [x]) && Below(xs + [x], top)
  {
  }

  ghost function Highest(xs: seq<Numbered>): (top: int)
    ensures Below(xs, top)
  {
    if xs == [] then 0
    else
      var top := Highest(xs[..|xs| - 1]);
      if top < xs[|xs| - 1].index then xs[|xs| - 1].index else top
  }

  function SortByIndex(xs: seq<Numbered>): (r: seq<Numbered>)
    ensures Ascending(r)
    ensures multiset(r) == multiset(xs)
  {
    if xs == [] then []
    else
      var front, last := xs[..|xs| - 1], xs[|xs| - 1];
      assert xs == front + [last];
      var sorted := SortByIndex(front);
      assert Ascending(InsertByIndex(sorted, last)) by {
        InsertKeepsOrder(sorted, last, Highest(sorted + [last]));
      }
      InsertByIndex(sorted, last)
  }

  /** `slice(0, -1)` of the sorted segments. */
  function Closed(names: seq<string>): seq<Numbered> {
    var sorted := SortByIndex(Numbers(names));
    if sorted == [] then [] else sorted[..|sorted| - 1]
  }

  function ClosedSegments(names: seq<string>): seq<string> {
    var closed := Closed(names);
    seq(|closed|, k requires 0 <= k < |closed| => closed[k].name)
  }

  /** A segment no segment of the listing outnumbers. */
  predicate IsHighest(names: seq<string>, x: Numbered) {
    x in Numbers(names) && forall other | other in Numbers(names) :: other.index <= x.index
  }

  /** Of a listing with segments exactly one is held back, and it is a highest-numbered one. */
  lemma OneHeldBack(names: seq<string>) returns (open_: Numbered)
    requires Numbers(names) != []
    ensures IsHighest(names, open_)
    ensures multiset(Numbers(names)) == multiset(Closed(names)) + multiset{open_}
  {
    hide SegmentIndex, Numbers;
    var xs := Numbers(names);
    var sorted := SortByIndex(xs);
    assert |multiset(sorted)| == |sorted| && |multiset(xs)| == |xs|;
    open_ := LastIsHighest(sorted);
    forall other | other in xs ensures other.index <= open_.index {
      assert other in multiset(sorted);
    }
    assert open_ in multiset(xs);
  }

  lemma LastIsHighest(sorted: seq<Numbered>) returns (last: Numbered)
    requires Ascending(sorted) && sorted != []
    ensures last in multiset(sorted) && forall x | x in sorted :: x.index <= last.index
    ensures multiset(sorted) == multiset(sorted[..|sorted| - 1]) + multiset{last}
  {
    last := sorted[|sorted| - 1];
    assert sorted == sorted[..|sorted| - 1] + [last];
  }

  predicate NoRepeats(names: seq<string>) {
    forall i, j | 0 <= i < j < |names| :: names[i] != names[j]
  }

  lemma {:induction false} NumbersOnce(names: seq<string>)
    requires NoRepeats(names)
    ensures forall x | x in Numbers(names) :: multiset(Numbers(names))[x] == 1
  {
    hide SegmentIndex;
    if names != [] {
      var front, last := names[..|names| - 1], names[|names| - 1];
      assert names == front + [last];
      NumbersOnce(front);
      assert last !in front;
      assert forall x | x in Numbers(front) :: x.name != last;
    }
  }

  /**
   * In a directory listing, which repeats no name, a highest-numbered segment
   * is uploaded exactly when two names share the highest number.
   */
  lemma ClosedSparesHighest(names: seq<string>)
    requires NoRepeats(names)
    ensures (exists x :: x in Closed(names) && IsHighest(names, x)) <==>
            (exists x, y :: x != y && IsHighest(names, x) && IsHighest(names, y))
  {
    hide SegmentIndex, SortByIndex;
    var xs, closed := Numbers(names), Closed(names);
    if xs != [] {
      var open_ := OneHeldBack(names);
      NumbersOnce(names);
      assert forall x :: x in closed <==> x in multiset(closed);
      assert forall x :: x in xs <==> x in multiset(xs);
      assert multiset(xs)[open_] == 1 && open_ !in multiset(closed);
      if x :| x in closed && IsHighest(names, x) {
        assert x != open_;
      }
      if x, y :| x != y && IsHighest(names, x) && IsHighest(names, y) {
        var other := if x == open_ then y else x;
        assert other in multiset(closed) + multiset{open_};
        assert other in closed;
      }
    } else {
      assert multiset(SortByIndex(xs)) == multiset{};
      assert |multiset(SortByIndex(xs))| == |SortByIndex(xs)|;
    }
  }

  lemma OneIsTheNumber(rest: string)
    requires rest != "" && rest[0] == '.'
    ensures SegmentIndex("seg-1" + rest) == Some(1)
  {
    var name, tail := "seg-1" + rest, "1" + rest;
    assert name[4..] == tail && tail[1..] == rest;
    assert Prefixes.TakeDigits(tail, 0) == Prefixes.TakeDigits(rest, 1) == (1, rest);
  }

  /** A listing that does: a segment beside a file of its own number. */
  lemma HighestIsClosed(names: seq<string>)
    requires names == ["seg-1.mp4", "seg-1.mp4.tmp"]
    ensures exists x :: x in Closed(names) && IsHighest(names, x)
  {
    OneIsTheNumber(".mp4");
    OneIsTheNumber(".mp4.tmp");
    assert "seg-1" + ".mp4" == names[0] && "seg-1" + ".mp4.tmp" == names[1];
    hide SegmentIndex, Closed;
    assert |names[0]| != |names[1]|;
    var x, y := Numbered(names[0], 1), Numbered(names[1], 1);
    assert IsHighest(names, x) && IsHighest(names, y);
    ClosedSparesHighest(names);
  }

  // -------------------------------------------------------------- bookkeeping

  datatype Books = Books(done: set<string>, firstSeen: map<string, Millis>, failures: nat)

  const NO_BOOKS := Books({}, map[], 0)

  /** One closed segment met by a sweep: the clock then, and whether reading and sending it would succeed. */
  datatype Visit = Visit(key: string, now: Millis, sends: bool)

  function Visited(b: Books, v: Visit): Books {
    if v.key in b.done then b
    else
      var seen := if v.key in b.firstSeen then b.firstSeen else b.firstSeen[v.key := v.now];
      if v.sends then Books(b.done + {v.key}, seen - {v.key}, b.failures) else Books(b.done, seen, b.failures + 1)
  }

  function Over(b: Books, visits: seq<Visit>): Books {
    if visits == [] then b else Visited(Over(b, visits[..|visits| - 1]), visits[|visits| - 1])
  }

  /** One upload tried, and its outcome. */
  datatype Attempt = Attempt(key: string, sent: bool)

  /** The uploads tried, in order. */
  function Attempts(b: Books, visits: seq<Visit>): seq<Attempt> {
    if visits == [] then []
    else
      var front, last := visits[..|visits| - 1], visits[|visits| - 1];
      Attempts(b, front) + if last.key in Over(b, front).done then [] else [Attempt(last.key, last.sends)]
  }

  function Failed(attempts: seq<Attempt>): nat {
    if attempts == [] then 0 else Failed(attempts[..|attempts| - 1]) + if attempts[|attempts| - 1].sent then 0 else 1
  }

  ghost predicate Met(visits: seq<Visit>, key: string) {
    exists k :: 0 <= k < |visits| && visits[k].key == key
  }

  ghost predicate Sent(visits: seq<Visit>, key: string) {
    exists k :: 0 <= k < |visits| && visits[k].key == key && visits[k].sends
  }

  lemma VisitStep(visits: seq<Visit>, key: string)
    requires visits != []
    ensures var front, last := visits[..|visits| - 1], visits[|visits| - 1];
      && (Met(visits, key) <==> Met(front, key) || last.key == key)
      && (Sent(visits, key) <==> Sent(front, key) || (last.key == key && last.sends))
  {
    var front, last := visits[..|visits| - 1], visits[|visits| - 1];
    assert visits == front + [last];
    assert forall k | 0 <= k < |front| :: front[k] == visits[k];
  }

  lemma {:induction false} DoneIsSent(visits: seq<Visit>)
    ensures forall key :: key in Over(NO_BOOKS, visits).done <==> Sent(visits, key)
  {
    if visits != [] {
      DoneIsSent(visits[..|visits| - 1]);
      forall key { VisitStep(visits, key); }
    }
  }

  lemma {:induction false} WaitingIsUnsent(visits: seq<Visit>)
    ensures forall key :: key in Over(NO_BOOKS, visits).firstSeen <==> Met(visits, key) && !Sent(visits, key)
  {
    if visits != [] {
      WaitingIsUnsent(visits[..|visits| - 1]);
      DoneIsSent(visits[..|visits| - 1]);
      forall key { VisitStep(visits, key); }
    }
  }

  lemma {:induction false} FailuresAreCounted(visits: seq<Visit>)
    ensures Over(NO_BOOKS, visits).failures == Failed(Attempts(NO_BOOKS, visits))
  {
    if visits != [] {
      FailuresAreCounted(visits[..|visits| - 1]);
      var attempts := Attempts(NO_BOOKS, visits[..|visits| - 1]);
      var last := visits[|visits| - 1];
      var attempt := Attempt(last.key, last.sends);
      assert (attempts + [attempt])[..|attempts + [attempt]| - 1] == attempts;
      assert attempts + [] == attempts;
    }
  }

  /** Over any sweeps: what is done was sent, and what waits is exactly what was met closed and not yet sent. */
  lemma BooksAreTrue(visits: seq<Visit>)
    ensures var b := Over(NO_BOOKS, visits);
      && (forall key :: key in b.done <==> Sent(visits, key))
      && (forall key :: key in b.firstSeen <==> Met(visits, key) && !Sent(visits, key))
      && b.firstSeen.Keys !! b.done
      && b.failures == Failed(Attempts(NO_BOOKS, visits))
  {
    DoneIsSent(visits);
    WaitingIsUnsent(visits);
    FailuresAreCounted(visits);
  }

  ghost predicate AllDone(attempts: seq<Attempt>, done: set<string>) {
    forall i | 0 <= i < |attempts| && attempts[i].sent :: attempts[i].key in done
  }

  ghost predicate NeverTwice(attempts: seq<Attempt>) {
    forall i, j | 0 <= i < j < |attempts| && attempts[i].sent && attempts[j].sent :: attempts[i].key != attempts[j].key
  }

  /** No key is successfully uploaded twice, and what was uploaded is done. */
  lemma {:induction false} UploadedOnce(visits: seq<Visit>)
    ensures NeverTwice(Attempts(NO_BOOKS, visits))
    ensures AllDone(Attempts(NO_BOOKS, visits), Over(NO_BOOKS, visits).done)
  {
    if visits != [] {
      UploadedOnce(visits[..|visits| - 1]);
    }
  }

  /** The clock at the first visit to a key. */
  function FirstMet(visits: seq<Visit>, key: string): Millis {
    if visits == [] then 0
    else if visits[0].key == key then visits[0].now
    else FirstMet(visits[1..], key)
  }

  lemma {:induction false} FirstMetOfPrefix(visits: seq<Visit>, last: Visit, key: string)
    ensures FirstMet(visits + [last], key) == if Met(visits, key) then FirstMet(visits, key) else
      if last.key == key then last.now else 0
  {
    if visits != [] {
      assert (visits + [last])[1..] == visits[1..] + [last];
      FirstMetOfPrefix(visits[1..], last, key);
      assert Met(visits, key) <==> visits[0].key == key || Met(visits[1..], key) by {
        assert forall k | 0 <= k < |visits[1..]| :: visits[1..][k] == visits[k + 1];
        if Met(visits, key) && visits[0].key != key {
          var k :| 0 <= k < |visits| && visits[k].key == key;
          assert visits[1..][k - 1].key == key;
        }
      }
    }
  }

  /** A waiting key is aged from the moment it was first seen. */
  lemma {:induction false} WaitingSinceFirstMet(visits: seq<Visit>, key: string)
    requires key in Over(NO_BOOKS, visits).firstSeen
    ensures Over(NO_BOOKS, visits).firstSeen[key] == FirstMet(visits, key)
  {
    var front, last := visits[..|visits| - 1], visits[|visits| - 1];
    assert visits == front + [last];
    assert key in Over(NO_BOOKS, front).firstSeen ==>
      Over(NO_BOOKS, visits).firstSeen[key] == Over(NO_BOOKS, front).firstSeen[key];
    assert key !in Over(NO_BOOKS, front).firstSeen ==>
      last.key == key && key !in Over(NO_BOOKS, front).done && Over(NO_BOOKS, visits).firstSeen[key] == last.now;
    hide Over, Visited, Met, Sent, FirstMet;
    FirstMetOfPrefix(front, last, key);
    DoneIsSent(front);
    WaitingIsUnsent(front);
    if key in Over(NO_BOOKS, front).firstSeen {
      WaitingSinceFirstMet(front, key);
    }
  }

  // ------------------------------------------------------------------- health

  ghost predicate IsOldest(firstSeen: map<string, Millis>, m: Millis) {
    (exists k :: k in firstSeen && firstSeen[k] == m) && forall k | k in firstSeen :: m <= firstSeen[k]
  }

  datatype UploadHealth = UploadHealth(queued: nat, failures: nat, oldestPendingMs: Option<int>)

  ghost predicate IsHealth(b: Books, now: Millis, h: UploadHealth) {
    && h.queued == |b.firstSeen|
    && h.failures == b.failures
    && (h.oldestPendingMs.None? <==> b.firstSeen == map[])
    && (h.oldestPendingMs.Some? ==> IsOldest(b.firstSeen, now - h.oldestPendingMs.value))
  }

  lemma {:induction false} StuckKeepsItsAge(b: Books, visits: seq<Visit>, key: string)
    requires key in b.firstSeen && key !in b.done && key in Over(b, visits).firstSeen
    ensures Over(b, visits).firstSeen[key] == b.firstSeen[key]
  {
    if visits != [] {
      StuckEarlier(b, visits, key);
      StuckKeepsItsAge(b, visits[..|visits| - 1], key);
    }
  }

  lemma {:induction false} StuckEarlier(b: Books, visits: seq<Visit>, key: string)
    requires visits != [] && key in b.firstSeen && key !in b.done && key in Over(b, visits).firstSeen
    ensures key in Over(b, visits[..|visits| - 1]).firstSeen
  {
    var front := visits[..|visits| - 1];
    KeySomewhere(b, front, key);
  }

  /** A key once waiting stays in the books, waiting or done, never both. */
  lemma {:induction false} KeySomewhere(b: Books, visits: seq<Visit>, key: string)
    requires key in b.firstSeen && key !in b.done
    ensures key in Over(b, visits).firstSeen <==> key !in Over(b, visits).done
  {
    if visits != [] {
      KeySomewhere(b, visits[..|visits| - 1], key);
    }
  }

  /** While the oldest waiting key stays stuck, the reported age grows by at least the time that passed. */
  lemma AgeNeverShrinks(b: Books, visits: seq<Visit>, key: string, before: Millis, after: Millis, h: UploadHealth,
      later: UploadHealth)
    requires b.firstSeen.Keys !! b.done && before <= after
    requires key in b.firstSeen && IsOldest(b.firstSeen, b.firstSeen[key]) && key in Over(b, visits).firstSeen
    requires IsHealth(b, before, h) && IsHealth(Over(b, visits), after, later)
    ensures h.oldestPendingMs.Some? && later.oldestPendingMs.Some?
    ensures later.oldestPendingMs.value >= h.oldestPendingMs.value + (after - before)
  {
    KeySomewhere(b, visits, key);
    StuckKeepsItsAge(b, visits, key);
  }

  // ------------------------------------------------------------- the uploader

  /** A live track's directory; its last path segment becomes part of the key. */
  datatype TrackDir = TrackDir(trackId: string, dir: string)

  function Basename(path: string): (r: string)
    ensures '/' !in r
  {
    if path == "" || path[|path| - 1] == '/' then "" else Basename(path[..|path| - 1]) + [path[|path| - 1]]
  }

  function SegmentObject(prefix: string, hostname: string, dir: string, name: string): string {
    prefix + "/" + hostname + "/" + Basename(dir) + "/" + name
  }

  function TrackKeys(track: TrackDir, listing: Option<seq<string>>, prefix: string, hostname: string): seq<string> {
    match listing
    case None => []
    case Some(names) =>
      var closed := ClosedSegments(names);
      seq(|closed|, k requires 0 <= k < |closed| => SegmentObject(prefix, hostname, track.dir, closed[k]))
  }

  /** The keys one sweep meets; a directory that cannot be listed contributes none. */
  function SweepKeys(tracks: seq<TrackDir>, listings: seq<Option<seq<string>>>, prefix: string,
      hostname: string): seq<string>
    requires |listings| == |tracks|
  {
    if tracks == [] then []
    else
      var n := |tracks| - 1;
      SweepKeys(tracks[..n], listings[..n], prefix, hostname) + TrackKeys(tracks[n], listings[n], prefix, hostname)
  }

  function VisitsOf(keys: seq<string>, clock: nat -> Millis, sends: nat -> bool): seq<Visit> {
    seq(|keys|, k requires 0 <= k < |keys| => Visit(keys[k], clock(k), sends(k)))
  }

  class ContinuousUploader {
    var done: set<string>
    var firstSeen: map<string, Millis>
    var failures: nat

    constructor ()
      ensures Value() == NO_BOOKS
    {
      done, firstSeen, failures := {}, map[], 0;
    }

    function Value(): Books
      reads this
    {
      Books(done, firstSeen, failures)
    }

    /** `clock(v)` and `sends(v)` are the clock and the outcome at the `v`-th segment met. */
    method Sweep(tracks: seq<TrackDir>, listings: seq<Option<seq<string>>>, prefix: string, hostname: string,
                 clock: nat -> Millis, sends: nat -> bool)
      requires |listings| == |tracks|
      modifies this
      ensures Value() == Over(old(Value()), VisitsOf(SweepKeys(tracks, listings, prefix, hostname), clock, sends))
    {
      hide Visited, Over, ClosedSegments, Basename, VisitsOf;
      ghost var met: seq<string> := [];
      var v := 0;
      NoVisits(old(Value()), clock, sends);
      for t := 0 to |tracks|
        invariant met == SweepKeys(tracks[..t], listings[..t], prefix, hostname) && v == |met|
        invariant Value() == Over(old(Value()), VisitsOf(met, clock, sends))
      {
        assert tracks[..t + 1][..t] == tracks[..t] && listings[..t + 1][..t] == listings[..t];
        if listings[t].None? {
          assert met + [] == met;
          continue;
        }
        var closed := ClosedSegments(listings[t].value);
        ghost var before := met;
        ghost var keys := TrackKeys(tracks[t], listings[t], prefix, hostname);
        for k := 0 to |closed|
          invariant met == before + keys[..k] && v == |met|
          invariant Value() == Over(old(Value()), VisitsOf(met, clock, sends))
        {
          var key := SegmentObject(prefix, hostname, tracks[t].dir, closed[k]);
          VisitKey(key, clock(v), sends(v));
          VisitsGrow(old(Value()), met, key, clock, sends);
          assert before + keys[..k] + [key] == before + keys[..k + 1];
          met := met + [key];
          v := v + 1;
        }
        assert keys[..|closed|] == keys;
      }
      assert tracks[..|tracks|] == tracks && listings[..|tracks|] == listings;
    }

    /** The body of the inner loop. */
    method VisitKey(key: string, now: Millis, sends: bool)
      modifies this
      ensures Value() == Visited(old(Value()), Visit(key, now, sends))
    {
      if key in done {
        return;
      }
      if key !in firstSeen {
        firstSeen := firstSeen[key := now];
      }
      if sends {
        done := done + {key};
        firstSeen := firstSeen - {key};
      } else {
        failures := failures + 1;
      }
    }

    method Health(now: Millis) returns (h: UploadHealth)
      ensures IsHealth(Value(), now, h)
    {
      if firstSeen == map[] {
        return UploadHealth(0, failures, None);
      }
      var left := firstSeen.Keys;
      var first :| first in left;
      var oldest := firstSeen[first];
      while left != {}
        invariant left <= firstSeen.Keys
        invariant exists k :: k in firstSeen && firstSeen[k] == oldest
        invariant forall k | k in firstSeen && k !in left :: oldest <= firstSeen[k]
        decreases left
      {
        var k :| k in left;
        if firstSeen[k] < oldest {
          oldest := firstSeen[k];
        }
        left := left - {k};
      }
      return UploadHealth(|firstSeen|, failures, Some(now - oldest));
    }
  }

  lemma NoVisits(b: Books, clock: nat -> Millis, sends: nat -> bool)
    ensures Over(b, VisitsOf([], clock, sends)) == b
  {
  }

  lemma VisitsGrow(b: Books, keys: seq<string>, key: string, clock: nat -> Millis, sends: nat -> bool)
    ensures Over(b, VisitsOf(keys + [key], clock, sends)) ==
      Visited(Over(b, VisitsOf(keys, clock, sends)), Visit(key, clock(|keys|), sends(|keys|)))
  {
    var visits := VisitsOf(keys + [key], clock, sends);
    assert visits[..|keys|] == VisitsOf(keys, clock, sends);
  }
}

/** Sending a session's files through a bounded pool of workers, and reading every object back. */
module Upload {
  import opened Wrappers

  // --------------------------------------------------------------- the pool

  /** The items not yet shifted from the queue, and what each runner is working on. */
  datatype Pool = Pool(queue: seq<nat>, holding: seq<Option<nat>>)

  function Range(from: nat, to: nat): (r: seq<nat>)
    requires from <= to
    ensures |r| == to - from && forall k | 0 <= k < |r| :: r[k] == from + k
  {
    seq(to - from, k => from + k)
  }

  /** `Math.min(concurrency, queue.length)`, as a length. */
  function Runners(n: nat, concurrency: int): nat {
    if concurrency <= 0 then 0 else if concurrency < n then concurrency else n
  }

  /** The first `k` runners have started; each shifted one item before its first `await`. */
  function Started(n: nat, k: nat): (p: Pool)
    requires k <= n
    ensures |p.queue| == n - k && |p.holding| == k
  {
    if k == 0 then Pool(Range(0, n), [])
    else
      var p := Started(n, k - 1);
      Pool(p.queue[1..], p.holding + [Some(p.queue[0])])
  }

  function Open(n: nat, concurrency: int): Pool {
    Started(n, Runners(n, concurrency))
  }

  predicate Busy(p: Pool, r: nat) {
    r < |p.holding| && p.holding[r].Some?
  }

  /** Runner `r`'s worker resolved: it shifts the next item, or returns. */
  function Resolve(p: Pool, r: nat): Pool
    requires Busy(p, r)
  {
    if p.queue == [] then p.(holding := p.holding[r := None])
    else Pool(p.queue[1..], p.holding[r := Some(p.queue[0])])
  }

  /** Runner `r`'s worker threw: the runner is gone, the others go on. */
  function Reject(p: Pool, r: nat): Pool
    requires Busy(p, r)
  {
    p.(holding := p.holding[r := None])
  }

  predicate Held(p: Pool, i: nat) {
    exists r :: 0 <= r < |p.holding| && p.holding[r] == Some(i)
  }

  predicate HeldOnce(p: Pool) {
    forall q, r | 0 <= q < r < |p.holding| && p.holding[q].Some? :: p.holding[q] != p.holding[r]
  }

  /**
   * Of `n` items a front part was handed out. Each of those is with one runner
   * or has ended, and a runner without one threw or found the queue empty.
   */
  ghost predicate Sound(p: Pool, n: nat, concurrency: int, ended: set<nat>, broke: set<nat>) {
    && |p.holding| == Runners(n, concurrency)
    && |p.queue| <= n && p.queue == Range(n - |p.queue|, n)
    && HeldOnce(p)
    && (forall i: nat :: i < n - |p.queue| <==> Held(p, i) || i in ended)
    && (forall i | i in ended :: !Held(p, i))
    && (forall r | 0 <= r < |p.holding| && p.holding[r].None? :: r in broke || p.queue == [])
  }

  lemma {:induction false} StartedIsSound(n: nat, k: nat)
    requires k <= n
    ensures Started(n, k).queue == Range(k, n)
    ensures forall r | 0 <= r < k :: Started(n, k).holding[r] == Some(r)
  {
    if k > 0 {
      StartedIsSound(n, k - 1);
    }
  }

  lemma OpenIsSound(n: nat, concurrency: int)
    ensures Sound(Open(n, concurrency), n, concurrency, {}, {})
  {
    var k, p := Runners(n, concurrency), Open(n, concurrency);
    StartedIsSound(n, k);
    forall i: nat ensures i < k <==> Held(p, i) {
      if i < k {
        assert p.holding[i] == Some(i);
      }
    }
  }

  lemma ResolveKeeps(p: Pool, r: nat, n: nat, concurrency: int, ended: set<nat>, broke: set<nat>)
    requires Sound(p, n, concurrency, ended, broke) && Busy(p, r)
    ensures Sound(Resolve(p, r), n, concurrency, ended + {p.holding[r].value}, broke)
  {
    var i, q := p.holding[r].value, Resolve(p, r);
    assert q.queue == Range(n - |q.queue|, n);
    assert Held(p, i);
    forall j: nat ensures Held(q, j) <==> (Held(p, j) && j != i) || (p.queue != [] && j == p.queue[0]) {
      if Held(p, j) && j != i {
        var s :| 0 <= s < |p.holding| && p.holding[s] == Some(j);
        assert q.holding[s] == Some(j);
      } else if p.queue != [] && j == p.queue[0] {
        assert q.holding[r] == Some(j);
      }
    }
    if p.queue != [] {
      assert !Held(p, p.queue[0]) && p.queue[0] !in ended;
    }
    forall a, b | 0 <= a < b < |q.holding| && q.holding[a].Some? ensures q.holding[a] != q.holding[b] {
      if a == r || b == r {
        var other := if a == r then b else a;
        if p.holding[other].Some? {
          assert Held(p, p.holding[other].value);
        }
      }
    }
  }

  lemma RejectKeeps(p: Pool, r: nat, n: nat, concurrency: int, ended: set<nat>, broke: set<nat>)
    requires Sound(p, n, concurrency, ended, broke) && Busy(p, r)
    ensures Sound(Reject(p, r), n, concurrency, ended + {p.holding[r].value}, broke + {r})
  {
    var i, q := p.holding[r].value, Reject(p, r);
    assert Held(p, i);
    forall j: nat ensures Held(q, j) <==> Held(p, j) && j != i {
      if Held(p, j) && j != i {
        var s :| 0 <= s < |p.holding| && p.holding[s] == Some(j);
        assert q.holding[s] == Some(j);
      }
    }
  }

  /** One worker settling. */
  datatype Settling = Resolved(runner: nat) | Rejected(runner: nat)

  function After(p: Pool, s: Settling): Pool
    requires Busy(p, s.runner)
  {
    if s.Resolved? then Resolve(p, s.runner) else Reject(p, s.runner)
  }

  /** `run` lists, for every moment, the pool and the worker that settles next. */
  ghost predicate IsPoolRun(n: nat, concurrency: int, pools: seq<Pool>, run: seq<Settling>) {
    && |pools| == |run| + 1
    && pools[0] == Open(n, concurrency)
    && forall t | 0 <= t < |run| :: Busy(pools[t], run[t].runner) && pools[t + 1] == After(pools[t], run[t])
  }

  /** What the settling worker worked on. */
  function ItemOf(p: Pool, s: Settling): nat
    requires Busy(p, s.runner)
  {
    p.holding[s.runner].value
  }

  /** The items in the order their workers settled. */
  ghost function Ended(pools: seq<Pool>, run: seq<Settling>): seq<nat>
    requires |pools| == |run| + 1 && forall t | 0 <= t < |run| :: Busy(pools[t], run[t].runner)
  {
    seq(|run|, t requires 0 <= t < |run| => ItemOf(pools[t], run[t]))
  }

  ghost predicate EndedOnce(items: seq<nat>) {
    forall s, t | 0 <= s < t < |items| :: items[s] != items[t]
  }

  lemma {:induction false} PoolStaysSound(n: nat, concurrency: int, pools: seq<Pool>, run: seq<Settling>)
    returns (ended: set<nat>, broke: set<nat>)
    requires IsPoolRun(n, concurrency, pools, run)
    ensures Sound(pools[|run|], n, concurrency, ended, broke)
    ensures EndedOnce(Ended(pools, run)) && |ended| == |run|
    ensures forall i :: i in ended <==> i in Ended(pools, run)
    ensures broke != {} ==> exists t :: 0 <= t < |run| && run[t].Rejected?
  {
    hide Sound, Open, After;
    if run == [] {
      OpenIsSound(n, concurrency);
      ended, broke := {}, {};
    } else {
      var t := |run| - 1;
      var last := run[t];
      ended, broke := PoolStaysSound(n, concurrency, pools[..t + 1], run[..t]);
      var i := pools[t].holding[last.runner].value;
      StepKeeps(pools[t], last, n, concurrency, ended, broke);
      assert Ended(pools, run) == Ended(pools[..t + 1], run[..t]) + [i];
      ended := ended + {i};
      broke := if last.Rejected? then broke + {last.runner} else broke;
    }
  }

  lemma StepKeeps(p: Pool, s: Settling, n: nat, concurrency: int, ended: set<nat>, broke: set<nat>)
    requires Sound(p, n, concurrency, ended, broke) && Busy(p, s.runner)
    ensures p.holding[s.runner].value !in ended
    ensures Sound(After(p, s), n, concurrency, ended + {p.holding[s.runner].value}, if s.Rejected? then
      broke + {s.runner} else broke)
  {
    assert Held(p, p.holding[s.runner].value);
    if s.Resolved? {
      ResolveKeeps(p, s.runner, n, concurrency, ended, broke);
    } else {
      RejectKeeps(p, s.runner, n, concurrency, ended, broke);
    }
  }

  lemma BelowBound(s: set<nat>, n: nat)
    requires forall i | i in s :: i < n
    ensures |s| <= n
  {
    if n == 0 {
      assert s == {};
    } else {
      BelowBound(s - {n - 1}, n - 1);
      assert |s| <= |s - {n - 1}| + 1;
    }
  }

  /**
   * In every interleaving: no item is worked on twice, at most `concurrency`
   * are in flight, at most one settling per item ever happens, and a pool that
   * has come to rest with no worker having thrown has settled every item, as
   * long as `concurrency` admits a runner at all.
   */
  lemma PoolIsExact(n: nat, concurrency: int, pools: seq<Pool>, run: seq<Settling>)
    requires IsPoolRun(n, concurrency, pools, run)
    ensures EndedOnce(Ended(pools, run)) && |run| <= n
    ensures forall r: nat | Busy(pools[|run|], r) ::
      pools[|run|].holding[r].value < n && pools[|run|].holding[r].value !in Ended(pools, run)
    ensures HeldOnce(pools[|run|]) && |pools[|run|].holding| <= if concurrency < 0 then 0 else concurrency
    ensures (forall r: nat :: !Busy(pools[|run|], r)) && (forall t | 0 <= t < |run| :: run[t].Resolved?) ==>
      ((forall i: nat | i < n :: i in Ended(pools, run)) <==> concurrency >= 1 || n == 0)
  {
    var ended, broke := PoolStaysSound(n, concurrency, pools, run);
    var p := pools[|run|];
    assert run != [] ==> Busy(pools[0], run[0].runner);
    forall r: nat | Busy(p, r) ensures p.holding[r].value < n && p.holding[r].value !in Ended(pools, run) {
      assert Held(p, p.holding[r].value);
    }
    BelowBound(ended, n);
    if (forall r: nat :: !Busy(p, r)) && (forall t | 0 <= t < |run| :: run[t].Resolved?) {
      if concurrency >= 1 && n > 0 {
        RestMeansEnded(p, n, concurrency, ended, broke);
      } else if n > 0 {
        assert pools[0] == Open(n, concurrency) && |pools[0].holding| == 0;
        assert 0 !in Ended(pools, run);
      }
    }
  }

  // ---------------------------------------------------------------- one file

  /** What a put does: whether it reports success, and the size of the object it leaves, if it leaves one. */
  datatype Put = Put(succeeds: bool, lands: Option<nat>)

  /** How storage answers the worker of one file. */
  datatype Script = Script(headAnswered: bool, puts: nat -> Put)

  datatype FileOutcome = Skipped | Sent | GaveUp

  /** How far the worker of one file is: before the head request, before its next try, or settled. */
  datatype Job = Asking | Trying(attempt: nat) | Settled(outcome: FileOutcome, tries: nat)

  /** A job, and the size of the object under its key. */
  datatype Progress = Progress(job: Job, size: Option<nat>)

  /** One request of the worker. A head request that fails is an object that is not there. */
  function Work(at: Progress, bytes: nat, script: Script, retries: nat): Progress
    requires !at.job.Settled?
  {
    match at.job
    case Asking =>
      Progress(if script.headAnswered && at.size == Some(bytes) then Settled(Skipped, 0) else Trying(1), at.size)
    case Trying(a) =>
      if a > retries then Progress(Settled(GaveUp, retries), at.size)
      else
        var put := script.puts(a);
        Progress(if put.succeeds then Settled(Sent, a) else Trying(a + 1), if put.lands.Some? then put.lands else
          at.size)
  }

  /** The requests a worker may still make. */
  function Left(job: Job, retries: nat): nat {
    match job
    case Asking => retries + 3
    case Trying(a) => if a > retries then 1 else retries - a + 2
    case Settled(_, _) => 0
  }

  /** The worker on its own, to the end. */
  function Finish(at: Progress, bytes: nat, script: Script, retries: nat): (r: Progress)
    ensures r.job.Settled?
    decreases Left(at.job, retries)
  {
    if at.job.Settled? then at else Finish(Work(at, bytes, script, retries), bytes, script, retries)
  }

  function Alone(size: Option<nat>, bytes: nat, script: Script, retries: nat): (r: Progress)
    ensures r.job.Settled?
  {
    Finish(Progress(Asking, size), bytes, script, retries)
  }

  ghost predicate NoSuccess(script: Script, from: nat, to: nat) {
    forall b: nat | from <= b <= to :: !script.puts(b).succeeds
  }

  ghost predicate FirstSuccess(script: Script, from: nat, a: nat) {
    from <= a && script.puts(a).succeeds && forall b: nat | from <= b < a :: !script.puts(b).succeeds
  }

  /** The object after the first `n` tries: what the last of them that left anything left. */
  function SizeAfter(size: Option<nat>, script: Script, n: nat): Option<nat> {
    if n == 0 then size else if script.puts(n).lands.Some? then script.puts(n).lands else SizeAfter(size, script, n - 1)
  }

  lemma {:induction false} TriesExact(at: Progress, start: Option<nat>, bytes: nat, script: Script, retries: nat)
    requires at.job.Trying? && 1 <= at.job.attempt <= retries + 1 &&
      at.size == SizeAfter(start, script, at.job.attempt - 1)
    ensures var job := Finish(at, bytes, script, retries).job;
      && Finish(at, bytes, script, retries).size == SizeAfter(start, script, job.tries)
      && job.tries <= retries && job.outcome != Skipped
      && (job.outcome == Sent ==> FirstSuccess(script, at.job.attempt, job.tries))
      && (job.outcome == GaveUp ==> job.tries == retries && NoSuccess(script, at.job.attempt, retries))
    decreases Left(at.job, retries)
  {
    var a := at.job.attempt;
    var next := Work(at, bytes, script, retries);
    if a <= retries && !script.puts(a).succeeds {
      TriesExact(next, start, bytes, script, retries);
    } else {
      assert Finish(at, bytes, script, retries) == next;
    }
  }

  /**
   * A file is skipped exactly when a head request answers its size; otherwise it
   * is put until the first success, at most `retries` times, and given up only
   * when every one of those tries failed.
   */
  lemma AloneExact(size: Option<nat>, bytes: nat, script: Script, retries: nat)
    ensures var r := Alone(size, bytes, script, retries);
      && (r.job.outcome == Skipped <==> script.headAnswered && size == Some(bytes))
      && (r.job.outcome == Skipped ==> r.job.tries == 0)
      && r.size == SizeAfter(size, script, r.job.tries)
      && (r.job.outcome == Sent ==> FirstSuccess(script, 1, r.job.tries))
      && (r.job.outcome == GaveUp ==> r.job.tries == retries && NoSuccess(script, 1, retries))
      && r.job.tries <= retries
  {
    var next := Work(Progress(Asking, size), bytes, script, retries);
    assert Alone(size, bytes, script, retries) == Finish(next, bytes, script, retries);
    if next.job.Trying? {
      TriesExact(next, size, bytes, script, retries);
    }
  }

  // ----------------------------------------------------------------- sorting

  /** The order of `sort()` on strings: by the first difference, a prefix first. */
  predicate NotAfter(s: string, t: string) {
    s == "" || (t != "" && (s[0] < t[0] || (s[0] == t[0] && NotAfter(s[1..], t[1..]))))
  }

  lemma {:induction false} OrderIsTotal(s: string, t: string)
    ensures NotAfter(s, t) || NotAfter(t, s)
    ensures NotAfter(s, t) && NotAfter(t, s) ==> s == t
  {
    if s != "" && t != "" && s[0] == t[0] {
      OrderIsTotal(s[1..], t[1..]);
      assert s == [s[0]] + s[1..] && t == [t[0]] + t[1..];
    }
  }

  lemma {:induction false} OrderIsTransitive(s: string, t: string, u: string)
    requires NotAfter(s, t) && NotAfter(t, u)
    ensures NotAfter(s, u)
  {
    if s != "" && s[0] == t[0] && t[0] == u[0] {
      OrderIsTransitive(s[1..], t[1..], u[1..]);
    }
  }

  predicate Ordered(keys: seq<string>) {
    forall i, j | 0 <= i < j < |keys| :: NotAfter(keys[i], keys[j])
  }

  function Insert(key: string, keys: seq<string>): (r: seq<string>)
    ensures multiset(r) == multiset{key} + multiset(keys)
  {
    if keys == [] then [key]
    else
      assert keys == [keys[0]] + keys[1..];
      if NotAfter(key, keys[0]) then [key] + keys else [keys[0]] + Insert(key, keys[1..])
  }

  function Sort(keys: seq<string>): (r: seq<string>)
    ensures multiset(r) == multiset(keys)
  {
    if keys == [] then []
    else
      assert keys == [keys[0]] + keys[1..];
      Insert(keys[0], Sort(keys[1..]))
  }

  ghost predicate NoneBefore(key: string, keys: seq<string>) {
    forall k | 0 <= k < |keys| :: NotAfter(key, keys[k])
  }

  lemma {:induction false} InsertKeepsOrder(key: string, keys: seq<string>, low: string)
    requires Ordered(keys) && NoneBefore(low, keys) && NotAfter(low, key)
    ensures Ordered(Insert(key, keys)) && NoneBefore(low, Insert(key, keys))
  {
    hide NotAfter;
    if keys != [] {
      OrderIsTotal(key, keys[0]);
      if NotAfter(key, keys[0]) {
        forall k | 0 <= k < |keys| ensures NotAfter(key, keys[k]) {
          if k > 0 {
            OrderIsTransitive(key, keys[0], keys[k]);
          }
        }
      } else {
        InsertKeepsOrder(key, keys[1..], keys[0]);
        InsertKeepsOrder(key, keys[1..], low);
      }
    }
  }

  lemma {:induction false} SortOrders(keys: seq<string>)
    ensures Ordered(Sort(keys))
  {
    if keys != [] {
      SortOrders(keys[1..]);
      InsertKeepsOrder(keys[0], Sort(keys[1..]), "");
    }
  }

  lemma HeadIsLeast(a: seq<string>, b: seq<string>)
    requires Ordered(a) && multiset(a) == multiset(b) && a != [] && b != []
    ensures NotAfter(a[0], b[0])
  {
    hide NotAfter;
    assert b[0] in multiset(a);
    var i :| 0 <= i < |a| && a[i] == b[0];
    OrderIsTotal(a[0], a[0]);
  }

  /** Ordered lists of the same keys are the same list. */
  lemma {:induction false} OrderedIsUnique(a: seq<string>, b: seq<string>)
    requires Ordered(a) && Ordered(b) && multiset(a) == multiset(b)
    ensures a == b
  {
    hide NotAfter;
    assert |multiset(a)| == |a| && |multiset(b)| == |b|;
    if a != [] {
      HeadIsLeast(a, b);
      HeadIsLeast(b, a);
      OrderIsTotal(a[0], b[0]);
      assert a == [a[0]] + a[1..] && b == [a[0]] + b[1..];
      assert multiset(a[1..]) == multiset(b[1..]) by {
        assert multiset(a) == multiset{a[0]} + multiset(a[1..]);
        assert multiset(b) == multiset{a[0]} + multiset(b[1..]);
        assert multiset(a[1..]) == multiset(a) - multiset{a[0]};
        assert multiset(b[1..]) == multiset(b) - multiset{a[0]};
      }
      OrderedIsUnique(a[1..], b[1..]);
    }
  }

  /** The report does not depend on which worker finished first. */
  lemma SortIsStable(a: seq<string>, b: seq<string>)
    requires multiset(a) == multiset(b)
    ensures Sort(a) == Sort(b)
  {
    SortOrders(a);
    SortOrders(b);
    OrderedIsUnique(Sort(a), Sort(b));
  }

  // ------------------------------------------------------------ the uploader

  /** A local file, and the key and size its object is to have. */
  datatype FileToSend = FileToSend(key: string, bytes: nat)

  type Objects = map<string, nat>

  function SizeOf(objects: Objects, key: string): Option<nat> {
    if key in objects then Some(objects[key]) else None
  }

  function Store(objects: Objects, key: string, size: Option<nat>): Objects {
    if size.Some? then objects[key := size.value] else objects
  }

  ghost predicate DistinctKeys(files: seq<FileToSend>) {
    forall i, j | 0 <= i < j < |files| :: files[i].key != files[j].key
  }

  /** What the worker of file `i` would do with storage to itself. */
  function AloneAt(files: seq<FileToSend>, scripts: seq<Script>, retries: nat, objects: Objects, i: nat): (r: Progress)
    requires i < |files| == |scripts|
    ensures r.job.Settled?
  {
    Alone(SizeOf(objects, files[i].key), files[i].bytes, scripts[i], retries)
  }

  /** Every worker, whatever the others did meanwhile, is still on the way to what it would do alone. */
  ghost predicate OnTrack(files: seq<FileToSend>, scripts: seq<Script>, retries: nat, before: Objects, now: Objects,
      jobs: seq<Job>)
    requires |files| == |scripts| == |jobs|
  {
    forall i | 0 <= i < |files| ::
      Finish(Progress(jobs[i], SizeOf(now, files[i].key)), files[i].bytes, scripts[i], retries) ==
        AloneAt(files, scripts, retries, before, i)
  }

  ghost predicate OthersUntouched(files: seq<FileToSend>, before: Objects, now: Objects) {
    forall key | forall i | 0 <= i < |files| :: files[i].key != key :: SizeOf(now, key) == SizeOf(before, key)
  }

  /** Every file already has an object of its size, and every head request is answered. */
  ghost predicate AllPresent(files: seq<FileToSend>, scripts: seq<Script>, objects: Objects)
    requires |files| == |scripts|
  {
    forall i | 0 <= i < |files| :: scripts[i].headAnswered && SizeOf(objects, files[i].key) == Some(files[i].bytes)
  }

  function TotalLeft(jobs: seq<Job>, retries: nat): nat {
    if jobs == [] then 0 else TotalLeft(jobs[..|jobs| - 1], retries) + Left(jobs[|jobs| - 1], retries)
  }

  lemma {:induction false} TotalLeftUpdate(jobs: seq<Job>, i: nat, job: Job, retries: nat)
    requires i < |jobs|
    ensures TotalLeft(jobs[i := job], retries) == TotalLeft(jobs, retries) - Left(jobs[i], retries) + Left(job, retries)
  {
    var n := |jobs| - 1;
    if i < n {
      assert jobs[i := job][..n] == jobs[..n][i := job];
      TotalLeftUpdate(jobs[..n], i, job, retries);
    } else {
      assert jobs[i := job][..n] == jobs[..n];
    }
  }

  lemma WorkStaysOnTrack(files: seq<FileToSend>, scripts: seq<Script>, retries: nat, before: Objects, now: Objects,
      jobs: seq<Job>, i: nat, next: Progress)
    requires |files| == |scripts| == |jobs| && DistinctKeys(files) &&
      OnTrack(files, scripts, retries, before, now, jobs)
    requires i < |files| && !jobs[i].Settled?
    requires next == Work(Progress(jobs[i], SizeOf(now, files[i].key)), files[i].bytes, scripts[i], retries)
    ensures OnTrack(files, scripts, retries, before, Store(now, files[i].key, next.size), jobs[i := next.job])
  {
    hide Work, AloneAt;
    WorkRemovesNothing(Progress(jobs[i], SizeOf(now, files[i].key)), files[i].bytes, scripts[i], retries);
  }

  lemma WorkRemovesNothing(at: Progress, bytes: nat, script: Script, retries: nat)
    requires !at.job.Settled?
    ensures at.size.Some? ==> Work(at, bytes, script, retries).size.Some?
    ensures Left(Work(at, bytes, script, retries).job, retries) < Left(at.job, retries)
  {
  }

  /** Jobs that never went past a skip. */
  ghost predicate NothingSent(jobs: seq<Job>) {
    forall i | 0 <= i < |jobs| :: jobs[i] == Asking || jobs[i] == Settled(Skipped, 0)
  }

  ghost predicate TriesBounded(jobs: seq<Job>, retries: nat) {
    forall i | 0 <= i < |jobs| ::
      (jobs[i].Trying? ==> jobs[i].attempt <= retries + 1) && (jobs[i].Settled? ==> jobs[i].tries <= retries)
  }

  ghost predicate GaveUpOn(files: seq<FileToSend>, jobs: seq<Job>, key: string)
    requires |files| == |jobs|
  {
    exists i :: 0 <= i < |files| && files[i].key == key && jobs[i].Settled? && jobs[i].outcome == GaveUp
  }

  /** How many files were given up. */
  function GivenUp(jobs: seq<Job>): nat {
    if jobs == [] then 0 else GivenUp(jobs[..|jobs| - 1]) + if IsGivenUp(jobs[|jobs| - 1]) then 1 else 0
  }

  predicate IsGivenUp(job: Job) {
    job.Settled? && job.outcome == GaveUp
  }

  lemma {:induction false} GivenUpUpdate(jobs: seq<Job>, i: nat, job: Job)
    requires i < |jobs| && !IsGivenUp(jobs[i])
    ensures GivenUp(jobs[i := job]) == GivenUp(jobs) + if IsGivenUp(job) then 1 else 0
  {
    hide IsGivenUp;
    var n := |jobs| - 1;
    if i < n {
      assert jobs[i := job][..n] == jobs[..n][i := job];
      GivenUpUpdate(jobs[..n], i, job);
    } else {
      assert jobs[i := job][..n] == jobs[..n];
    }
  }

  /** The settled jobs are those of the items the pool has ended, and a runner broke only over a file given up. */
  ghost predicate Matched(jobs: seq<Job>, ended: set<nat>, broke: set<nat>, failed: Option<string>) {
    && (forall i: nat | i < |jobs| :: i in ended <==> jobs[i].Settled?)
    && |broke| <= GivenUp(jobs)
    && (failed.None? ==> broke == {} && forall i | 0 <= i < |jobs| && jobs[i].Settled? :: jobs[i].outcome != GaveUp)
  }

  /** What holds at every moment of sending, in every interleaving. */
  ghost predicate SentSoFar(files: seq<FileToSend>, scripts: seq<Script>, retries: nat, before: Objects,
      now: Objects, jobs: seq<Job>, failed: Option<string>)
    requires |files| == |scripts| == |jobs|
  {
    && TriesBounded(jobs, retries)
    && OthersUntouched(files, before, now)
    && (DistinctKeys(files) ==> OnTrack(files, scripts, retries, before, now, jobs))
    && (failed.Some? ==> GaveUpOn(files, jobs, failed.value))
    && (AllPresent(files, scripts, before) ==> now == before && NothingSent(jobs) && failed.None?)
  }

  /** Storage and the jobs at one moment. */
  datatype Moment = Moment(objects: Objects, jobs: seq<Job>)

  ghost predicate NoneGivenUp(jobs: seq<Job>) {
    forall i | 0 <= i < |jobs| && jobs[i].Settled? :: jobs[i].outcome != GaveUp
  }

  /** The file with this key is the only one given up. */
  ghost predicate GaveUpFirst(files: seq<FileToSend>, jobs: seq<Job>, key: string)
    requires |files| == |jobs|
  {
    exists i :: 0 <= i < |files| && files[i].key == key && jobs[i].Settled? && jobs[i].outcome == GaveUp
      && forall j | 0 <= j < |jobs| && j != i && jobs[j].Settled? :: jobs[j].outcome != GaveUp
  }

  ghost predicate WasTold(files: seq<FileToSend>, scripts: seq<Script>, retries: nat, before: Objects, told: Moment,
      failed: Option<string>)
    requires |files| == |scripts|
  {
    && |told.jobs| == |files| && SentSoFar(files, scripts, retries, before, told.objects, told.jobs, failed)
    && failed.Some? && GaveUpFirst(files, told.jobs, failed.value)
  }

  lemma NoneYet(jobs: seq<Job>, ended: set<nat>, broke: set<nat>, failed: Option<string>)
    requires Matched(jobs, ended, broke, failed)
    ensures failed.None? ==> NoneGivenUp(jobs)
  {
  }

  lemma FirstIsTold(files: seq<FileToSend>, scripts: seq<Script>, retries: nat, before: Objects, jobs: seq<Job>, i: nat,
      told: Moment, failed: Option<string>)
    requires |files| == |scripts| == |jobs| == |told.jobs| && i < |files| && failed == Some(files[i].key)
    requires NoneGivenUp(jobs) && told.jobs[i].Settled? && told.jobs[i].outcome == GaveUp
    requires told.jobs == jobs[i := told.jobs[i]]
    requires SentSoFar(files, scripts, retries, before, told.objects, told.jobs, failed)
    ensures WasTold(files, scripts, retries, before, told, failed)
  {
    hide SentSoFar;
  }

  lemma WorkMatches(jobs: seq<Job>, ended: set<nat>, broke: set<nat>, failed: Option<string>, i: nat, r: nat,
      next: Job, key: string)
    requires Matched(jobs, ended, broke, failed) && i < |jobs| && i !in ended
    ensures !next.Settled? ==> Matched(jobs[i := next], ended, broke, failed)
    ensures next.Settled? && next.outcome != GaveUp ==> Matched(jobs[i := next], ended + {i}, broke, failed)
    ensures next.Settled? && next.outcome == GaveUp ==>
      Matched(jobs[i := next], ended + {i}, broke + {r}, if failed.Some? then failed else Some(key))
  {
    GivenUpUpdate(jobs, i, next);
    assert |broke + {r}| <= |broke| + 1;
  }

  lemma WorkKeeps(files: seq<FileToSend>, scripts: seq<Script>, retries: nat, before: Objects, now: Objects,
      jobs: seq<Job>, failed: Option<string>, i: nat, next: Progress)
    requires |files| == |scripts| == |jobs| && SentSoFar(files, scripts, retries, before, now, jobs, failed)
    requires i < |files| && !jobs[i].Settled?
    requires next == Work(Progress(jobs[i], SizeOf(now, files[i].key)), files[i].bytes, scripts[i], retries)
    ensures Left(next.job, retries) < Left(jobs[i], retries)
    ensures var gaveUp := next.job.Settled? && next.job.outcome == GaveUp;
      SentSoFar(files, scripts, retries, before, Store(now, files[i].key, next.size), jobs[i := next.job],
                if failed.None? && gaveUp then Some(files[i].key) else failed)
  {
    if DistinctKeys(files) {
      WorkStaysOnTrack(files, scripts, retries, before, now, jobs, i, next);
    }
    hide OnTrack, DistinctKeys;
    var later := jobs[i := next.job];
    assert AllPresent(files, scripts, before) ==> Store(now, files[i].key, next.size) == now;
    if failed.Some? {
      var k :| 0 <= k < |files| && files[k].key == failed.value && jobs[k].Settled? && jobs[k].outcome == GaveUp;
      assert later[k] == jobs[k];
    } else if next.job.Settled? && next.job.outcome == GaveUp {
      assert later[i].outcome == GaveUp;
    }
  }

  // ---------------------------------------------------------------- readback

  /** A head request that is not answered reads back as no object. */
  function Reply(objects: Objects, key: string, answered: bool): Option<nat> {
    if answered then SizeOf(objects, key) else None
  }

  /** The keys, in file order, whose object does not read back at the file's size. */
  function ShortKeys(files: seq<FileToSend>, objects: Objects, answered: seq<bool>): (r: seq<string>)
    requires |answered| == |files|
    ensures r == [] <==> ReadsBack(files, objects, answered)
  {
    if files == [] then []
    else
      var n := |files| - 1;
      assert files[..n] + [files[n]] == files && answered[..n] + [answered[n]] == answered;
      ShortKeys(files[..n], objects, answered[..n]) +
        if Reply(objects, files[n].key, answered[n]) == Some(files[n].bytes) then [] else [files[n].key]
  }

  predicate ReadsBack(files: seq<FileToSend>, objects: Objects, answered: seq<bool>)
    requires |answered| == |files|
  {
    forall i | 0 <= i < |files| :: Reply(objects, files[i].key, answered[i]) == Some(files[i].bytes)
  }

  /** What item `i` adds to the report once it was checked. */
  ghost function Adds(files: seq<FileToSend>, objects: Objects, answered: seq<bool>, checked: set<nat>,
      i: nat): multiset<string>
    requires i < |files| == |answered|
  {
    if i in checked && Reply(objects, files[i].key, answered[i]) != Some(files[i].bytes) then
      multiset{files[i].key} else multiset{}
  }

  /** The short keys of the items checked so far. */
  ghost function ShortAmong(files: seq<FileToSend>, objects: Objects, answered: seq<bool>, checked: set<nat>,
      n: nat): multiset<string>
    requires n <= |files| == |answered|
  {
    if n == 0 then multiset{}
    else ShortAmong(files, objects, answered, checked, n - 1) + Adds(files, objects, answered, checked, n - 1)
  }

  lemma {:induction false} NoneShort(files: seq<FileToSend>, objects: Objects, answered: seq<bool>, n: nat)
    requires n <= |files| == |answered|
    ensures ShortAmong(files, objects, answered, {}, n) == multiset{}
  {
    if n > 0 {
      NoneShort(files, objects, answered, n - 1);
    }
  }

  lemma AddsOneMore(files: seq<FileToSend>, objects: Objects, answered: seq<bool>, checked: set<nat>, i: nat, k: nat)
    requires i < |files| == |answered| && k < |files| && i !in checked
    ensures k != i ==> Adds(files, objects, answered, checked + {i}, k) == Adds(files, objects, answered, checked, k)
    ensures Adds(files, objects, answered, checked, i) == multiset{}
    ensures Adds(files, objects, answered, checked + {i}, i) == Adds(files, objects, answered, {i}, i)
  {
  }

  lemma {:induction false} ShortWithOneMore(files: seq<FileToSend>, objects: Objects, answered: seq<bool>,
      checked: set<nat>, i: nat, n: nat)
    requires n <= |files| == |answered| && i !in checked && i < |files|
    ensures i < n ==>
      ShortAmong(files, objects, answered, checked + {i}, n) ==
        ShortAmong(files, objects, answered, checked, n) + Adds(files, objects, answered, {i}, i)
    ensures n <= i ==>
      ShortAmong(files, objects, answered, checked + {i}, n) == ShortAmong(files, objects, answered, checked, n)
  {
    hide Adds;
    if n > 0 {
      ShortWithOneMore(files, objects, answered, checked, i, n - 1);
      AddsOneMore(files, objects, answered, checked, i, n - 1);
      var before := ShortAmong(files, objects, answered, checked, n - 1);
      var added, last := Adds(files, objects, answered, {i}, i), Adds(files, objects, answered, checked, n - 1);
      assert before + added + last == before + last + added;
    }
  }

  lemma {:induction false} AllChecked(files: seq<FileToSend>, objects: Objects, answered: seq<bool>,
      checked: set<nat>, n: nat)
    requires n <= |files| == |answered| && forall i: nat | i < |files| :: i in checked
    ensures ShortAmong(files, objects, answered, checked, n) == multiset(ShortKeys(files[..n], objects, answered[..n]))
  {
    hide ShortKeys, Adds;
    if n == 0 {
      NoFilesAreShort(objects);
      assert files[..0] == [] && answered[..0] == [];
    } else {
      AllChecked(files, objects, answered, checked, n - 1);
      ShortStep(files, objects, answered, checked, n);
    }
  }

  lemma NoFilesAreShort(objects: Objects)
    ensures ShortKeys([], objects, []) == []
  {
  }

  /** The `n`-th file's part of the short keys. */
  lemma ShortStep(files: seq<FileToSend>, objects: Objects, answered: seq<bool>, checked: set<nat>, n: nat)
    requires 0 < n <= |files| == |answered| && n - 1 in checked
    ensures multiset(ShortKeys(files[..n], objects, answered[..n])) ==
      multiset(ShortKeys(files[..n - 1], objects, answered[..n - 1])) + Adds(files, objects, answered, checked, n - 1)
  {
    hide SizeOf;
    var front, flags := files[..n], answered[..n];
    assert front[..n - 1] == files[..n - 1] && flags[..n - 1] == answered[..n - 1];
    var earlier := ShortKeys(files[..n - 1], objects, answered[..n - 1]);
    if Reply(objects, files[n - 1].key, answered[n - 1]) == Some(files[n - 1].bytes) {
      assert ShortKeys(front, objects, flags) == earlier + [];
      assert earlier + [] == earlier;
    } else {
      assert ShortKeys(front, objects, flags) == earlier + [files[n - 1].key];
    }
  }

  /** Once every item was checked, in whatever order, the sorted report is that of the files in order. */
  lemma ReportIsExact(files: seq<FileToSend>, objects: Objects, answered: seq<bool>, checked: set<nat>,
      missing: seq<string>)
    requires |files| == |answered| && forall i: nat | i < |files| :: i in checked
    requires multiset(missing) == ShortAmong(files, objects, answered, checked, |files|)
    ensures Sort(missing) == Sort(ShortKeys(files, objects, answered))
    ensures Sort(missing) == [] <==> ReadsBack(files, objects, answered)
  {
    hide ReadsBack, Sort;
    var n, short := |files|, ShortKeys(files, objects, answered);
    AllChecked(files, objects, answered, checked, n);
    assert files[..n] == files && answered[..n] == answered;
    SortIsStable(missing, short);
    assert |multiset(Sort(short))| == |Sort(short)| && |multiset(short)| == |short|;
  }

  ghost predicate CheckedSoFar(files: seq<FileToSend>, objects: Objects, answered: seq<bool>, checked: set<nat>,
      missing: seq<string>)
    requires |files| == |answered|
  {
    && (forall i | i in checked :: i < |files|)
    && multiset(missing) == ShortAmong(files, objects, answered, checked, |files|)
  }

  /** One worker of the readback: its item is checked and, when short, reported. */
  lemma CheckKeeps(files: seq<FileToSend>, objects: Objects, answered: seq<bool>, p: Pool, concurrency: int, r: nat,
      checked: set<nat>, missing: seq<string>)
    requires |files| == |answered| && CheckedSoFar(files, objects, answered, checked, missing)
    requires Sound(p, |files|, concurrency, checked, {}) && Busy(p, r)
    ensures var i := p.holding[r].value;
      && i < |files| && concurrency >= 1 && |checked| < |checked + {i}| <= |files|
      && Sound(Resolve(p, r), |files|, concurrency, checked + {i}, {})
      && CheckedSoFar(files, objects, answered, checked + {i},
                      if Reply(objects, files[i].key, answered[i]) == Some(files[i].bytes) then missing else
                        missing + [files[i].key])
  {
    hide Sound, ShortAmong, Resolve;
    HeldIsOpen(p, r, |files|, concurrency, checked, {});
    ResolveKeeps(p, r, |files|, concurrency, checked, {});
    var i := p.holding[r].value;
    ShortWithOneMore(files, objects, answered, checked, i, |files|);
    BelowBound(checked + {i}, |files|);
  }

  function TotalBytes(files: seq<FileToSend>): nat {
    if files == [] then 0 else TotalBytes(files[..|files| - 1]) + files[|files| - 1].bytes
  }

  datatype UploadResult = UploadResult(objects: nat, bytes: nat, verified: bool, missing: seq<string>)

  /** Files whose workers give up when left to themselves. */
  ghost predicate SomeGivesUp(files: seq<FileToSend>, scripts: seq<Script>, retries: nat, objects: Objects)
    requires |files| == |scripts|
  {
    exists i :: 0 <= i < |files| && AloneAt(files, scripts, retries, objects, i).job.outcome == GaveUp
  }

  /** Storage as it would be after each file was sent on its own. */
  ghost predicate EachSent(files: seq<FileToSend>, scripts: seq<Script>, retries: nat, before: Objects, now: Objects)
    requires |files| == |scripts|
  {
    && OthersUntouched(files, before, now)
    && forall i | 0 <= i < |files| :: SizeOf(now, files[i].key) == AloneAt(files, scripts, retries, before, i).size
  }

  /** How many of the first `n` files alone would be given up. */
  ghost function GiveUps(files: seq<FileToSend>, scripts: seq<Script>, retries: nat, objects: Objects, n: nat): nat
    requires n <= |files| == |scripts|
  {
    if n == 0 then 0
    else
      GiveUps(files, scripts, retries, objects, n - 1) +
      if IsGivenUp(AloneAt(files, scripts, retries, objects, n - 1).job) then 1 else 0
  }

  /** With distinct keys, at every moment of every interleaving a settled file has ended as it would alone. */
  lemma SettledAsAlone(files: seq<FileToSend>, scripts: seq<Script>, retries: nat, before: Objects, now: Objects,
      jobs: seq<Job>, failed: Option<string>, i: nat)
    requires |files| == |scripts| == |jobs| && DistinctKeys(files) && i < |jobs|
    requires SentSoFar(files, scripts, retries, before, now, jobs, failed)
    ensures jobs[i].Settled? ==>
      Progress(jobs[i], SizeOf(now, files[i].key)) == AloneAt(files, scripts, retries, before, i)
  {
    hide AloneAt;
  }

  lemma {:induction false} NoMoreGivenUp(files: seq<FileToSend>, scripts: seq<Script>, retries: nat, before: Objects,
      now: Objects, jobs: seq<Job>, failed: Option<string>, n: nat)
    requires n <= |files| == |scripts| == |jobs| && DistinctKeys(files)
    requires SentSoFar(files, scripts, retries, before, now, jobs, failed)
    ensures GivenUp(jobs[..n]) <= GiveUps(files, scripts, retries, before, n)
  {
    hide SentSoFar, AloneAt, DistinctKeys;
    if n > 0 {
      NoMoreGivenUp(files, scripts, retries, before, now, jobs, failed, n - 1);
      SettledAsAlone(files, scripts, retries, before, now, jobs, failed, n - 1);
      assert jobs[..n][..n - 1] == jobs[..n - 1];
    }
  }

  /**
   * When the pool has come to rest nothing depends on how its workers were
   * interleaved. Each settled file has ended as it would alone, and with fewer
   * files given up than runners every file is settled.
   */
  lemma RestIsDetermined(files: seq<FileToSend>, scripts: seq<Script>, retries: nat, before: Objects, now: Objects,
      jobs: seq<Job>, failed: Option<string>, runners: nat)
    requires |files| == |scripts| == |jobs| && DistinctKeys(files)
    requires SentSoFar(files, scripts, retries, before, now, jobs, failed)
    requires failed.None? && (runners > 0 || files == []) ==>
      forall i | 0 <= i < |jobs| :: jobs[i].Settled? && !IsGivenUp(jobs[i])
    requires GivenUp(jobs) < runners ==> forall i | 0 <= i < |jobs| :: jobs[i].Settled?
    ensures runners > 0 || files == [] ==> (failed.Some? <==> SomeGivesUp(files, scripts, retries, before))
    ensures forall i | 0 <= i < |jobs| && jobs[i].Settled? :: jobs[i] == AloneAt(files, scripts, retries, before, i).job
    ensures GiveUps(files, scripts, retries, before, |files|) < runners ==>
      EachSent(files, scripts, retries, before, now) && forall i | 0 <= i < |jobs| :: jobs[i].Settled?
    ensures failed.None? && (runners > 0 || files == []) ==> EachSent(files, scripts, retries, before, now)
  {
    forall i: nat | i < |jobs|
      ensures jobs[i].Settled? ==>
        Progress(jobs[i], SizeOf(now, files[i].key)) == AloneAt(files, scripts, retries, before, i)
    {
      SettledAsAlone(files, scripts, retries, before, now, jobs, failed, i);
    }
    NoMoreGivenUp(files, scripts, retries, before, now, jobs, failed, |files|);
    assert jobs[..|files|] == jobs;
    hide AloneAt, OnTrack, DistinctKeys, GivenUp, GiveUps, AllPresent, NothingSent;
    if failed.Some? {
      var i :| 0 <= i < |files| && files[i].key == failed.value && jobs[i].Settled? && jobs[i].outcome == GaveUp;
      assert AloneAt(files, scripts, retries, before, i).job == jobs[i];
    }
  }

  /** A later moment: what was settled stays as it was, and every other worker has no more left to do. */
  ghost predicate Follows(files: seq<FileToSend>, retries: nat, told: Moment, later: Moment)
    requires |files| == |told.jobs| == |later.jobs|
  {
    forall i | 0 <= i < |files| ::
      && (told.jobs[i].Settled? ==> later.jobs[i] == told.jobs[i])
      && (told.jobs[i].Settled? && DistinctKeys(files) ==>
            SizeOf(later.objects, files[i].key) == SizeOf(told.objects, files[i].key))
      && Left(later.jobs[i], retries) <= Left(told.jobs[i], retries)
  }

  lemma WorkFollows(files: seq<FileToSend>, retries: nat, told: Moment, now: Moment, i: nat, next: Progress)
    requires |files| == |told.jobs| == |now.jobs| && Follows(files, retries, told, now)
    requires i < |files| && !now.jobs[i].Settled? && Left(next.job, retries) < Left(now.jobs[i], retries)
    ensures Follows(files, retries, told, Moment(Store(now.objects, files[i].key, next.size), now.jobs[i := next.job]))
  {
    hide Left;
  }

  lemma FollowsItself(files: seq<FileToSend>, retries: nat, told: Moment)
    requires |files| == |told.jobs|
    ensures Follows(files, retries, told, told)
  {
  }

  /** What the pool over `uploadFile` keeps: `now` is its present moment, `told` the one its caller was told of. */
  ghost predicate Sending(files: seq<FileToSend>, scripts: seq<Script>, retries: nat, concurrency: int, before: Objects,
      now: Moment, failed: Option<string>, told: Moment, ended: set<nat>, broke: set<nat>)
    requires |files| == |scripts| == |now.jobs| == |told.jobs|
  {
    && Matched(now.jobs, ended, broke, failed)
    && SentSoFar(files, scripts, retries, before, now.objects, now.jobs, failed)
    && (concurrency <= 0 ==> now.objects == before && failed.None? && NothingSent(now.jobs))
    && (failed.Some? ==> WasTold(files, scripts, retries, before, told, failed))
    && Follows(files, retries, told, now)
  }

  lemma SendingStarts(files: seq<FileToSend>, scripts: seq<Script>, retries: nat, concurrency: int, now: Moment)
    requires |files| == |scripts| == |now.jobs| && forall i | 0 <= i < |files| :: now.jobs[i] == Asking
    ensures Sending(files, scripts, retries, concurrency, now.objects, now, None, now, {}, {})
  {
    FollowsItself(files, retries, now);
  }

  /** What is left once no runner holds a file. */
  lemma SendingEnds(files: seq<FileToSend>, scripts: seq<Script>, retries: nat, concurrency: int, before: Objects,
      now: Moment, failed: Option<string>, told: Moment, pool: Pool, ended: set<nat>, broke: set<nat>)
    requires |files| == |scripts| == |now.jobs| == |told.jobs|
    requires Sending(files, scripts, retries, concurrency, before, now, failed, told, ended, broke)
    requires Sound(pool, |files|, concurrency, ended, broke) && forall r: nat :: !Busy(pool, r)
    ensures SentSoFar(files, scripts, retries, before, now.objects, now.jobs, failed)
    ensures failed.None? && concurrency >= 1 ==>
      forall i | 0 <= i < |files| :: now.jobs[i].Settled? && now.jobs[i].outcome != GaveUp
    ensures concurrency <= 0 ==> now.objects == before && failed.None? && NothingSent(now.jobs)
    ensures failed.Some? ==>
      && SentSoFar(files, scripts, retries, before, told.objects, told.jobs, failed)
      && GaveUpFirst(files, told.jobs, failed.value)
    ensures Follows(files, retries, told, now) && Follows(files, retries, now, now)
    ensures GivenUp(now.jobs) < Runners(|files|, concurrency) ==> forall i | 0 <= i < |files| :: now.jobs[i].Settled?
  {
    RestMeansEnded(pool, |files|, concurrency, ended, broke);
    EnoughRunners(pool, |files|, concurrency, ended, broke);
    FollowsItself(files, retries, now);
    hide Sound, SentSoFar, GaveUpFirst, Follows, NothingSent, GivenUp, Runners;
  }

  lemma StillOpen(files: seq<FileToSend>, scripts: seq<Script>, retries: nat, concurrency: int, before: Objects,
      now: Moment, failed: Option<string>, told: Moment, ended: set<nat>, broke: set<nat>, i: nat)
    requires |files| == |scripts| == |now.jobs| == |told.jobs| && i < |files| && i !in ended
    requires Sending(files, scripts, retries, concurrency, before, now, failed, told, ended, broke)
    ensures !now.jobs[i].Settled?
  {
    hide SentSoFar, WasTold, Follows, NothingSent;
  }

  /** One request of one worker, whichever it is. */
  lemma SendStep(files: seq<FileToSend>, scripts: seq<Script>, retries: nat, concurrency: int, before: Objects,
      now: Moment, failed: Option<string>, told: Moment, ended: set<nat>, broke: set<nat>, i: nat, r: nat,
      next: Progress)
    requires |files| == |scripts| == |now.jobs| == |told.jobs| && i < |files| && i !in ended && concurrency >= 1
    requires Sending(files, scripts, retries, concurrency, before, now, failed, told, ended, broke)
    requires !now.jobs[i].Settled?
    requires next == Work(Progress(now.jobs[i], SizeOf(now.objects, files[i].key)), files[i].bytes, scripts[i], retries)
    ensures Left(next.job, retries) < Left(now.jobs[i], retries)
    ensures var later := Moment(Store(now.objects, files[i].key, next.size), now.jobs[i := next.job]);
      if !next.job.Settled? then
        Sending(files, scripts, retries, concurrency, before, later, failed, told, ended, broke)
      else if next.job.outcome != GaveUp then
        Sending(files, scripts, retries, concurrency, before, later, failed, told, ended + {i}, broke)
      else if failed.Some? then
        Sending(files, scripts, retries, concurrency, before, later, failed, told, ended + {i}, broke + {r})
      else
        Sending(files, scripts, retries, concurrency, before, later, Some(files[i].key), later, ended + {i},
          broke + {r})
  {
    WorkKeeps(files, scripts, retries, before, now.objects, now.jobs, failed, i, next);
    NoneYet(now.jobs, ended, broke, failed);
    WorkFollows(files, retries, told, now, i, next);
    WorkMatches(now.jobs, ended, broke, failed, i, r, next.job, files[i].key);
    var later := Moment(Store(now.objects, files[i].key, next.size), now.jobs[i := next.job]);
    hide Matched, SentSoFar, WasTold, Follows, NothingSent, NoneGivenUp, Work, Left, Store;
    FollowsItself(files, retries, later);
    if next.job.Settled? && next.job.outcome == GaveUp && failed.None? {
      FirstIsTold(files, scripts, retries, before, now.jobs, i, later, Some(files[i].key));
    }
  }

  class Uploader {
    const retries: nat
    const concurrency: int

    constructor (retries: nat, concurrency: int)
      ensures this.retries == retries && this.concurrency == concurrency
    {
      this.retries, this.concurrency := retries, concurrency;
    }

    /** Whether the file was sent; `None` is the error thrown after the last try. */
    method UploadFile(file: FileToSend, objects: Objects, script: Script) returns (sent: Option<bool>, after: Objects)
      ensures var alone := Alone(SizeOf(objects, file.key), file.bytes, script, retries);
        && after == Store(objects, file.key, alone.size)
        && (sent == match alone.job.outcome case Skipped => Some(false) case Sent => Some(true) case GaveUp => None)
    {
      ghost var start := Progress(Asking, SizeOf(objects, file.key));
      if script.headAnswered && SizeOf(objects, file.key) == Some(file.bytes) {
        assert Finish(Work(start, file.bytes, script, retries), file.bytes, script, retries) ==
          Progress(Settled(Skipped, 0), start.size);
        assert objects == Store(objects, file.key, SizeOf(objects, file.key));
        return Some(false), objects;
      }
      after := objects;
      for attempt := 1 to retries + 1
        invariant Finish(Progress(Trying(attempt), SizeOf(after, file.key)), file.bytes, script, retries) ==
          Finish(start, file.bytes, script, retries)
        invariant after == Store(objects, file.key, SizeOf(after, file.key))
      {
        var put := script.puts(attempt);
        ghost var next := Work(Progress(Trying(attempt), SizeOf(after, file.key)), file.bytes, script, retries);
        after := Store(after, file.key, put.lands);
        assert next.size == SizeOf(after, file.key);
        if put.succeeds {
          return Some(true), after;
        }
      }
      return None, after;
    }

    /**
     * The pool over `uploadFile`. `failed` is the key of the first file given
     * up, and `told` the moment the caller learns of it while the other runners
     * go on; `after` and `jobs` are what is there once no runner is left.
     */
    method SendAll(files: seq<FileToSend>, objects: Objects, scripts: seq<Script>)
      returns (after: Objects, failed: Option<string>, jobs: seq<Job>, told: Moment)
      requires |scripts| == |files|
      ensures |jobs| == |files| && SentSoFar(files, scripts, retries, objects, after, jobs, failed)
      ensures failed.None? ==> forall i | 0 <= i < |jobs| && concurrency >= 1 ::
        jobs[i].Settled? && jobs[i].outcome != GaveUp
      ensures concurrency <= 0 ==> after == objects && failed.None? && NothingSent(jobs)
      ensures |told.jobs| == |files| && SentSoFar(files, scripts, retries, objects, told.objects, told.jobs, failed)
      ensures if failed.Some? then GaveUpFirst(files, told.jobs, failed.value) else told == Moment(after, jobs)
      ensures Follows(files, retries, told, Moment(after, jobs))
      ensures GivenUp(jobs) < Runners(|files|, concurrency) ==> forall i | 0 <= i < |jobs| :: jobs[i].Settled?
    {
      var n := |files|;
      var pool := Open(n, concurrency);
      OpenIsSound(n, concurrency);
      jobs := seq(n, _ => Asking);
      after, failed := objects, None;
      told := Moment(after, jobs);
      ghost var ended, broke := {}, {};
      SendingStarts(files, scripts, retries, concurrency, told);
      hide Sound, Sending, TotalLeft, Resolve, Reject, Left, Work, SentSoFar, GaveUpFirst, Follows, NothingSent;
      hide GivenUp;
      hide Runners, Open, Store;
      while exists r :: 0 <= r < |pool.holding| && pool.holding[r].Some?
        invariant Sound(pool, n, concurrency, ended, broke)
        invariant |jobs| == |told.jobs| == n
        invariant Sending(files, scripts, retries, concurrency, objects, Moment(after, jobs), failed, told, ended,
          broke)
        decreases TotalLeft(jobs, retries)
      {
        var r: nat :| r < |pool.holding| && pool.holding[r].Some?;
        var i := pool.holding[r].value;
        HeldIsOpen(pool, r, n, concurrency, ended, broke);
        StillOpen(files, scripts, retries, concurrency, objects, Moment(after, jobs), failed, told, ended, broke, i);
        var next := Work(Progress(jobs[i], SizeOf(after, files[i].key)), files[i].bytes, scripts[i], retries);
        SendStep(files, scripts, retries, concurrency, objects, Moment(after, jobs), failed, told, ended, broke, i, r,
          next);
        TotalLeftUpdate(jobs, i, next.job, retries);
        after := Store(after, files[i].key, next.size);
        jobs := jobs[i := next.job];
        if next.job.Settled? {
          if next.job.outcome == GaveUp {
            RejectKeeps(pool, r, n, concurrency, ended, broke);
            pool := Reject(pool, r);
            if failed.None? {
              failed, told := Some(files[i].key), Moment(after, jobs);
            }
            broke := broke + {r};
          } else {
            ResolveKeeps(pool, r, n, concurrency, ended, broke);
            pool := Resolve(pool, r);
          }
          ended := ended + {i};
        }
      }
      SendingEnds(files, scripts, retries, concurrency, objects, Moment(after, jobs), failed, told, pool, ended, broke);
      if failed.None? {
        told := Moment(after, jobs);
      }
    }

    /** The readback, its answers those of `objects` where `answered` says so. */
    method Verify(expected: seq<FileToSend>, objects: Objects, answered: seq<bool>)
      returns (verified: bool, missing: seq<string>)
      requires |answered| == |expected|
      ensures missing == if concurrency >= 1 then Sort(ShortKeys(expected, objects, answered)) else []
      ensures verified <==> concurrency < 1 || ReadsBack(expected, objects, answered)
    {
      var n := |expected|;
      var pool := Open(n, concurrency);
      OpenIsSound(n, concurrency);
      NoneShort(expected, objects, answered, n);
      missing := [];
      ghost var checked: set<nat> := {};
      while exists r :: 0 <= r < |pool.holding| && pool.holding[r].Some?
        invariant Sound(pool, n, concurrency, checked, {})
        invariant CheckedSoFar(expected, objects, answered, checked, missing)
        invariant concurrency < 1 ==> missing == []
        decreases n - |checked|
      {
        hide Sound, CheckedSoFar, Resolve, Open, ShortAmong, ShortKeys, SizeOf, Reply;
        var r: nat :| r < |pool.holding| && pool.holding[r].Some?;
        var i := pool.holding[r].value;
        CheckKeeps(expected, objects, answered, pool, concurrency, r, checked, missing);
        if Reply(objects, expected[i].key, answered[i]) != Some(expected[i].bytes) {
          missing := missing + [expected[i].key];
        }
        pool := Resolve(pool, r);
        checked := checked + {i};
      }
      RestMeansEnded(pool, n, concurrency, checked, {});
      if concurrency >= 1 {
        ReportIsExact(expected, objects, answered, checked, missing);
      }
      missing := Sort(missing);
      verified := missing == [];
    }

    /** Sends every file, then reads the whole set back. An error is the key of the first file given up. */
    method UploadAll(files: seq<FileToSend>, objects: Objects, scripts: seq<Script>, answered: seq<bool>)
      returns (result: Result<UploadResult, string>, after: Objects, jobs: seq<Job>, told: Moment)
      requires |scripts| == |files| == |answered|
      ensures |jobs| == |files| && TriesBounded(jobs, retries)
      ensures OthersUntouched(files, objects, after)
      ensures DistinctKeys(files) && concurrency >= 1 ==>
        (result.Err? <==> SomeGivesUp(files, scripts, retries, objects))
      ensures DistinctKeys(files) && concurrency >= 1 && result.Ok? ==>
        EachSent(files, scripts, retries, objects, after)
      ensures result.Err? ==>
        && GaveUpOn(files, jobs, result.error) && WasTold(files, scripts, retries, objects, told, Some(result.error))
        && Follows(files, retries, told, Moment(after, jobs))
      ensures DistinctKeys(files) && GiveUps(files, scripts, retries, objects, |files|) < Runners(|files|, concurrency)
        ==> EachSent(files, scripts, retries, objects, after) && forall i | 0 <= i < |jobs| :: jobs[i].Settled?
      ensures result.Ok? ==> result.value.objects == |files| && result.value.bytes == TotalBytes(files)
      ensures result.Ok? ==> (result.value.verified <==> concurrency < 1 || ReadsBack(files, after, answered))
      ensures result.Ok? ==> result.value.missing == if concurrency >= 1 then
        Sort(ShortKeys(files, after, answered)) else []
      ensures concurrency < 1 ==> after == objects && NothingSent(jobs)
      ensures AllPresent(files, scripts, objects) ==> result.Ok? && after == objects && NothingSent(jobs)
    {
      hide TriesBounded, OthersUntouched, SomeGivesUp, EachSent, GaveUpOn, ReadsBack, AllPresent, NothingSent,
        ShortKeys, Sort, DistinctKeys, OnTrack, GaveUpFirst, Follows, GiveUps, GivenUp;
      var failed;
      after, failed, jobs, told := SendAll(files, objects, scripts);
      if DistinctKeys(files) {
        var runners := Runners(|files|, concurrency);
        RestIsDetermined(files, scripts, retries, objects, after, jobs, failed, runners);
      }
      if failed.Some? {
        return Err(failed.value), after, jobs, told;
      }
      var verified, missing := Verify(files, after, answered);
      var bytes := 0;
      for i := 0 to |files|
        invariant bytes == TotalBytes(files[..i])
      {
        assert files[..i + 1][..i] == files[..i];
        bytes := bytes + files[i].bytes;
      }
      assert files[..|files|] == files;
      return Ok(UploadResult(|files|, bytes, verified, missing)), after, jobs, told;
    }
  }

  lemma HeldIsOpen(p: Pool, r: nat, n: nat, concurrency: int, ended: set<nat>, broke: set<nat>)
    requires Sound(p, n, concurrency, ended, broke) && Busy(p, r)
    ensures p.holding[r].value < n && p.holding[r].value !in ended && concurrency >= 1
  {
    assert Held(p, p.holding[r].value);
  }

  /** A pool at rest of which some runner did not break has ended every item. */
  lemma EnoughRunners(p: Pool, n: nat, concurrency: int, ended: set<nat>, broke: set<nat>)
    requires Sound(p, n, concurrency, ended, broke) && forall r: nat :: !Busy(p, r)
    ensures |broke| < Runners(n, concurrency) ==> forall i: nat | i < n :: i in ended
  {
    if |broke| < Runners(n, concurrency) {
      var r := LeftOver(broke, Runners(n, concurrency));
      assert !Busy(p, r);
      assert p.queue == [];
      forall i: nat | i < n ensures i in ended {
        if Held(p, i) {
          var s: nat :| s < |p.holding| && p.holding[s] == Some(i);
          assert Busy(p, s);
        }
      }
    }
  }

  /** A set smaller than `n` misses a number below `n`. */
  lemma LeftOver(s: set<nat>, n: nat) returns (r: nat)
    requires |s| < n
    ensures r < n && r !in s
  {
    r := n - 1;
    if n - 1 in s {
      r := LeftOver(s - {n - 1}, n - 1);
    }
  }

  lemma RestMeansEnded(p: Pool, n: nat, concurrency: int, ended: set<nat>, broke: set<nat>)
    requires Sound(p, n, concurrency, ended, broke) && forall r: nat :: !Busy(p, r)
    ensures broke == {} && concurrency >= 1 ==> forall i: nat | i < n :: i in ended
  {
    EnoughRunners(p, n, concurrency, ended, broke);
  }
}

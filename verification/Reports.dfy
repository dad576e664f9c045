/** The agent's queue of undelivered reports, filled by two loops and drained by one. */
module Reports {
  import opened Wrappers

  datatype Report = Report(path: string, body: string)

  // ------------------------------------------------------------ runs and crashes

  /** One write of the queue, with how much had been sent and pushed when it was requested. */
  datatype Snapshot = Snapshot(reports: seq<Report>, sent: nat, pushed: nat)

  /** The file: unusable, written by this process, or left from before it (and then loaded by it or not). */
  datatype File = Nothing | Ours(snapshot: Snapshot) | Older(reports: seq<Report>, loaded: bool)

  /** `posting` is the report whose post the flush is waiting for. */
  datatype Queue = Queue(
    pending: seq<Report>,
    posting: Option<Report>,
    loaded: seq<Report>,
    pushed: seq<Report>,
    sent: seq<Report>,
    writes: seq<Snapshot>,
    file: File)

  datatype Event =
    | PushReport(report: Report)
    | PostHead
    | PostOk
    | PostFail
    | SaveLands(write: nat)
    | SaveFails(write: nat, spoiled: bool)
    | Restart(spoiled: bool, readable: bool)

  function Persisted(q: Queue): Queue {
    q.(writes := q.writes + [Snapshot(q.pending, |q.sent|, |q.pushed|)])
  }

  function Without(writes: seq<Snapshot>, k: nat): seq<Snapshot>
    requires k < |writes|
  {
    writes[..k] + writes[k + 1..]
  }

  function Contents(file: File, readable: bool): seq<Report> {
    if !readable then []
    else match file
      case Nothing => []
      case Ours(snapshot) => snapshot.reports
      case Older(reports, _) => reports
  }

  /** What a crash leaves of the file. */
  function Surviving(q: Queue, spoiled: bool): File {
    if spoiled && q.writes != [] then Nothing else q.file
  }

  function Restarted(q: Queue, spoiled: bool, readable: bool): Queue {
    var file := Surviving(q, spoiled);
    var loaded := Contents(file, readable);
    Queue(loaded, None, loaded, [], [], [], if file.Nothing? then Nothing else Older(Contents(file, true), readable))
  }

  predicate Can(q: Queue, e: Event) {
    match e
    case PostHead => q.posting.None? && q.pending != []
    case PostOk => q.posting.Some?
    case PostFail => q.posting.Some?
    case SaveLands(k) => k < |q.writes|
    case SaveFails(k, _) => k < |q.writes|
    case _ => true
  }

  /** A successful post shifts whatever is then at the head. */
  function Next(q: Queue, e: Event): Queue
    requires Can(q, e)
  {
    match e
    case PushReport(r) => Persisted(q.(pending := q.pending + [r], pushed := q.pushed + [r]))
    case PostHead => q.(posting := Some(q.pending[0]))
    case PostOk =>
      Persisted(q.(pending := if q.pending == [] then [] else
        q.pending[1..], sent := q.sent + [q.posting.value], posting := None))
    case PostFail => q.(posting := None)
    case SaveLands(k) => q.(writes := Without(q.writes, k), file := Ours(q.writes[k]))
    case SaveFails(k, spoiled) => q.(writes := Without(q.writes, k), file := if spoiled then Nothing else q.file)
    case Restart(spoiled, readable) => Restarted(q, spoiled, readable)
  }

  ghost predicate IsRun(queues: seq<Queue>, events: seq<Event>) {
    && |queues| == |events| + 1
    && queues[0] == Queue([], None, [], [], [], [], Nothing)
    && forall i | 0 <= i < |events| :: Can(queues[i], events[i]) && queues[i + 1] == Next(queues[i], events[i])
  }

  /** Everything this process has had queued, oldest first. */
  function Log(q: Queue): seq<Report> {
    q.loaded + q.pushed
  }

  /** The snapshot is the stretch of the log its stamps say. */
  ghost predicate IsStretch(q: Queue, s: Snapshot) {
    && s.sent <= |q.sent| && s.pushed <= |q.pushed| && s.sent <= |q.loaded| + s.pushed
    && s.reports == Log(q)[s.sent..|q.loaded| + s.pushed]
  }

  /** Nothing is lost or reordered in memory, and every save is a stretch of the log. */
  ghost predicate Conserved(q: Queue) {
    && q.sent + q.pending == Log(q)
    && (q.posting.Some? ==> q.pending != [] && q.pending[0] == q.posting.value)
    && (forall k | 0 <= k < |q.writes| :: IsStretch(q, q.writes[k]))
    && (q.file.Ours? ==> IsStretch(q, q.file.snapshot))
    && (q.file.Older? && q.file.loaded ==> q.loaded == q.file.reports)
    && (q.file.Older? && !q.file.loaded ==> q.loaded == [])
  }

  lemma GrowingKeepsStretch(q: Queue, after: Queue, s: Snapshot)
    requires IsStretch(q, s) && after.loaded == q.loaded
    requires |q.sent| <= |after.sent| && q.pushed <= after.pushed
    ensures IsStretch(after, s)
  {
    assert Log(after)[..|Log(q)|] == Log(q);
    assert Log(after)[s.sent..|q.loaded| + s.pushed] == Log(q)[s.sent..|q.loaded| + s.pushed];
  }

  lemma PendingIsStretch(q: Queue)
    requires q.sent + q.pending == Log(q)
    ensures IsStretch(q, Snapshot(q.pending, |q.sent|, |q.pushed|))
  {
    assert (q.sent + q.pending)[|q.sent|..] == q.pending;
  }

  lemma GrowingConserves(q: Queue, after: Queue)
    requires Conserved(q) && after.loaded == q.loaded && q.sent <= after.sent && q.pushed <= after.pushed
    requires after.sent + after.pending == Log(after)
    requires after.posting.Some? ==> after.pending != [] && after.pending[0] == after.posting.value
    requires after.file == q.file || after.file.Nothing? || (after.file.Ours? && after.file.snapshot in q.writes)
    requires forall k | 0 <= k < |after.writes| ::
      after.writes[k] in q.writes || after.writes[k] == Snapshot(after.pending, |after.sent|, |after.pushed|)
    ensures Conserved(after)
  {
    hide IsStretch;
    PendingIsStretch(after);
    forall s | IsStretch(q, s) ensures IsStretch(after, s) {
      GrowingKeepsStretch(q, after, s);
    }
    assert forall s | s in q.writes :: IsStretch(q, s);
  }

  lemma StepConserves(q: Queue, e: Event)
    requires Conserved(q) && Can(q, e)
    ensures Conserved(Next(q, e))
  {
    var after := Next(q, e);
    match e {
      case PushReport(r) =>
        assert q.sent + (q.pending + [r]) == (q.loaded + q.pushed) + [r] == q.loaded + (q.pushed + [r]);
        GrowingConserves(q, after);
      case PostOk =>
        assert (q.sent + [q.pending[0]]) + q.pending[1..] == q.sent + q.pending;
        GrowingConserves(q, after);
      case Restart(_, _) => RestartConserves(q, e);
      case _ => GrowingConserves(q, after);
    }
  }

  lemma RestartConserves(q: Queue, e: Event)
    requires Conserved(q) && e.Restart?
    ensures Conserved(Next(q, e))
  {
  }

  lemma {:induction false} AlwaysConserved(queues: seq<Queue>, events: seq<Event>, n: nat)
    requires IsRun(queues, events) && n < |queues|
    ensures Conserved(queues[n])
  {
    hide Next, Can, Conserved;
    if n == 0 {
      EmptyIsConserved();
    } else {
      AlwaysConserved(queues, events, n - 1);
      StepConserves(queues[n - 1], events[n - 1]);
    }
  }

  lemma EmptyIsConserved()
    ensures Conserved(Queue([], None, [], [], [], [], Nothing))
  {
  }

  /**
   * A report leaves the queue only by a successful post of that same report,
   * or with the process: in every other step the queue only grows at its tail.
   */
  lemma LeavesOnlyWhenSent(queues: seq<Queue>, events: seq<Event>, i: nat)
    requires IsRun(queues, events) && i < |events| && !events[i].Restart?
    ensures queues[i].sent + queues[i].pending == Log(queues[i])
    ensures if events[i].PostOk?
            then queues[i].pending != [] && queues[i + 1].sent == queues[i].sent + [queues[i].pending[0]]
                 && queues[i].pending == [queues[i].posting.value] + queues[i + 1].pending
            else queues[i].pending <= queues[i + 1].pending && queues[i + 1].sent == queues[i].sent
  {
    AlwaysConserved(queues, events, i);
  }

  /**
   * A restart loads nothing, the last save of this process that landed, or what it had itself
   * loaded or left unread.
   */
  ghost predicate ReloadAccount(q: Queue, after: Queue, repeated: seq<Report>, kept: seq<Report>, lost: seq<Report>,
      s: Snapshot) {
    && s.sent <= |q.sent| <= |Log(q)| && s.pushed <= |q.pushed|
    && after.pending == repeated + kept
    && q.pending == kept + lost
    && repeated <= q.sent[s.sent..]
    && lost == Log(q)[Larger(|q.sent|, |q.loaded| + s.pushed)..]
  }

  function Larger(a: nat, b: nat): nat {
    if a < b then b else a
  }

  /**
   * When the surviving file holds a save of the dying process, the reloaded
   * queue repeats only reports sent after that save was requested and loses
   * only reports pushed after it.
   */
  lemma SaveIsAccounted(q: Queue, after: Queue) returns (repeated: seq<Report>, kept: seq<Report>, lost: seq<Report>)
    requires Conserved(q) && q.file.Ours? && after.pending == q.file.snapshot.reports
    ensures ReloadAccount(q, after, repeated, kept, lost, q.file.snapshot)
  {
    var s := q.file.snapshot;
    repeated, kept, lost := Overlap(Log(q), s.sent, |q.sent|, |q.loaded| + s.pushed);
    assert Log(q) == q.sent + q.pending;
  }

  /**
   * A stretch of a log against a point in it: what lies before the point, what behind it, and what
   * the stretch misses.
   */
  lemma Overlap<T>(log: seq<T>, from: nat, point: nat, upto: nat) returns (before: seq<T>, kept: seq<T>, missed: seq<T>)
    requires from <= point <= |log| && from <= upto <= |log|
    ensures before + kept == log[from..upto] && kept + missed == log[point..]
    ensures before <= log[..point][from..] && missed == log[Larger(point, upto)..]
  {
    if point <= upto {
      before, kept, missed := log[from..point], log[point..upto], log[upto..];
    } else {
      before, kept, missed := log[from..upto], [], log[point..];
    }
  }

  /** Some repeated, kept and lost reports account for the queue a restart loaded from a save of the dead process. */
  ghost predicate Accounted(q: Queue, after: Queue, s: Snapshot) {
    exists repeated, kept, lost :: ReloadAccount(q, after, repeated, kept, lost, s)
  }

  /**
   * Every restart: from an unreadable or spoiled file nothing comes back; from
   * a save of the dead process what its stamps say; from an older file what
   * the dead process had itself loaded, or, where it could not read that file,
   * the reports it left unread.
   */
  lemma RestartIsAccounted(queues: seq<Queue>, events: seq<Event>, i: nat)
    requires IsRun(queues, events) && i < |events| && events[i].Restart?
    ensures match if events[i].readable then Surviving(queues[i], events[i].spoiled) else Nothing
      case Nothing => queues[i + 1].pending == []
      case Ours(snapshot) => Accounted(queues[i], queues[i + 1], snapshot)
      case Older(reports, loaded) =>
        queues[i + 1].pending == reports && queues[i].loaded == if loaded then reports else []
    ensures queues[i + 1].sent == queues[i + 1].pushed == [] && queues[i + 1].loaded == queues[i + 1].pending
  {
    AlwaysConserved(queues, events, i);
    if events[i].readable && Surviving(queues[i], events[i].spoiled).Ours? {
      var repeated, kept, lost := SaveIsAccounted(queues[i], queues[i + 1]);
    }
  }

  // --------------------------------------------------------------- the process

  predicate CanAll(q: Queue, events: seq<Event>)
    decreases |events|, 0
  {
    events == [] || (CanAll(q, events[..|events| - 1]) && Can(All(q, events[..|events| - 1]), events[|events| - 1]))
  }

  /** The queue after these events. */
  function All(q: Queue, events: seq<Event>): Queue
    requires CanAll(q, events)
    decreases |events|, 1
  {
    if events == [] then q else Next(All(q, events[..|events| - 1]), events[|events| - 1])
  }

  predicate OfTheFlush(e: Event) {
    e.PostHead? || e.PostOk? || e.PostFail?
  }

  /** The flush's own events, without what happens to the queue while it waits. */
  function Flushed(events: seq<Event>): seq<Event> {
    if events == [] then []
    else
      var last := events[|events| - 1];
      Flushed(events[..|events| - 1]) + if OfTheFlush(last) then [last] else []
  }

  /** `n` posts that succeeded. */
  function Rounds(n: nat): seq<Event> {
    if n == 0 then [] else Rounds(n - 1) + [PostHead, PostOk]
  }

  /** `events` lead from `q` to `r`, restarts apart, and nothing is lost on the way. */
  ghost predicate Leads(q: Queue, events: seq<Event>, r: Queue) {
    && CanAll(q, events) && r == All(q, events) && (forall k | 0 <= k < |events| :: !events[k].Restart?)
    && Conserved(r) && r.loaded == q.loaded && q.sent <= r.sent && q.pushed <= r.pushed
  }

  lemma LeadsOn(q: Queue, events: seq<Event>, r: Queue, e: Event)
    requires Leads(q, events, r) && Can(r, e) && !e.Restart?
    ensures Leads(q, events + [e], Next(r, e)) && Flushed(events + [e]) == Flushed(events) + if OfTheFlush(e) then
      [e] else []
  {
    hide Conserved;
    assert (events + [e])[..|events + [e]| - 1] == events;
    StepConserves(r, e);
  }

  /** What one process does to its queue continues any run it is part of. */
  lemma {:induction false} EventsAreRun(queues: seq<Queue>, events: seq<Event>,
    more: seq<Event>) returns (later: seq<Queue>)
    requires IsRun(queues, events) && CanAll(queues[|events|], more)
    ensures IsRun(later, events + more) && queues <= later && later[|events + more|] == All(queues[|events|], more)
  {
    hide Next, Can;
    if more == [] {
      later := queues;
      assert events + more == events;
    } else {
      var front, last := more[..|more| - 1], more[|more| - 1];
      later := EventsAreRun(queues, events, front);
      assert events + more == events + front + [last];
      later := later + [Next(later[|events + front|], last)];
    }
  }

  /** The queue of one agent process, its store, and what has gone in and out of it. */
  class ReportQueue {
    var pending: seq<Report>
    /** The report whose post is under way. */
    var posting: Option<Report>
    const loaded: seq<Report>
    var pushed: seq<Report>
    var sent: seq<Report>
    /** Saves handed to the store; none is waited for. */
    var writes: seq<Snapshot>
    var file: File

    /** A new process: whatever queue died over this file, this is its restart. */
    constructor (file: File, readable: bool)
      ensures posting.None? && forall died: Queue, spoiled | Surviving(died, spoiled) == file ::
        Value() == Restarted(died, spoiled, readable)
    {
      var initialPending := Contents(file, readable);
      pending, loaded, posting, pushed, sent, writes := initialPending, initialPending, None, [], [], [];
      this.file := if file.Nothing? then Nothing else Older(Contents(file, true), readable);
    }

    /** The queue of a run that this process is. */
    function Value(): Queue
      reads this
    {
      Queue(pending, posting, loaded, pushed, sent, writes, file)
    }

    method Push(report: Report)
      modifies this
      ensures Value() == Next(old(Value()), PushReport(report))
    {
      pending := pending + [report];
      pushed := pushed + [report];
      PersistPending();
    }

    method PersistPending()
      modifies this`writes
      ensures Value() == Persisted(old(Value()))
    {
      writes := writes + [Snapshot(pending, |sent|, |pushed|)];
    }

    /** A report is queued exactly when posting it failed. */
    method Send(report: Report, posted: bool)
      modifies this
      ensures Value() == if posted then old(Value()) else Next(old(Value()), PushReport(report))
    {
      if !posted {
        Push(report);
      }
    }

    /** A pending write settles: it lands, or its error is swallowed, the old file perhaps spoiled. */
    method Settle(k: nat, lands: bool, spoiled: bool)
      requires k < |writes|
      modifies this`writes, this`file
      ensures Value() == Next(old(Value()), if lands then SaveLands(k) else SaveFails(k, spoiled))
    {
      if lands {
        file := Ours(writes[k]);
      } else if spoiled {
        file := Nothing;
      }
      writes := writes[..k] + writes[k + 1..];
    }

    /** What happens while the flush waits for an answer: any number of pushes, and saves that settle. */
    method Await(ghost before: Queue, ghost events: seq<Event>) returns (ghost more: seq<Event>)
      requires Leads(before, events, Value())
      modifies this
      ensures Leads(before, more, Value()) && Flushed(more) == Flushed(events)
      ensures posting == old(posting) && sent == old(sent) && old(pending) <= pending
    {
      hide Leads, Flushed;
      more := events;
      var count: nat :| true;
      for i := 0 to count
        invariant Leads(before, more, Value()) && Flushed(more) == Flushed(events)
        invariant posting == old(posting) && sent == old(sent) && old(pending) <= pending
      {
        var report: Report, k: nat, pushes: bool, lands: bool, spoiled: bool :| true;
        if pushes {
          LeadsOn(before, more, Value(), PushReport(report));
          Push(report);
          more := more + [PushReport(report)];
        } else if k < |writes| {
          ghost var e := if lands then SaveLands(k) else SaveFails(k, spoiled);
          LeadsOn(before, more, Value(), e);
          Settle(k, lands, spoiled);
          more := more + [e];
        }
      }
    }

    /**
     * Posts the head until the queue is empty or a post fails; post number `p`
     * succeeds when `succeeds[p]` says so. Whatever is pushed or settles
     * meanwhile, what the process does is, event by event, what the queue of a
     * run does: every success removes the report it posted and saves the rest.
     */
    method FlushPending(succeeds: seq<bool>) returns (posts: nat, stopped: bool, ghost events: seq<Event>)
      requires Conserved(Value()) && posting.None?
      modifies this
      ensures Leads(old(Value()), events, Value()) && posting.None?
      ensures Flushed(events) == Rounds(posts) + if stopped then [PostHead, PostFail] else []
      ensures |sent| == |old(sent)| + posts && posts <= |succeeds| && forall p | 0 <= p < posts :: succeeds[p]
      ensures if stopped then posts == |succeeds| || !succeeds[posts] else pending == []
    {
      posts, stopped, events := 0, false, [];
      while |pending| > 0
        invariant Leads(old(Value()), events, Value()) && posting.None? && Flushed(events) == Rounds(posts)
        invariant |sent| == |old(sent)| + posts && posts <= |succeeds| && forall p | 0 <= p < posts :: succeeds[p]
        decreases |succeeds| - posts
      {
        hide Leads, Flushed, Rounds;
        events := AskHead(old(Value()), events);
        if posts == |succeeds| || !succeeds[posts] {
          LeadsOn(old(Value()), events, Value(), PostFail);
          posting := None;
          events := events + [PostFail];
          stopped := true;
          return;
        }
        LeadsOn(old(Value()), events, Value(), PostOk);
        sent := sent + [posting.value];
        posting := None;
        pending := pending[1..];
        PersistPending();
        events := events + [PostOk];
        posts := posts + 1;
        OneMoreRound(posts);
      }
    }

    /** Takes the head and waits for the answer to its post. */
    method AskHead(ghost before: Queue, ghost events: seq<Event>) returns (ghost more: seq<Event>)
      requires Leads(before, events, Value()) && posting.None? && pending != []
      modifies this
      ensures Leads(before, more, Value()) && Flushed(more) == Flushed(events) + [PostHead]
      ensures posting.Some? && pending != [] && sent == old(sent)
    {
      hide Leads, Flushed;
      LeadsOn(before, events, Value(), PostHead);
      posting := Some(pending[0]);
      more := Await(before, events + [PostHead]);
    }
  }

  lemma OneMoreRound(n: nat)
    requires n > 0
    ensures Rounds(n) == Rounds(n - 1) + [PostHead] + [PostOk]
  {
  }
}

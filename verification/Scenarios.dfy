/**
 * Runs of the API that end as nobody would want: a session of two machines, one
 * recording its activity only, the other a screen as well.
 */
module Scenarios {
  import opened Wrappers
  import opened Entities
  import opened Commands
  import opened Prefixes
  import opened Manifests
  import opened Sessions
  import opened Lifecycle
  import opened Layout
  import opened Completion
  import Upload

  // ------------------------------------------------------------ the machines

  const TOOLS := Tools((folder, file) => 1.0, files => files)

  /** A recorded directory with one file of one byte in one folder. */
  function Box(host: string, folder: string, file: string): Entry {
    Entry(host, Dir(0, [Entry(folder, Dir(0, [Entry(file, File(1))]))]))
  }

  const ACTIVITY := TrackRequest(0, MetadataTrack, "m", None, None)

  const SCREEN := TrackRequest(1, ScreenTrack, "x", None, None)

  const SEGMENT := "seg-0.mp4"

  const FIRST := Host("a", "a", 0, 1, 0, [ACTIVITY], [Box("a", "metadata", "events.jsonl")], TOOLS, 1)

  const SECOND := Host("b", "b", 0, 1, 0, [SCREEN], [Box("b", Folder(SCREEN), SEGMENT)], TOOLS, 1)

  const MANIFEST_ENTRY := Entry(MANIFEST_FILE, File(1))

  lemma WalkedOne(e: Entry, prefix: string)
    ensures Walked([e], prefix) == WalkedNode(e.node, prefix + "/" + e.name)
  {
    hide WalkedNode;
    assert [e][..0] == [] && Walked([], prefix) == [];
  }

  lemma WalkedTwo(e: Entry, g: Entry, prefix: string)
    ensures Walked([e, g], prefix)
         == WalkedNode(e.node, prefix + "/" + e.name) + WalkedNode(g.node, prefix + "/" + g.name)
  {
    hide WalkedNode;
    WalkedOne(e, prefix);
    assert [e, g][..1] == [e];
  }

  /** What a machine with one such box sends. */
  function BoxFiles(prefix: string, host: string, folder: string, file: string): seq<Upload.FileToSend> {
    [Upload.FileToSend(prefix + "/" + host + "/" + folder + "/" + file, 1),
     Upload.FileToSend(prefix + "/manifest.json", 1)]
  }

  lemma BoxIsWalked(prefix: string, host: string, folder: string, file: string)
    ensures Walked([Box(host, folder, file), MANIFEST_ENTRY], prefix) == BoxFiles(prefix, host, folder, file)
  {
    hide Walked;
    var box := Box(host, folder, file);
    var inFolder := Entry(file, File(1));
    var inHost := Entry(folder, Dir(0, [inFolder]));
    var text := prefix + "/" + host;
    WalkedTwo(box, MANIFEST_ENTRY, prefix);
    WalkedOne(inHost, text);
    WalkedOne(inFolder, text + "/" + folder);
    assert prefix + "/" + MANIFEST_FILE == prefix + "/manifest.json";
  }

  lemma BoxDirectory(host: string, folder: string, file: string)
    requires |host| != |MANIFEST_FILE|
    ensures WithFile([Box(host, folder, file)], MANIFEST_FILE, 1) == [Box(host, folder, file), MANIFEST_ENTRY]
  {
    var box := Box(host, folder, file);
    assert [box][1..] == [];
    assert WithFile([], MANIFEST_FILE, 1) == [MANIFEST_ENTRY];
    assert WithFile([box], MANIFEST_FILE, 1) == [box] + [MANIFEST_ENTRY];
  }

  lemma FirstSends(prefix: string)
    ensures Walked(Directory(FIRST), prefix) == BoxFiles(prefix, "a", "metadata", "events.jsonl")
  {
    hide Walked, Box;
    BoxDirectory("a", "metadata", "events.jsonl");
    BoxIsWalked(prefix, "a", "metadata", "events.jsonl");
  }

  lemma SecondSends(prefix: string)
    ensures Walked(Directory(SECOND), prefix) == BoxFiles(prefix, "b", Folder(SCREEN), SEGMENT)
  {
    hide Walked, Box, Folder;
    BoxDirectory("b", Folder(SCREEN), SEGMENT);
    BoxIsWalked(prefix, "b", Folder(SCREEN), SEGMENT);
  }

  lemma FirstIsRecorded()
    ensures Recorded(FIRST) && Document(FIRST).tracks == []
  {
    var folder := Entry("metadata", Dir(0, [Entry("events.jsonl", File(1))]));
    assert Find(FIRST.recorded, "a") == Some(Dir(0, [folder]));
    assert TrackNode(FIRST.recorded, "a", ACTIVITY) == Some(folder.node);
    NoMedia(FIRST.recorded);
  }

  lemma NoMedia(root: seq<Entry>)
    ensures MediaTracks(root, "a", [ACTIVITY], TOOLS) == []
  {
    assert [ACTIVITY][..0] == [] && MediaTracks(root, "a", [], TOOLS) == [];
  }

  lemma SecondNamesItsSegment(prefix: string)
    ensures NamesKey(Document(SECOND), prefix, SegmentKey(prefix, "b", "screen", "x", SEGMENT))
    ensures Recorded(SECOND)
  {
    var root := SECOND.recorded;
    var entries := [Entry(SEGMENT, File(1))];
    assert Find(root, "b") == Some(root[0].node);
    assert TrackNode(root, "b", SCREEN) == Some(Dir(0, entries));
    assert IsSegmentName(SEGMENT, ".mp4");
    assert SegmentNames(entries, ".mp4") == [SEGMENT];
    var files := TrackFiles(root, "b", SCREEN, TOOLS);
    assert files[0].file == SEGMENT;
    assert MediaTracks(root, "b", [SCREEN], TOOLS) == [TrackEntry(root, "b", SCREEN, TOOLS)];
    assert Document(SECOND).tracks[0].segments[0].file == SEGMENT;
  }

  // ------------------------------------------------------------------- runs

  ghost function Step(api: Api, call: Call, utc: Calendar): Api {
    if Possible(api, call) then After(api, call, utc) else api
  }

  /** The API after these calls. */
  ghost function Reached(calls: seq<Call>, utc: Calendar): Api {
    if calls == [] then EMPTY_API else Step(Reached(calls[..|calls| - 1], utc), calls[|calls| - 1], utc)
  }

  ghost function StatesBy(calls: seq<Call>, utc: Calendar): seq<Api> {
    seq(|calls| + 1, k requires 0 <= k <= |calls| => Reached(calls[..k], utc))
  }

  predicate AlwaysPossible(request: Request) {
    !request.CreateReq? && !request.SweepReq? && !request.HandOutReq?
  }

  /** Calls of a kind that is always possible, after a first that creates the session, at one moment. */
  predicate Plain(calls: seq<Call>) {
    && (forall k | 0 <= k < |calls| :: calls[k].now == 0)
    && (forall k | 1 <= k < |calls| :: AlwaysPossible(calls[k].request))
    && (calls != [] ==> calls[0].request.CreateReq? && calls[0].request.sessionId == "s")
  }

  lemma PlainIsRun(calls: seq<Call>, utc: Calendar)
    requires Plain(calls)
    ensures IsRun(StatesBy(calls, utc), calls, utc)
  {
    hide After;
    var states := StatesBy(calls, utc);
    assert |"s"| != |HOST_LEVEL_COMMAND_SESSION|;
    forall k | 0 <= k < |calls|
      ensures Possible(states[k], calls[k]) && states[k + 1] == After(states[k], calls[k], utc)
    {
      assert calls[..k + 1][..k] == calls[..k];
    }
  }

  lemma PlainAndOneMore(calls: seq<Call>, call: Call)
    requires calls != [] && Plain(calls) && call.now == 0 && AlwaysPossible(call.request)
    ensures Plain(calls + [call])
  {
  }

  lemma OneMore(calls: seq<Call>, call: Call, utc: Calendar)
    ensures Reached(calls + [call], utc) == Step(Reached(calls, utc), call, utc)
  {
    assert (calls + [call])[..|calls|] == calls;
  }

  // ------------------------------------------------- recording and its review

  const SPECS := [TrackSpec("a", "metadata", "m"), TrackSpec("b", "screen", "x")]

  function Says(agentId: AgentId, state: ReportState): Call {
    Call(0, ReportReq("s", StatusReport(agentId, state, None, None)))
  }

  const CREATE := Call(0, CreateReq("s", SPECS))

  /** Both machines get ready, the operator stops, and the first reports that it stopped. */
  const RECORDING := [CREATE, Says("a", ReadyReport), Says("b", ReadyReport), Call(0, StopReq("s")),
                      Says("a", StoppedReport)]

  /** What matters of the session. */
  ghost predicate Stands(api: Api, state: SessionState, prefix: Option<string>, docs: seq<ManifestDoc>) {
    && "s" in api.sessions && api.sessions["s"].state == state && api.sessions["s"].s3Prefix == prefix
    && DocumentsOf(api.manifests, "s") == docs
  }

  ghost predicate OfBoth(api: Api) {
    forall a :: a in Participants(api.tracks, "s") <==> a == "a" || a == "b"
  }

  ghost function TheirPrefix(utc: Calendar): string {
    PrefixFor("s", utc(0))
  }

  lemma TwoTracks()
    ensures forall a :: a in Participants(NewTracks("s", SPECS), "s") <==> a == "a" || a == "b"
  {
    var tracks := NewTracks("s", SPECS);
    assert tracks[0].agentId == "a" && tracks[1].agentId == "b";
  }

  lemma Created(utc: Calendar)
    ensures var api := Reached([CREATE], utc);
      && Stands(api, Preparing, None, []) && OfBoth(api) && "s" in api.readiness && api.readiness["s"] == map[]
      && api.sessions["s"].createdAt == 0 && api.sessions["s"].startedAt.None?
  {
    hide Participants, NewTracks, PrepareCommands;
    TwoTracks();
    assert |"s"| != |HOST_LEVEL_COMMAND_SESSION|;
    assert [] + [CREATE] == [CREATE];
    OneMore([], CREATE, utc);
    assert EMPTY_API.tracks + NewTracks("s", SPECS) == NewTracks("s", SPECS);
  }

  lemma BothReady(api: Api, utc: Calendar)
    requires Stands(api, Preparing, None, []) && OfBoth(api) && "s" in api.readiness && api.readiness["s"] == map[]
    requires api.sessions["s"].createdAt == 0 && api.sessions["s"].startedAt.None?
    ensures var one := Step(api, Says("a", ReadyReport), utc);
      var two := Step(one, Says("b", ReadyReport), utc);
      Stands(two, Recording, Some(TheirPrefix(utc)), []) && OfBoth(two)
  {
    hide Participants, PrefixFor, DocumentsOf, Broadcast;
    var one := Step(api, Says("a", ReadyReport), utc);
    assert "b" in Participants(api.tracks, "s") && "b" !in Readied(api, "s", Says("a", ReadyReport).request.report);
    assert one.sessions == api.sessions && one.tracks == api.tracks && one.manifests == api.manifests;
    assert forall a | a in Participants(one.tracks, "s") ::
      a in Readied(one, "s", Says("b", ReadyReport).request.report);
  }

  lemma StoppedByOne(api: Api, prefix: Option<string>, utc: Calendar)
    requires Stands(api, Recording, prefix, []) && OfBoth(api)
    ensures var stopped := Step(Step(api, Call(0, StopReq("s")), utc), Says("a", StoppedReport), utc);
      Stands(stopped, Review, prefix, []) && OfBoth(stopped)
  {
    hide Participants, DocumentsOf, Broadcast;
  }

  lemma Reviewed(utc: Calendar)
    ensures Stands(Reached(RECORDING, utc), Review, Some(TheirPrefix(utc)), []) && OfBoth(Reached(RECORDING, utc))
  {
    hide Stands, OfBoth, Step;
    Created(utc);
    BothReady(Reached([CREATE], utc), utc);
    assert [CREATE] + [Says("a", ReadyReport)] == RECORDING[..2];
    OneMore([CREATE], Says("a", ReadyReport), utc);
    assert RECORDING[..2] + [Says("b", ReadyReport)] == RECORDING[..3];
    OneMore(RECORDING[..2], Says("b", ReadyReport), utc);
    StoppedByOne(Reached(RECORDING[..3], utc), Some(TheirPrefix(utc)), utc);
    assert RECORDING[..3] + [Call(0, StopReq("s"))] == RECORDING[..4];
    OneMore(RECORDING[..3], Call(0, StopReq("s")), utc);
    assert RECORDING[..4] + [Says("a", StoppedReport)] == RECORDING;
    OneMore(RECORDING[..4], Says("a", StoppedReport), utc);
  }

  /** One participant's stopped report is enough for review: the other never reports. */
  lemma OneStopSuffices(utc: Calendar) returns (states: seq<Api>)
    ensures IsRun(states, RECORDING, utc) && HasState(states, |RECORDING|, "s", Review)
    ensures "b" in Participants(states[|RECORDING|].tracks, "s")
    ensures forall k | 0 <= k < |RECORDING| && RECORDING[k].request.ReportReq? ::
      RECORDING[k].request.report.state == StoppedReport ==> RECORDING[k].request.report.agentId != "b"
  {
    hide IsRun, Reached, Participants, DocumentsOf;
    PlainIsRun(RECORDING, utc);
    Reviewed(utc);
    states := StatesBy(RECORDING, utc);
    assert RECORDING[..|RECORDING|] == RECORDING;
  }

  // --------------------------------------------------- the first to finish

  function Ingested(h: Host): Call {
    Call(0, IngestReq("s", Document(h)))
  }

  const SAVE := Call(0, SaveReq("s"))

  /** What is in storage once the first machine has sent its files. */
  ghost function FirstSizes(prefix: string): map<string, nat> {
    map f | f in BoxFiles(prefix, "a", "metadata", "events.jsonl") :: f.key := f.bytes
  }

  ghost function Completes(utc: Calendar): Call {
    Call(0, CompleteReq("s", FirstSizes(TheirPrefix(utc))))
  }

  lemma AnotherManifest(api: Api, prefix: Option<string>, docs: seq<ManifestDoc>, h: Host, utc: Calendar)
    requires Stands(api, Review, prefix, docs)
    ensures Stands(Step(api, Ingested(h), utc), Review, prefix, docs + [Document(h)])
    ensures Document(h).tracks == [] ==> Step(api, Ingested(h), utc).tracks == api.tracks
  {
    hide Document;
    var more := api.manifests + [Manifest("s", Document(h))];
    assert more[..|more| - 1] == api.manifests;
  }

  lemma Saved(api: Api, prefix: string, docs: seq<ManifestDoc>, utc: Calendar)
    requires Stands(api, Review, Some(prefix), docs)
    ensures Stands(Step(api, SAVE, utc), Uploading, Some(prefix), docs) && Step(api, SAVE, utc).tracks == api.tracks
  {
    hide DocumentsOf, Broadcast, Participants;
  }

  const BOTH_IN := RECORDING + [Ingested(FIRST), Ingested(SECOND), SAVE]

  lemma BothIn(utc: Calendar)
    ensures Stands(Reached(BOTH_IN, utc), Uploading, Some(TheirPrefix(utc)), Documents([FIRST, SECOND]))
  {
    hide Stands, Step, Document;
    Reviewed(utc);
    var prefix := TheirPrefix(utc);
    OneMore(RECORDING, Ingested(FIRST), utc);
    AnotherManifest(Reached(RECORDING, utc), Some(prefix), [], FIRST, utc);
    assert [] + [Document(FIRST)] == [Document(FIRST)];
    assert [Document(FIRST)] + [Document(SECOND)] == [Document(FIRST), Document(SECOND)];
    var one := RECORDING + [Ingested(FIRST)];
    OneMore(one, Ingested(SECOND), utc);
    AnotherManifest(Reached(one, utc), Some(prefix), [Document(FIRST)], SECOND, utc);
    var two := one + [Ingested(SECOND)];
    OneMore(two, SAVE, utc);
    Saved(Reached(two, utc), prefix, [Document(FIRST), Document(SECOND)], utc);
    assert two + [SAVE] == BOTH_IN;
    assert [Document(FIRST), Document(SECOND)] == Documents([FIRST, SECOND]);
  }

  lemma FirstIsUploaded(prefix: string)
    ensures UploadedBy([FIRST, SECOND], {0}, prefix, FirstSizes(prefix))
    ensures NothingExpectedIsEmpty([FIRST, SECOND], prefix)
  {
    hide Walked, Directory, Document, Expected;
    var hosts, sizes := [FIRST, SECOND], FirstSizes(prefix);
    FirstSends(prefix);
    SecondSends(prefix);
    forall m: nat, f | m in {0} && m < |hosts| && f in Walked(Directory(hosts[m]), prefix)
      ensures HoldsSome(hosts, prefix, sizes, f.key)
    {
      assert hosts[m] == FIRST && f.key in sizes;
      var g :| g in BoxFiles(prefix, "a", "metadata", "events.jsonl") && g.key == f.key && g.bytes == sizes[f.key];
      assert g in Walked(Directory(hosts[0]), prefix);
    }
  }

  lemma SecondIsNotListed(prefix: string)
    ensures !NamedIsListed(SECOND, prefix, FirstSizes(prefix))
  {
    hide Document, NamesKey;
    SecondNamesItsSegment(prefix);
    var key := SegmentKey(prefix, "b", "screen", "x", SEGMENT);
    assert key[|prefix| + 1] == 'b';
    forall f | f in BoxFiles(prefix, "a", "metadata", "events.jsonl") ensures f.key[|prefix| + 1] != 'b' {
    }
    assert key !in FirstSizes(prefix);
  }

  lemma OnlyFirstUploaded(api: Api, prefix: string)
    requires Stands(api, Uploading, Some(prefix), Documents([FIRST, SECOND]))
    ensures PartlyUploaded(api, "s", [FIRST, SECOND], {0}, FirstSizes(prefix))
  {
    hide Recorded, Document, DocumentsOf, UploadedBy, NothingExpectedIsEmpty, FirstSizes;
    FirstIsRecorded();
    SecondNamesItsSegment(prefix);
    FirstIsUploaded(prefix);
    assert 0 in {0} && 0 < |[FIRST, SECOND]|;
  }

  lemma LastState(calls: seq<Call>, utc: Calendar)
    ensures StatesBy(calls, utc)[|calls|] == Reached(calls, utc)
  {
    assert calls[..|calls|] == calls;
  }

  lemma StateWithin(calls: seq<Call>, more: seq<Call>, utc: Calendar)
    ensures StatesBy(calls + more, utc)[|calls|] == Reached(calls, utc)
  {
    assert (calls + more)[..|calls|] == calls;
  }

  function Failure(): Call {
    Call(0, ReportReq("s", UploadFailed("a")))
  }

  ghost function FirstFinishes(utc: Calendar): seq<Call> {
    BOTH_IN + [Completes(utc), Failure()]
  }

  lemma RecordingIsPlain()
    ensures Plain(RECORDING)
  {
  }

  lemma BothInIsPlain()
    ensures Plain(BOTH_IN)
  {
    RecordingIsPlain();
    hide Plain, Document;
    PlainAndOneMore(RECORDING, Ingested(FIRST));
    PlainAndOneMore(RECORDING + [Ingested(FIRST)], Ingested(SECOND));
    PlainAndOneMore(RECORDING + [Ingested(FIRST)] + [Ingested(SECOND)], SAVE);
    assert RECORDING + [Ingested(FIRST)] + [Ingested(SECOND)] + [SAVE] == BOTH_IN;
  }

  lemma FirstFinishesIsRun(utc: Calendar)
    ensures IsRun(StatesBy(FirstFinishes(utc), utc), FirstFinishes(utc), utc)
  {
    BothInIsPlain();
    hide IsRun, StatesBy, FirstSizes, Document, Plain, TheirPrefix;
    PlainAndOneMore(BOTH_IN, Completes(utc));
    PlainAndOneMore(BOTH_IN + [Completes(utc)], Failure());
    assert BOTH_IN + [Completes(utc)] + [Failure()] == FirstFinishes(utc);
    PlainIsRun(FirstFinishes(utc), utc);
  }

  /** Two more calls after any. */
  lemma TwoMore(calls: seq<Call>, one: Call, two: Call, utc: Calendar)
    ensures var states := StatesBy(calls + [one, two], utc);
      && states[|calls|] == Reached(calls, utc)
      && states[|calls| + 2] == Step(Step(Reached(calls, utc), one, utc), two, utc)
  {
    hide Reached, Step;
    StateWithin(calls, [one, two], utc);
    OneMore(calls, one, utc);
    OneMore(calls + [one], two, utc);
    assert calls + [one] + [two] == calls + [one, two];
    LastState(calls + [one, two], utc);
  }

  lemma RefusedThenFailed(api: Api, utc: Calendar)
    requires CompleteUpload(api, "s", FirstSizes(TheirPrefix(utc))) == Outcome(api, Some(BadRequest))
    ensures Step(api, Completes(utc), utc) == api
    ensures Step(api, Failure(), utc) == ReportStatus(api, "s", UploadFailed("a"), 0, utc).api
  {
    hide CompleteUpload, ReportStatus, FirstSizes, TheirPrefix;
  }

  lemma TheirPrefixStands(api: Api, state: SessionState, prefix: string, docs: seq<ManifestDoc>)
    requires Stands(api, state, Some(prefix), docs)
    ensures "s" in api.sessions && PrefixOf(api, "s") == prefix
  {
  }

  lemma FirstIsRefused(api: Api, utc: Calendar)
    requires Stands(api, Uploading, Some(TheirPrefix(utc)), Documents([FIRST, SECOND]))
    ensures PartlyUploaded(api, "s", [FIRST, SECOND], {0}, FirstSizes(TheirPrefix(utc)))
    ensures CompleteUpload(api, "s", FirstSizes(TheirPrefix(utc))) == Outcome(api, Some(BadRequest))
    ensures Fails(ReportStatus(api, "s", UploadFailed("a"), 0, utc))
  {
    hide *;
    var prefix, hosts := TheirPrefix(utc), [FIRST, SECOND];
    TheirPrefixStands(api, Uploading, prefix, Documents(hosts));
    assert hosts[1] == SECOND;
    OnlyFirstUploaded(api, prefix);
    SecondIsNotListed(prefix);
    EarlyCompletionFails(api, "s", hosts, {0}, FirstSizes(prefix), "a", 0, utc, map[]);
    HasFailed(ReportStatus(api, "s", UploadFailed("a"), 0, utc));
  }

  ghost predicate Fails(outcome: Outcome) {
    "s" in outcome.api.sessions && outcome.api.sessions["s"].state == Failed
  }

  lemma HasFailed(outcome: Outcome)
    requires "s" in outcome.api.sessions && outcome.api.sessions["s"].state == Failed
    ensures Fails(outcome)
  {
  }

  /**
   * Two machines, both manifests in, the first done with its files: its
   * completion is refused, and its report of that fails the session.
   */
  lemma FirstToFinishFails(utc: Calendar) returns (states: seq<Api>)
    ensures IsRun(states, FirstFinishes(utc), utc)
    ensures var n := |BOTH_IN|;
      && n + 2 == |FirstFinishes(utc)| && FirstFinishes(utc)[n] == Completes(utc)
      && PartlyUploaded(states[n], "s", [FIRST, SECOND], {0}, FirstSizes(TheirPrefix(utc)))
      && CompleteUpload(states[n], "s", FirstSizes(TheirPrefix(utc))) == Outcome(states[n], Some(BadRequest))
      && HasState(states, n + 2, "s", Failed)
  {
    hide IsRun, Stands, CompleteUpload, PartlyUploaded, Reached, FirstSizes, TheirPrefix, Step;
    states := StatesBy(FirstFinishes(utc), utc);
    FirstFinishesIsRun(utc);
    BothIn(utc);
    FirstIsRefused(Reached(BOTH_IN, utc), utc);
    RefusedThenFailed(Reached(BOTH_IN, utc), utc);
    TwoMore(BOTH_IN, Completes(utc), Failure(), utc);
  }

  const FIRST_IN := RECORDING + [Ingested(FIRST), SAVE]

  lemma FirstIn(utc: Calendar)
    ensures Stands(Reached(FIRST_IN, utc), Uploading, Some(TheirPrefix(utc)), [Document(FIRST)])
    ensures OfBoth(Reached(FIRST_IN, utc))
  {
    FirstIsRecorded();
    var calls := RECORDING + [Ingested(FIRST)];
    assert RECORDING + [Ingested(FIRST)] + [SAVE] == FIRST_IN;
    hide Stands, Step, Document, Participants, Reached;
    Reviewed(utc);
    OneMore(RECORDING, Ingested(FIRST), utc);
    AnotherManifest(Reached(RECORDING, utc), Some(TheirPrefix(utc)), [], FIRST, utc);
    assert [] + [Document(FIRST)] == [Document(FIRST)];
    OneMore(calls, SAVE, utc);
    Saved(Reached(calls, utc), TheirPrefix(utc), [Document(FIRST)], utc);
  }

  lemma FirstAloneReadsBack(prefix: string)
    ensures ReadBack([Document(FIRST)], prefix, FirstSizes(prefix))
  {
    FirstIsRecorded();
    hide Document;
    assert Upload.FileToSend(prefix + "/manifest.json", 1) in BoxFiles(prefix, "a", "metadata", "events.jsonl");
  }

  lemma FirstIsEnough(api: Api, utc: Calendar)
    requires Stands(api, Uploading, Some(TheirPrefix(utc)), [Document(FIRST)])
    ensures var done := Step(api, Completes(utc), utc); "s" in done.sessions && done.sessions["s"].state == Stored
  {
    hide FirstSizes, TheirPrefix, Document, DocumentsOf, ReadBack;
    FirstAloneReadsBack(TheirPrefix(utc));
  }

  lemma FirstAloneIsRun(utc: Calendar)
    ensures IsRun(StatesBy(FIRST_IN + [Completes(utc)], utc), FIRST_IN + [Completes(utc)], utc)
  {
    RecordingIsPlain();
    hide IsRun, StatesBy, FirstSizes, Document, Plain, TheirPrefix;
    PlainAndOneMore(RECORDING, Ingested(FIRST));
    PlainAndOneMore(RECORDING + [Ingested(FIRST)], SAVE);
    assert RECORDING + [Ingested(FIRST)] + [SAVE] == FIRST_IN;
    PlainAndOneMore(FIRST_IN, Completes(utc));
    PlainIsRun(FIRST_IN + [Completes(utc)], utc);
  }

  /**
   * The second machine takes part and recorded a segment, but its manifest
   * never arrives and nothing of it is in storage: the session is stored.
   */
  lemma StoredWithoutSecond(utc: Calendar) returns (states: seq<Api>)
    ensures IsRun(states, FIRST_IN + [Completes(utc)], utc)
    ensures var n := |FIRST_IN|;
      && "b" in Participants(states[n].tracks, "s") && DocumentsOf(states[n].manifests, "s") == [Document(FIRST)]
      && HasState(states, n + 1, "s", Stored)
    ensures !NamedIsListed(SECOND, TheirPrefix(utc), FirstSizes(TheirPrefix(utc)))
  {
    hide IsRun, Reached, FirstSizes, NamedIsListed, Document, DocumentsOf, Participants, TheirPrefix, Step;
    states := StatesBy(FIRST_IN + [Completes(utc)], utc);
    FirstAloneIsRun(utc);
    FirstIn(utc);
    FirstIsEnough(Reached(FIRST_IN, utc), utc);
    SecondIsNotListed(TheirPrefix(utc));
    StateWithin(FIRST_IN, [Completes(utc)], utc);
    OneMore(FIRST_IN, Completes(utc), utc);
    LastState(FIRST_IN + [Completes(utc)], utc);
  }
}

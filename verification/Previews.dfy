/** The preview row: render requests, the completeness check and the render report. */
module Previews {
  import opened Wrappers
  import opened Entities
  import opened Commands
  import opened Manifests
  import Slugs

  function LegalPreviewFrom(from: PreviewState): set<PreviewState> {
    match from
    case Pending => {Rendering, RenderFailed}
    case Rendering => {Ready, RenderFailed, Pending}
    case RenderFailed => {Rendering}
    case Ready => {}
  }

  predicate IsLegalPreviewTransition(from: PreviewState, to: PreviewState) {
    to in LegalPreviewFrom(from)
  }

  datatype RenderState = RenderedReady | RenderedFailed | RenderedDeferred

  datatype RenderReport = RenderReport(
    state: RenderState,
    artifacts: seq<Artifact>,
    sourcePath: Option<string>,
    reason: Option<string>,
    detail: Option<string>)

  // -------------------------------------------------------- audio object keys

  predicate AudioSlugChar(c: char) {
    'A' <= c <= 'Z' || 'a' <= c <= 'z' || '0' <= c <= '9' || c == '_' || c == '-'
  }

  function AudioSlug(s: string): (r: string)
    ensures '/' !in r
  {
    Slugs.Squash(s, AudioSlugChar, '_')
  }

  function AudioObjectKey(prefix: string, sourceRef: string): string {
    prefix + "/preview/audio-" + AudioSlug(sourceRef) + ".m4a"
  }

  /** Under one prefix, two sources share a key exactly when they share a slug. */
  lemma AudioKeysCollide(prefix: string, a: string, b: string)
    ensures AudioObjectKey(prefix, a) == AudioObjectKey(prefix, b) <==> AudioSlug(a) == AudioSlug(b)
  {
    var n := |prefix + "/preview/audio-"|;
    assert AudioObjectKey(prefix, a)[n..|AudioObjectKey(prefix, a)| - 4] == AudioSlug(a);
    assert AudioObjectKey(prefix, b)[n..|AudioObjectKey(prefix, b)| - 4] == AudioSlug(b);
  }

  /**
   * A source shares its key with some other source exactly when it is not all
   * letters, digits and dashes.
   */
  lemma AudioKeyIsShared(prefix: string, a: string)
    ensures (exists b :: b != a && AudioObjectKey(prefix, b) == AudioObjectKey(prefix, a)) <==>
      exists k :: 0 <= k < |a| && (!AudioSlugChar(a[k]) || a[k] == '_')
  {
    if Slugs.Plain(a, AudioSlugChar, '_') {
      forall b | AudioObjectKey(prefix, b) == AudioObjectKey(prefix, a) ensures b == a {
        AudioKeysCollide(prefix, a, b);
        Slugs.PlainIsUnshared(a, b, AudioSlugChar, '_');
      }
    } else {
      var b, k := Slugs.OthersAreShared(a, '.', ' ', AudioSlugChar, '_');
      assert AudioObjectKey(prefix, b) == AudioObjectKey(prefix, a);
    }
  }

  /** A dot and an underscore are told apart by a source reference but not by its key. */
  lemma DistinctSourcesShareAKey(prefix: string)
    ensures "." != "_" && AudioObjectKey(prefix, ".") == AudioObjectKey(prefix, "_")
  {
    assert Slugs.Similar(".", "_"[0 := '.'], AudioSlugChar);
    Slugs.GlueStandsForOthers("_", 0, '.', AudioSlugChar, '_');
    assert "_"[0 := '.'] == ".";
  }

  // ------------------------------------------------------------- completeness

  function AddRefs(refs: seq<string>, tracks: seq<ManifestTrack>): (r: seq<string>)
    ensures forall x :: x in r <==> x in refs || exists t ::
      0 <= t < |tracks| && tracks[t].kind == "audio" && tracks[t].sourceRef == x
  {
    if tracks == [] then refs
    else
      var before := AddRefs(refs, tracks[..|tracks| - 1]);
      var t := tracks[|tracks| - 1];
      if t.kind == "audio" && t.sourceRef !in before then before + [t.sourceRef] else before
  }

  /** Every captured audio source, once. */
  function AudioTrackRefs(docs: seq<ManifestDoc>): (r: seq<string>)
    ensures forall x :: x in r <==> exists d :: 0 <= d < |docs| && exists t ::
      0 <= t < |docs[d].tracks| && docs[d].tracks[t].kind == "audio" && docs[d].tracks[t].sourceRef == x
  {
    if docs == [] then [] else AddRefs(AudioTrackRefs(docs[..|docs| - 1]), docs[|docs| - 1].tracks)
  }

  function MissingAudioProxies(expected: seq<string>, rendered: set<string>, prefix: string): (missing: seq<string>)
    ensures forall x :: x in missing <==> x in expected && AudioObjectKey(prefix, x) !in rendered
  {
    if expected == [] then []
    else
      (if AudioObjectKey(prefix, expected[0]) in rendered then [] else [expected[0]])
      + MissingAudioProxies(expected[1..], rendered, prefix)
  }

  function FindVideo(artifacts: seq<Artifact>): (r: Option<Artifact>)
    ensures r.Some? <==> exists k :: 0 <= k < |artifacts| && artifacts[k].kind == Video
    ensures r.Some? ==> r.value in artifacts && r.value.kind == Video
  {
    if artifacts == [] then None else if artifacts[0].kind == Video then Some(artifacts[0]) else
      FindVideo(artifacts[1..])
  }

  /** `/preview/` followed by no slash at all, cut off the end. */
  function StripPreview(key: string, at: nat): string
    requires at <= |key|
  {
    if at < 9 then key
    else if key[at - 9..at] == "/preview/" && '/' !in key[at..] then key[..at - 9]
    else StripPreview(key, at - 1)
  }

  function PrefixOf(artifacts: seq<Artifact>): string {
    var key := match FindVideo(artifacts) case Some(a) => a.objectKey case None => "";
    StripPreview(key, |key|)
  }

  lemma {:induction false} StripPreviewCuts(prefix: string, name: string, at: nat)
    requires '/' !in name && |prefix| + 9 <= at <= |prefix| + 9 + |name|
    ensures StripPreview(prefix + "/preview/" + name, at) == prefix
  {
    var key := prefix + "/preview/" + name;
    assert key[..|prefix|] == prefix && key[|prefix| + 9..] == name;
    if at == |prefix| + 9 {
      assert key[at - 9..at] == "/preview/" && key[..at - 9] == prefix;
    } else {
      assert key[at - 1] == name[at - 1 - |prefix| - 9] && key[at - 9..at][8] == key[at - 1];
      assert "/preview/"[8] == '/';
      StripPreviewCuts(prefix, name, at - 1);
    }
  }

  function AudioKeys(artifacts: seq<Artifact>): set<string> {
    set a | a in artifacts && a.kind == Audio :: a.objectKey
  }

  function Join(parts: seq<string>, glue: string): string {
    if |parts| == 0 then "" else if |parts| == 1 then parts[0] else parts[0] + glue + Join(parts[1..], glue)
  }

  function Incompleteness(docs: seq<ManifestDoc>, artifacts: seq<Artifact>): Option<string> {
    if FindVideo(artifacts).None? then Some("the render reported ready with no video proxy")
    else
      var missing := MissingAudioProxies(AudioTrackRefs(docs), AudioKeys(artifacts), PrefixOf(artifacts));
      if missing != [] then Some("no audio proxy rendered for " + Join(missing, ", ")) else None
  }

  ghost predicate CapturedAudio(docs: seq<ManifestDoc>, sourceRef: string) {
    exists d, t :: 0 <= d < |docs| && 0 <= t < |docs[d].tracks| && docs[d].tracks[t].kind == "audio" &&
      docs[d].tracks[t].sourceRef == sourceRef
  }

  /** A video artifact, and under its prefix an audio key for every captured source. */
  ghost predicate Complete(docs: seq<ManifestDoc>, artifacts: seq<Artifact>) {
    && (exists k :: 0 <= k < |artifacts| && artifacts[k].kind == Video)
    && forall sourceRef | CapturedAudio(docs, sourceRef) ::
         exists k :: 0 <= k < |artifacts| && artifacts[k].kind == Audio &&
           artifacts[k].objectKey == AudioObjectKey(PrefixOf(artifacts), sourceRef)
  }

  lemma IncompletenessExact(docs: seq<ManifestDoc>, artifacts: seq<Artifact>)
    ensures Incompleteness(docs, artifacts).None? <==> Complete(docs, artifacts)
  {
    var refs, prefix := AudioTrackRefs(docs), PrefixOf(artifacts);
    var missing := MissingAudioProxies(refs, AudioKeys(artifacts), prefix);
    assert forall x :: x in refs <==> CapturedAudio(docs, x);
    assert missing != [] ==> missing[0] in missing;
    assert forall x :: x in missing <==> CapturedAudio(docs, x) && AudioObjectKey(prefix, x) !in AudioKeys(artifacts);
  }

  // ------------------------------------------------------------ specification

  function FindAgent(docs: seq<ManifestDoc>): Option<AgentId> {
    if docs == [] then None else if docs[0].agentId != "" then Some(docs[0].agentId) else FindAgent(docs[1..])
  }

  predicate HasPrefix(session: Session) {
    session.s3Prefix.GetOr("") != ""
  }

  function RequestRender(api: Api, sessionId: SessionId, now: Millis): Outcome {
    if sessionId !in api.sessions then Outcome(api, Some(NotFound))
    else
      var session := api.sessions[sessionId];
      if session.state != Stored then Outcome(api, Some(BadRequest))
      else if !HasPrefix(session) then Outcome(api, Some(NotFound))
      else if sessionId in api.previews && api.previews[sessionId].state in {Ready, Rendering} then Outcome(api, None)
      else
        var docs := DocumentsOf(api.manifests, sessionId);
        var agent := FindAgent(docs);
        if agent.None? then Outcome(api, Some(NotFound))
        else
          var row := if sessionId in api.previews then api.previews[sessionId] else
            Preview(Pending, [], None, None, None, None);
          var payload := NO_PAYLOAD.(prefix := session.s3Prefix, audioSourceRefs := AudioTrackRefs(docs));
          Outcome(
            api.(
              previews := api.previews[sessionId := row.(state := Rendering, failureReason := None)],
              commands := api.commands + [NewCommand(agent.value, RenderPreview, sessionId, payload, now)]),
            None)
  }

  function TargetState(report: RenderReport): PreviewState {
    match report.state
    case RenderedReady => Ready
    case RenderedDeferred => Pending
    case RenderedFailed => RenderFailed
  }

  function FailureText(report: RenderReport): string {
    var reason, detail := report.reason.GetOr(""), report.detail.GetOr("");
    if reason != "" && detail != "" then reason + ": " + detail
    else if reason != "" then reason
    else if detail != "" then detail
    else "render failed"
  }

  function Accepted(preview: Preview, docs: seq<ManifestDoc>, report: RenderReport, now: Millis): Preview {
    match report.state
    case RenderedReady => (
      match Incompleteness(docs, report.artifacts)
      case Some(problem) =>
        preview.(
          state := RenderFailed,
          failureReason := Some(problem),
          sourcePath := if report.sourcePath.Some? then report.sourcePath else preview.sourcePath)
      case None =>
        preview.(
          state := Ready,
          artifacts := report.artifacts,
          sourcePath := report.sourcePath,
          failureReason := None,
          readyAt := Some(now)))
    case RenderedFailed => preview.(state := RenderFailed, failureReason := Some(FailureText(report)))
    case RenderedDeferred => preview.(state := Pending, failureReason := Some(report.reason.GetOr("deferred")))
  }

  /** Reports with no row, and reports whose target is not a legal move, are ignored. */
  function CompleteRender(api: Api, sessionId: SessionId, report: RenderReport, now: Millis): Api {
    if sessionId !in api.previews ||
      !IsLegalPreviewTransition(api.previews[sessionId].state, TargetState(report)) then api
    else
      api.(previews := api.previews[sessionId :=
        Accepted(api.previews[sessionId], DocumentsOf(api.manifests, sessionId), report, now)])
  }

  function SelectSource(api: Api, sessionId: SessionId, sourceRef: string): Outcome {
    if sessionId !in api.sessions || sourceRef !in AudioTrackRefs(DocumentsOf(api.manifests, sessionId)) ||
      sessionId !in api.previews
    then Outcome(api, Some(NotFound))
    else Outcome(api.(previews :=
      api.previews[sessionId := api.previews[sessionId].(selectedSourceRef := Some(sourceRef))]), None)
  }

  // ------------------------------------------------------------- the service

  class PreviewService {
    const db: Database
    const commands: CommandsService

    constructor (db: Database, commands: CommandsService)
      requires commands.db == db
      ensures this.db == db && this.commands == commands
    {
      this.db, this.commands := db, commands;
    }

    ghost predicate Valid() {
      commands.db == db
    }

    /** The tables this service works on, with no readiness: it never reads any. */
    function Snapshot(): Api
      reads this, db
    {
      Api(db.sessions, db.tracks, db.commands, db.manifests, db.previews, map[])
    }

    method Request(sessionId: SessionId, now: Millis) returns (error: Option<ApiError>)
      requires Valid()
      modifies db`previews, db`commands
      ensures Outcome(Snapshot(), error) == RequestRender(old(Snapshot()), sessionId, now)
    {
      if sessionId !in db.sessions {
        return Some(NotFound);
      }
      var session := db.sessions[sessionId];
      if session.state != Stored {
        return Some(BadRequest);
      }
      if !HasPrefix(session) {
        return Some(NotFound);
      }
      if sessionId in db.previews &&
        (db.previews[sessionId].state == Ready || db.previews[sessionId].state == Rendering) {
        return None;
      }
      var docs := DocumentsOf(db.manifests, sessionId);
      var agent := FindAgent(docs);
      if agent.None? {
        return Some(NotFound);
      }
      var row := Preview(Pending, [], None, None, None, None);
      if sessionId in db.previews {
        row := db.previews[sessionId];
      }
      row := row.(state := Rendering);
      row := row.(failureReason := None);
      db.previews := db.previews[sessionId := row];
      commands.Queue(agent.value, RenderPreview, sessionId,
                     NO_PAYLOAD.(prefix := session.s3Prefix, audioSourceRefs := AudioTrackRefs(docs)), now);
      return None;
    }

    method Finish(sessionId: SessionId, report: RenderReport, now: Millis)
      modifies db`previews
      ensures Snapshot() == CompleteRender(old(Snapshot()), sessionId, report, now)
    {
      if sessionId !in db.previews {
        return;
      }
      var preview := db.previews[sessionId];
      var target := TargetState(report);
      if !IsLegalPreviewTransition(preview.state, target) {
        return;
      }

      if target == Ready {
        var problem := Incompleteness(DocumentsOf(db.manifests, sessionId), report.artifacts);
        if problem.Some? {
          preview := preview.(state := RenderFailed, failureReason := problem);
          if report.sourcePath.Some? {
            preview := preview.(sourcePath := report.sourcePath);
          }
          db.previews := db.previews[sessionId := preview];
          return;
        }
        preview := preview.(state := Ready, artifacts := report.artifacts, sourcePath := report.sourcePath);
        preview := preview.(failureReason := None, readyAt := Some(now));
        db.previews := db.previews[sessionId := preview];
        return;
      }

      preview := preview.(state := target);
      if target == RenderFailed {
        preview := preview.(failureReason := Some(FailureText(report)));
      } else {
        preview := preview.(failureReason := Some(report.reason.GetOr("deferred")));
      }
      db.previews := db.previews[sessionId := preview];
    }

    method Select(sessionId: SessionId, sourceRef: string) returns (error: Option<ApiError>)
      modifies db`previews
      ensures Outcome(Snapshot(), error) == SelectSource(old(Snapshot()), sessionId, sourceRef)
    {
      if sessionId !in db.sessions {
        return Some(NotFound);
      }
      if sourceRef !in AudioTrackRefs(DocumentsOf(db.manifests, sessionId)) {
        return Some(NotFound);
      }
      if sessionId !in db.previews {
        return Some(NotFound);
      }
      db.previews := db.previews[sessionId := db.previews[sessionId].(selectedSourceRef := Some(sourceRef))];
      return None;
    }
  }
}

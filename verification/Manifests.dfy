/** Manifest ingestion and the storage readback that is the only road to `stored`. */
module Manifests {
  import opened Wrappers
  import opened Entities
  import Slugs

  // -------------------------------------------------------------------- slug

  predicate SlugChar(c: char) {
    'A' <= c <= 'Z' || 'a' <= c <= 'z' || '0' <= c <= '9' || c == '.' || c == '_' || c == '-'
  }

  function StripSlashes(s: string): string {
    if s != "" && s[0] == '/' then StripSlashes(s[1..]) else s
  }

  /** A source reference as one path segment; agent and API hold the same text of it. */
  function SourceSlug(sourceRef: string): (r: string)
    ensures '/' !in r
    ensures Slugs.AllKept(sourceRef, SlugChar) ==> r == sourceRef
  {
    assert Slugs.AllKept(sourceRef, SlugChar) && sourceRef != "" ==> SlugChar(sourceRef[0]);
    Slugs.Squash(StripSlashes(sourceRef), SlugChar, '-')
  }

  /** Every source shares its slug with the one a leading slash makes of it. */
  lemma LeadingSlashIsLost(a: string)
    ensures "/" + a != a && SourceSlug("/" + a) == SourceSlug(a)
  {
    assert ("/" + a)[1..] == a;
  }

  predicate Unslashed(a: string) {
    a == "" || a[0] != '/'
  }

  /**
   * Among sources with no leading slash, one shares its slug with another
   * exactly when it holds a dash or a character no slug may hold.
   */
  lemma SlugIsShared(a: string)
    requires Unslashed(a)
    ensures (exists b :: b != a && Unslashed(b) && SourceSlug(b) == SourceSlug(a)) <==> !Slugs.Plain(a, SlugChar, '-')
  {
    if Slugs.Plain(a, SlugChar, '-') {
      forall b | Unslashed(b) && SourceSlug(b) == SourceSlug(a) ensures b == a {
        Slugs.PlainIsUnshared(a, b, SlugChar, '-');
      }
    } else {
      var b, k := Slugs.OthersAreShared(a, ':', ' ', SlugChar, '-');
      assert Unslashed(b);
    }
  }

  // ----------------------------------------------------------- expected keys

  function HostOf(doc: ManifestDoc): string {
    doc.hostname.GetOr("agent")
  }

  function SegmentKey(prefix: string, host: string, kind: string, sourceRef: string, file: string): string {
    prefix + "/" + host + "/" + (kind + "-" + SourceSlug(sourceRef)) + "/" + file
  }

  /** A segment of one of the first `n` tracks has this key. */
  ghost predicate TrackNamesKey(doc: ManifestDoc, n: nat, prefix: string, key: string)
    requires n <= |doc.tracks|
  {
    exists t, s ::
      && 0 <= t < n && 0 <= s < |doc.tracks[t].segments|
      && key == SegmentKey(prefix, HostOf(doc), doc.tracks[t].kind, doc.tracks[t].sourceRef,
        doc.tracks[t].segments[s].file)
  }

  ghost predicate NamesKey(doc: ManifestDoc, prefix: string, key: string) {
    TrackNamesKey(doc, |doc.tracks|, prefix, key)
  }

  /** A key the manifests say should exist, the manifest itself included. */
  ghost predicate Expected(docs: seq<ManifestDoc>, prefix: string, key: string) {
    key == prefix + "/manifest.json" || exists m :: 0 <= m < |docs| && NamesKey(docs[m], prefix, key)
  }

  function DocumentsOf(manifests: seq<Manifest>, sessionId: SessionId): seq<ManifestDoc> {
    if manifests == [] then []
    else
      var last := manifests[|manifests| - 1];
      DocumentsOf(manifests[..|manifests| - 1], sessionId) + if last.sessionId == sessionId then [last.document] else []
  }

  /** Every expected key is listed with a positive size. */
  ghost predicate ReadBack(docs: seq<ManifestDoc>, prefix: string, sizes: map<string, nat>) {
    forall key :: Expected(docs, prefix, key) ==> key in sizes && sizes[key] > 0
  }

  // ------------------------------------------------------------ specification

  function SegmentBytes(segments: seq<Segment>): nat {
    if segments == [] then 0 else SegmentBytes(segments[..|segments| - 1]) + segments[|segments| - 1].bytes
  }

  /** Track rows take their totals from the manifest; rows that do not exist are skipped. */
  function Totalled(tracks: seq<Track>, reported: seq<ManifestTrack>): (r: seq<Track>)
    ensures |r| == |tracks|
    ensures forall k | 0 <= k < |r| :: r[k].sessionId == tracks[k].sessionId && r[k].agentId == tracks[k].agentId
  {
    if reported == [] then tracks
    else
      var before := Totalled(tracks, reported[..|reported| - 1]);
      var t := reported[|reported| - 1];
      if t.trackId < |before|
      then before[t.trackId := before[t.trackId].(segmentCount := |t.segments|, bytes := SegmentBytes(t.segments))]
      else before
  }

  lemma {:induction false} UnnamedIsUntouched(tracks: seq<Track>, reported: seq<ManifestTrack>, k: nat)
    requires k < |tracks| && forall j | 0 <= j < |reported| :: reported[j].trackId != k
    ensures Totalled(tracks, reported)[k] == tracks[k]
  {
    if reported != [] {
      UnnamedIsUntouched(tracks, reported[..|reported| - 1], k);
    }
  }

  /** A track row takes the totals of the last entry that names it, and no other row changes. */
  lemma {:induction false} TotalledExact(tracks: seq<Track>, reported: seq<ManifestTrack>, k: nat, i: nat)
    requires k < |tracks| && i < |reported|
    ensures (forall j | 0 <= j < |reported| :: reported[j].trackId != k) ==> Totalled(tracks, reported)[k] == tracks[k]
    ensures reported[i].trackId == k && (forall j | i < j < |reported| :: reported[j].trackId != k) ==>
      Totalled(tracks, reported)[k] ==
        tracks[k].(segmentCount := |reported[i].segments|, bytes := SegmentBytes(reported[i].segments))
  {
    hide SegmentBytes;
    var n := |reported| - 1;
    if forall j | 0 <= j < |reported| :: reported[j].trackId != k {
      UnnamedIsUntouched(tracks, reported, k);
    } else if i < n {
      TotalledExact(tracks, reported[..n], k, i);
    } else {
      OnlyTotals(tracks, reported[..n], k);
    }
  }

  lemma {:induction false} OnlyTotals(tracks: seq<Track>, reported: seq<ManifestTrack>, k: nat)
    requires k < |tracks|
    ensures var after := Totalled(tracks, reported)[k];
      after == tracks[k].(segmentCount := after.segmentCount, bytes := after.bytes)
  {
    if reported != [] {
      OnlyTotals(tracks, reported[..|reported| - 1], k);
    }
  }

  function IngestManifest(api: Api, sessionId: SessionId, doc: ManifestDoc): Outcome {
    if sessionId !in api.sessions then Outcome(api, Some(NotFound))
    else
      var session := api.sessions[sessionId];
      var updated := if doc.clockOffsetMs.None? then session
                     else session.(clockOffsetMs :=
                       Some(Max(session.clockOffsetMs.GetOr(0), Abs(doc.clockOffsetMs.value))));
      Outcome(
        api.(
          manifests := api.manifests + [Manifest(sessionId, doc)],
          tracks := Totalled(api.tracks, doc.tracks),
          sessions := api.sessions[sessionId := updated]),
        None)
  }

  function VerifiedTracks(tracks: seq<Track>, sessionId: SessionId): seq<Track> {
    seq(|tracks|, k requires 0 <= k < |tracks| => if tracks[k].sessionId == sessionId then
      tracks[k].(verified := true) else tracks[k])
  }

  /** `sizes` is the listing of the session's prefix. */
  ghost function CompleteUpload(api: Api, sessionId: SessionId, sizes: map<string, nat>): Outcome {
    if sessionId !in api.sessions then Outcome(api, Some(NotFound))
    else
      var session := api.sessions[sessionId];
      var docs := DocumentsOf(api.manifests, sessionId);
      if docs == [] || !ReadBack(docs, session.s3Prefix.GetOr(""), sizes) || !IsLegalTransition(session.state, Stored)
      then Outcome(api, Some(BadRequest))
      else
        Outcome(
          api.(
            sessions := api.sessions[sessionId := session.(state := Stored)],
            tracks := VerifiedTracks(api.tracks, sessionId)),
          None)
  }

  // ----------------------------------------------------------------- storage

  /** One page of a listing. */
  datatype Page = Page(contents: seq<(string, nat)>, truncated: bool)

  function AddObjects(sizes: map<string, nat>, contents: seq<(string, nat)>): map<string, nat> {
    if contents == [] then sizes
    else AddObjects(sizes, contents[..|contents| - 1])[contents[|contents| - 1].0 := contents[|contents| - 1].1]
  }

  /** The listing a paginated answer spells out: pages up to the first that is not truncated. */
  function Listed(pages: seq<Page>): map<string, nat> {
    if pages == [] then map[] else AddObjects(Listed(pages[..|pages| - 1]), pages[|pages| - 1].contents)
  }

  method ListSizes(pages: seq<Page>) returns (sizes: map<string, nat>)
    requires exists p :: 0 <= p < |pages| && !pages[p].truncated
    ensures exists p ::
      0 <= p < |pages| && !pages[p].truncated && (forall q | 0 <= q < p :: pages[q].truncated)
      && sizes == Listed(pages[..p + 1])
  {
    sizes := map[];
    var n := 0;
    var more := true;
    while more
      invariant 0 <= n <= |pages|
      invariant sizes == Listed(pages[..n])
      invariant more ==> forall q | 0 <= q < n :: pages[q].truncated
      invariant !more ==> 1 <= n && !pages[n - 1].truncated && forall q | 0 <= q < n - 1 :: pages[q].truncated
      decreases more, |pages| - n
    {
      ghost var before := sizes;
      var contents := pages[n].contents;
      for i := 0 to |contents|
        invariant sizes == AddObjects(before, contents[..i])
      {
        assert contents[..i + 1][..i] == contents[..i];
        sizes := sizes[contents[i].0 := contents[i].1];
      }
      assert contents[..|contents|] == contents;
      assert pages[..n + 1][..n] == pages[..n];
      more := pages[n].truncated;
      n := n + 1;
    }
  }

  /** The readback: verified exactly when something was expected and nothing is missing. */
  method VerifySession(sizes: map<string, nat>, expected: set<string>) returns (verified: bool, missing: set<string>)
    ensures verified <==> expected != {} && forall key | key in expected :: key in sizes && sizes[key] > 0
    ensures expected != {} ==> missing == set key | key in expected && !(key in sizes && sizes[key] > 0)
  {
    if expected == {} {
      return false, {};
    }
    missing := set key | key in expected && (key !in sizes || sizes[key] <= 0);
    verified := missing == {};
    assert forall key | key in expected :: key !in missing <==> key in sizes && sizes[key] > 0;
  }

  // ------------------------------------------------------------- the service

  class ManifestService {
    const db: Database

    constructor (db: Database)
      ensures this.db == db
    {
      this.db := db;
    }

    /** The tables this service works on, with no readiness: it never reads any. */
    function Snapshot(): Api
      reads this, db
    {
      Api(db.sessions, db.tracks, db.commands, db.manifests, db.previews, map[])
    }

    method Ingest(sessionId: SessionId, doc: ManifestDoc) returns (error: Option<ApiError>)
      modifies db`sessions, db`tracks, db`manifests
      ensures Outcome(Snapshot(), error) == IngestManifest(old(Snapshot()), sessionId, doc)
    {
      if sessionId !in db.sessions {
        return Some(NotFound);
      }
      var session := db.sessions[sessionId];
      db.manifests := db.manifests + [Manifest(sessionId, doc)];

      for i := 0 to |doc.tracks|
        modifies db`tracks
        invariant db.tracks == Totalled(old(db.tracks), doc.tracks[..i])
      {
        assert doc.tracks[..i + 1][..i] == doc.tracks[..i];
        var t := doc.tracks[i];
        if t.trackId < |db.tracks| {
          db.tracks := db.tracks[t.trackId :=
            db.tracks[t.trackId].(segmentCount := |t.segments|, bytes := SegmentBytes(t.segments))];
        }
      }
      assert doc.tracks[..|doc.tracks|] == doc.tracks;

      if doc.clockOffsetMs.Some? {
        session := session.(clockOffsetMs := Some(Max(session.clockOffsetMs.GetOr(0), Abs(doc.clockOffsetMs.value))));
        db.sessions := db.sessions[sessionId := session];
      } else {
        assert db.sessions == db.sessions[sessionId := session];
      }
      return None;
    }

    /** A `Set` of keys: the manifest's own, then each segment's. */
    static method ExpectedKeys(prefix: string, docs: seq<ManifestDoc>) returns (keys: set<string>)
      ensures forall key :: key in keys <==> Expected(docs, prefix, key)
    {
      keys := {prefix + "/manifest.json"};
      for m := 0 to |docs|
        invariant forall key :: key in keys <==>
          key == prefix + "/manifest.json" || exists d :: 0 <= d < m && NamesKey(docs[d], prefix, key)
      {
        var doc := docs[m];
        ghost var before := keys;
        for t := 0 to |doc.tracks|
          invariant forall key :: key in keys <==> key in before || TrackNamesKey(doc, t, prefix, key)
        {
          var track := doc.tracks[t];
          keys := keys + set s | 0 <= s < |track.segments| ::
            SegmentKey(prefix, HostOf(doc), track.kind, track.sourceRef, track.segments[s].file);
        }
      }
    }

    method MarkVerified(sessionId: SessionId)
      modifies db`tracks
      ensures db.tracks == VerifiedTracks(old(db.tracks), sessionId)
    {
      for k := 0 to |db.tracks|
        invariant |db.tracks| == |old(db.tracks)|
        invariant forall j | 0 <= j < k :: db.tracks[j] == VerifiedTracks(old(db.tracks), sessionId)[j]
        invariant forall j | k <= j < |db.tracks| :: db.tracks[j] == old(db.tracks)[j]
      {
        if db.tracks[k].sessionId == sessionId {
          db.tracks := db.tracks[k := db.tracks[k].(verified := true)];
        }
      }
    }

    method Complete(sessionId: SessionId, pages: seq<Page>)
      returns (error: Option<ApiError>, ghost sizes: map<string, nat>)
      requires exists p :: 0 <= p < |pages| && !pages[p].truncated
      modifies db`sessions, db`tracks
      ensures exists p ::
        0 <= p < |pages| && sizes == Listed(pages[..p + 1]) && !pages[p].truncated
        && forall q | 0 <= q < p :: pages[q].truncated
      ensures Outcome(Snapshot(), error) == CompleteUpload(old(Snapshot()), sessionId, sizes)
    {
      var listed := ListSizes(pages);
      sizes := listed;
      if sessionId !in db.sessions {
        return Some(NotFound), sizes;
      }
      var session := db.sessions[sessionId];
      var stored := DocumentsOf(db.manifests, sessionId);
      if |stored| == 0 {
        return Some(BadRequest), sizes;
      }
      var prefix := session.s3Prefix.GetOr("");
      var expected := ExpectedKeys(prefix, stored);
      assert prefix + "/manifest.json" in expected;
      var verified, missing := VerifySession(listed, expected);
      if !verified {
        return Some(BadRequest), sizes;
      }
      if !IsLegalTransition(session.state, Stored) {
        return Some(BadRequest), sizes;
      }
      db.sessions := db.sessions[sessionId := session.(state := Stored)];

      MarkVerified(sessionId);
      return None, sizes;
    }
  }
}

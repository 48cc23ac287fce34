/**
 * The media stage of the optimized pipeline (`space_news_pipeline_optimized.py`):
 * per-segment media acquisition with the cache-first path, the fallback
 * search, download, rendering and the fallback image; the loop over all
 * segments; the summary-length clamp and the plain-text fallback script;
 * the cleanup of temporary files; and the status sequence of a render job.
 *
 * ffmpeg, downloads, the file system and the other stages are effects whose
 * outcomes are parameters: an `Effects` value says which paths exist,
 * which renders complete, what a download yields.
 */
module Pipeline {
  import opened Wrappers
  import opened Strings
  import opened Records
  import Database
  import ApiManager
  import ResourceManager
  import GpuDetector

  // ---------------------------------------------------------------------
  // Pure helpers of the segment stage
  // ---------------------------------------------------------------------

  /** Python's `int()` on a float: truncation toward zero. */
  function Trunc(x: real): (n: int)
    ensures x >= 0.0 ==> n as real <= x < n as real + 1.0
    ensures x < 0.0 ==> n as real - 1.0 < x <= n as real
  {
    if x >= 0.0 then x.Floor else -((-x).Floor)
  }

  /** A segment longer than 15 whole seconds prefers video sources. */
  predicate PreferVideo(duration: int)
  {
    duration > 15
  }

  /** `url.endswith(".gif") or url.endswith(".mp4")`: the transcode path. */
  predicate IsVideoUrl(url: string)
  {
    EndsWith(url, ".gif") || EndsWith(url, ".mp4")
  }

  /** The cached `media_type`: `url.endswith((".mp4", ".gif"))`. */
  function MediaType(url: string): string
  {
    if EndsWith(url, ".mp4") || EndsWith(url, ".gif") then "video" else "image"
  }

  /** The cached media type says "video" exactly when the URL took the
      transcode path; the test is case-sensitive. */
  lemma MediaTypeAgreesWithPath(url: string)
    ensures MediaType(url) == "video" <==> IsVideoUrl(url)
    ensures MediaType(url) == "image" <==> !IsVideoUrl(url)
    ensures !IsVideoUrl("clip.MP4")
  {
    assert "clip.MP4"[|"clip.MP4"| - 4..] == ".MP4";
  }

  /** The provider names of source attribution, in the order tried. */
  const AttributionOrder: seq<string> := ["nasa", "pexels", "pixabay", "unsplash", "giphy"]

  /** The cached `source` of a URL: the first provider name that occurs in
      the lower-cased URL, or "unknown". */
  method AttributeSource(url: string) returns (source: string)
    ensures source == SourceOf(url)
    ensures source == "unknown" <==> forall j :: 0 <= j < |AttributionOrder| ==> !Contains(Lower(url), AttributionOrder[j])
    ensures source != "unknown" ==>
      exists k :: 0 <= k < |AttributionOrder| && AttributionOrder[k] == source && Contains(Lower(url), source)
                  && forall j :: 0 <= j < k ==> !Contains(Lower(url), AttributionOrder[j])
  {
    var lower := Lower(url);
    source := "unknown";
    var k := 0;
    while k < |AttributionOrder|
      invariant 0 <= k <= |AttributionOrder|
      invariant source == "unknown"
      invariant forall j :: 0 <= j < k ==> !Contains(lower, AttributionOrder[j])
      invariant FirstNamed(lower, AttributionOrder[k..]) == SourceOf(url)
    {
      assert AttributionOrder[k..][0] == AttributionOrder[k] && AttributionOrder[k..][1..] == AttributionOrder[k + 1..];
      if Contains(lower, AttributionOrder[k]) {
        source := AttributionOrder[k];
        return;
      }
      k := k + 1;
    }
  }

  /** The first of `names` that occurs in `lower`, or "unknown". */
  function FirstNamed(lower: string, names: seq<string>): string
  {
    if names == [] then "unknown"
    else if Contains(lower, names[0]) then names[0]
    else FirstNamed(lower, names[1..])
  }

  /** The `source` recorded for a downloaded URL. */
  function SourceOf(url: string): string
  {
    FirstNamed(Lower(url), AttributionOrder)
  }

  /** `FirstNamed` is "unknown" exactly when no name occurs, and otherwise
      the earliest name that occurs. */
  lemma {:induction false} FirstNamedSpec(lower: string, names: seq<string>)
    requires forall j :: 0 <= j < |names| ==> names[j] != "unknown"
    ensures var s := FirstNamed(lower, names);
      && (s == "unknown" <==> forall j :: 0 <= j < |names| ==> !Contains(lower, names[j]))
      && (s != "unknown" ==>
            exists k :: 0 <= k < |names| && names[k] == s && Contains(lower, s)
                        && forall j :: 0 <= j < k ==> !Contains(lower, names[j]))
  {
    if names != [] && !Contains(lower, names[0]) {
      var rest := names[1..];
      FirstNamedSpec(lower, rest);
      assert forall j :: 0 < j < |names| ==> names[j] == rest[j - 1];
      if FirstNamed(lower, rest) != "unknown" {
        var k :| 0 <= k < |rest| && rest[k] == FirstNamed(lower, rest) && Contains(lower, rest[k])
                 && forall j :: 0 <= j < k ==> !Contains(lower, rest[j]);
        assert names[k + 1] == rest[k];
      }
    }
  }

  /** The source recorded for a URL is "unknown" exactly when no provider
      name occurs in the lower-cased URL, and otherwise the first name of
      `AttributionOrder` that does. */
  lemma SourceOfSpec(url: string)
    ensures SourceOf(url) == "unknown" <==> forall j :: 0 <= j < |AttributionOrder| ==> !Contains(Lower(url), AttributionOrder[j])
    ensures SourceOf(url) != "unknown" ==>
      exists k :: 0 <= k < |AttributionOrder| && AttributionOrder[k] == SourceOf(url) && Contains(Lower(url), SourceOf(url))
                  && forall j :: 0 <= j < k ==> !Contains(Lower(url), AttributionOrder[j])
  {
    FirstNamedSpec(Lower(url), AttributionOrder);
  }

  /** `os.path.join(a, b)` for POSIX paths. */
  function PathJoin(a: string, b: string): (p: string)
    ensures b != [] && b[0] == '/' ==> p == b
    ensures !(b != [] && b[0] == '/') ==> a <= p && EndsWith(p, b)
  {
    if b != [] && b[0] == '/' then b
    else if a == [] || a[|a| - 1] == '/' then a + b
    else a + "/" + b
  }

  function ClipPath(outputDir: string, i: nat): string { PathJoin(outputDir, "clip" + NatToString(i) + ".mp4") }
  function TempPath(outputDir: string, i: nat): string { PathJoin(outputDir, "temp" + NatToString(i) + ".dat") }
  function FallbackPath(outputDir: string, i: nat): string { PathJoin(outputDir, "fallback" + NatToString(i) + ".png") }

  // ---------------------------------------------------------------------
  // One segment
  // ---------------------------------------------------------------------

  /** A transcript segment: its start and end in seconds and its text. */
  datatype Segment = Segment(start: real, end: real, text: string)

  /** The outside world of one segment. `render(path)`: the ffmpeg run of
      the Ken Burns render of the still at `path` completes; `transcode(path)`: the
      ffmpeg transcode of the downloaded file completes; `download(url)`:
      the content hash of the downloaded file, or `None` when the download
      raised. */
  datatype Effects = Effects(
    pathExists: string -> bool,
    render: string -> bool,
    transcode: string -> bool,
    download: string -> Option<string>,
    fileSize: string -> nat)

  /** What the clip of a segment was made from. */
  datatype Clip = FromCache(localPath: string) | Downloaded(url: string, video: bool) | FallbackImage

  /** `process_segment` returns `True`, or a render of the fallback image
      raises out of it. */
  datatype SegmentResult = Done(clip: Clip) | Raised

  /** The configuration `process_segment` reads, with the detected GPU
      profile. */
  datatype SegmentConfig = SegmentConfig(mediaCacheEnabled: bool, outputDir: string, resolution: string,
                                         gpu: GpuDetector.GpuInfo)

  /** `apply_ken_burns` on the still at `path` completes: it asks for the
      scale filter of the configured resolution first, on either branch,
      and then runs ffmpeg. */
  predicate KenBurns(fx: Effects, cfg: SegmentConfig, path: string)
  {
    GpuDetector.ScaleFilter(cfg.gpu, cfg.resolution).Some? && fx.render(path)
  }

  /** The downloaded media of `url` rendered: a video URL by the transcode,
      which first needs a scale filter for the configured resolution; any
      other URL by the Ken Burns effect. */
  predicate RenderedDownload(fx: Effects, cfg: SegmentConfig, i: nat, url: string)
  {
    fx.download(url).Some? &&
    if IsVideoUrl(url) then
      GpuDetector.ScaleFilter(cfg.gpu, cfg.resolution).Some? && fx.transcode(TempPath(cfg.outputDir, i))
    else KenBurns(fx, cfg, TempPath(cfg.outputDir, i))
  }

  /** The cache lookup served the segment: a hit whose local file exists
      and renders. */
  predicate ServedFromCache(rows: seq<Database.MediaEntry>, cfg: SegmentConfig, seg: Segment, fx: Effects, now: int)
  {
    var hit := Database.LookupMedia(rows, seg.text, None, now);
    cfg.mediaCacheEnabled && hit.Some? && fx.pathExists(hit.value.localPath) && KenBurns(fx, cfg, hit.value.localPath)
  }

  /** What the effects say about a result of segment `i`: it raised only
      when the fallback still failed to render, and a downloaded clip is
      one whose download and render succeeded. */
  predicate ResultAccountedFor(fx: Effects, cfg: SegmentConfig, i: nat, r: SegmentResult)
  {
    && (r.Raised? ==> !KenBurns(fx, cfg, FallbackPath(cfg.outputDir, i)))
    && (r.Done? && r.clip.Downloaded? ==> RenderedDownload(fx, cfg, i, r.clip.url))
  }

  /** The row `save_media_cache` inserts, as row `id` at time `clock`, for
      the download of segment `i` from `url` with content hash `h`. */
  function SavedRow(id: nat, query: string, url: string, h: string, cfg: SegmentConfig, i: nat, fx: Effects,
                    clock: int): Database.MediaEntry
  {
    Database.MediaEntry(id, Database.NormalizeQuery(query), SourceOf(url), url, TempPath(cfg.outputDir, i), h,
                        MediaType(url), Some(cfg.resolution), fx.fileSize(TempPath(cfg.outputDir, i)),
                        Database.DefaultQualityScore, 0, None, clock + Database.CacheRetentionMs)
  }

  /** The media cache after the download of segment `i` from `url` is
      saved: unchanged when its content hash is cached already, otherwise
      with the new row appended as row `nextId`. */
  function CacheAfterSave(rows: seq<Database.MediaEntry>, nextId: nat, query: string, url: string, cfg: SegmentConfig,
                          i: nat, fx: Effects, clock: int): seq<Database.MediaEntry>
    requires fx.download(url).Some?
  {
    var h := fx.download(url).value;
    if Database.FindByHash(rows, h).Some? then rows else rows + [SavedRow(nextId, query, url, h, cfg, i, fx, clock)]
  }

  /** The media cache after segment `i` ended with `r`, from the cache
      `rows` its lookups left: the download saved at time `clock` when `r`
      is a downloaded clip and caching is enabled, else `rows` itself. */
  function CacheAfterResult(rows: seq<Database.MediaEntry>, nextId: nat, query: string, cfg: SegmentConfig, i: nat,
                            fx: Effects, clock: int, r: SegmentResult): seq<Database.MediaEntry>
  {
    if r.Done? && r.clip.Downloaded? && cfg.mediaCacheEnabled && fx.download(r.clip.url).Some?
    then CacheAfterSave(rows, nextId, query, r.clip.url, cfg, i, fx, clock)
    else rows
  }

  /** The saved row describes the download: it is found again by its own
      query until it expires in 30 days, its media type is "video" exactly
      when the URL took the transcode path, and its source is "unknown" or
      the first provider name in the lower-cased URL. */
  lemma SavedRowDescribesDownload(id: nat, query: string, url: string, h: string, cfg: SegmentConfig, i: nat,
                                  fx: Effects, clock: int)
    ensures var e := SavedRow(id, query, url, h, cfg, i, fx, clock);
      && Database.MatchesLookup(e, Database.NormalizeQuery(query), None, clock)
      && Database.NormalizeQuery(e.query) == e.query
      && e.expiresAt == clock + 30 * Database.MsPerDay
      && (e.mediaType == "video" <==> IsVideoUrl(url))
      && (e.source == "unknown" <==> forall j :: 0 <= j < |AttributionOrder| ==> !Contains(Lower(url), AttributionOrder[j]))
      && (e.source != "unknown" ==>
            exists k :: 0 <= k < |AttributionOrder| && AttributionOrder[k] == e.source && Contains(Lower(url), e.source)
                        && forall j :: 0 <= j < k ==> !Contains(Lower(url), AttributionOrder[j]))
  {
    Database.NormalizeQueryIdempotent(query);
    MediaTypeAgreesWithPath(url);
    SourceOfSpec(url);
  }

  /** Saving keeps every old row in place and the keys distinct; it adds
      one row exactly when the content hash is new, and then the query is
      served from the cache at the time of saving. */
  lemma CacheAfterSaveSpec(rows: seq<Database.MediaEntry>, nextId: nat, query: string, url: string, cfg: SegmentConfig,
                           i: nat, fx: Effects, clock: int)
    requires Database.KeysDistinct(rows, nextId) && fx.download(url).Some?
    ensures var rows' := CacheAfterSave(rows, nextId, query, url, cfg, i, fx, clock);
      && rows <= rows' && |rows'| <= |rows| + 1
      && Database.KeysDistinct(rows', nextId + (|rows'| - |rows|))
      && (|rows'| == |rows| <==> exists e :: e in rows && e.fileHash == fx.download(url).value)
      && (exists e :: e in rows' && e.fileHash == fx.download(url).value)
      && (|rows'| != |rows| ==> Database.LookupMedia(rows', query, None, clock).Some?)
  {
    var h := fx.download(url).value;
    var rows' := CacheAfterSave(rows, nextId, query, url, cfg, i, fx, clock);
    if Database.FindByHash(rows, h).None? {
      var e := SavedRow(nextId, query, url, h, cfg, i, fx, clock);
      Database.InsertKeepsKeysDistinct(rows, nextId, e);
      SavedRowDescribesDownload(nextId, query, url, h, cfg, i, fx, clock);
      assert rows'[|rows|] == e;
    }
  }

  /** The download branch of `process_segment` for a non-empty `url`:
      download to the temporary file, transcode or render it, and on
      success record it in the media cache when caching is enabled. */
  method AcquireDownload(db: Database.Store, i: nat, query: string, url: string, cfg: SegmentConfig,
                         fx: Effects, now: int)
    returns (ok: bool)
    requires db.Valid()
    modifies db
    ensures db.Valid()
    ensures ok == RenderedDownload(fx, cfg, i, url)
    ensures ok && cfg.mediaCacheEnabled ==> exists e :: e in db.mediaCache && e.fileHash == fx.download(url).value
    ensures !(ok && cfg.mediaCacheEnabled) ==> db.mediaCache == old(db.mediaCache)
    ensures ok && cfg.mediaCacheEnabled ==>
      db.mediaCache == CacheAfterSave(old(db.mediaCache), old(db.nextMediaId), query, url, cfg, i, fx, now)
    ensures |db.mediaCache| <= |old(db.mediaCache)| + 1
    ensures db.nextMediaId == old(db.nextMediaId) + (|db.mediaCache| - |old(db.mediaCache)|)
    ensures db.renderJobs == old(db.renderJobs) && db.nextJobId == old(db.nextJobId) && db.apiCalls == old(db.apiCalls)
  {
    var tempFile := TempPath(cfg.outputDir, i);
    var fileHash := fx.download(url);
    if fileHash.None? {
      return false;
    }
    if IsVideoUrl(url) {
      var filter := GpuDetector.ScaleFilter(cfg.gpu, cfg.resolution);
      ok := filter.Some? && fx.transcode(tempFile);
    } else {
      ok := KenBurns(fx, cfg, tempFile);
    }
    if ok && cfg.mediaCacheEnabled {
      var source := AttributeSource(url);
      var _ := db.SaveMediaCache(query, source, url, tempFile, fileHash.value, MediaType(url),
                                 Some(cfg.resolution), fx.fileSize(tempFile), Database.DefaultQualityScore, now);
      ghost var found := Database.FindByHash(old(db.mediaCache), fileHash.value);
      if found.Some? {
        assert found.value in db.mediaCache;
      } else {
        assert db.mediaCache[|db.mediaCache| - 1] in db.mediaCache;
      }
    }
  }

  /** The cache-first path of `process_segment`: the local path of a
      cache hit whose file exists and renders. The lookup records the hit
      whether or not it is then used. */
  method CachedClip(db: Database.Store, seg: Segment, cfg: SegmentConfig, fx: Effects, now: int)
    returns (served: Option<string>)
    requires db.Valid()
    modifies db
    ensures db.Valid()
    ensures var hit := Database.LookupMedia(old(db.mediaCache), seg.text, None, now);
      && (served.Some? <==> ServedFromCache(old(db.mediaCache), cfg, seg, fx, now))
      && (served.Some? ==> served.value == hit.value.localPath)
      && (cfg.mediaCacheEnabled && hit.Some? ==>
            && db.mediaCache == Database.Bump(old(db.mediaCache), hit.value, now)
            && Database.LookupMedia(db.mediaCache, seg.text, None, now) == Some(Database.Bumped(hit.value, now)))
      && (!(cfg.mediaCacheEnabled && hit.Some?) ==> db.mediaCache == old(db.mediaCache))
    ensures db.apiCalls == old(db.apiCalls) && db.nextMediaId == old(db.nextMediaId)
    ensures db.renderJobs == old(db.renderJobs) && db.nextJobId == old(db.nextJobId)
  {
    served := None;
    if cfg.mediaCacheEnabled {
      if Database.LookupMedia(db.mediaCache, seg.text, None, now).Some? {
        Database.LookupAfterBump(db.mediaCache, db.nextMediaId, seg.text, None, now);
      }
      var cached := db.GetCachedMedia(seg.text, None, now);
      if cached.Some? && fx.pathExists(cached.value.localPath) && KenBurns(fx, cfg, cached.value.localPath) {
        served := Some(cached.value.localPath);
      }
    }
  }

  /** The media cache after the lookups of `process_segment` for `query`:
      the search's lookup always, and the cache-first lookup before it
      when `twice`. */
  function LookedUp(rows: seq<Database.MediaEntry>, query: string, twice: bool, now: int): seq<Database.MediaEntry>
  {
    var once := Database.Touched(rows, query, None, now);
    if twice then Database.Touched(once, query, None, now) else once
  }

  /** The provider loop of `search_with_fallback` left `url`, the call log
      `log` and the breaker state `st` when run on the cache miss from log
      `log0` and breaker state `st0`: the sources of `SearchOrder(preferVideo)`
      tried in turn, as `ApiManager.Fallback` says. */
  predicate SearchedProviders(url: Option<string>, log: seq<Database.CallRecord>, st: ApiManager.BreakerState,
                              preferVideo: bool, query: string, provider: (string, string, nat) -> ApiManager.Attempt,
                              threshold: int, timeoutSec: int, log0: seq<Database.CallRecord>,
                              st0: ApiManager.BreakerState, now: int)
  {
    var run := ApiManager.Fallback(ApiManager.SearchOrder(preferVideo), query, provider, threshold, timeoutSec, st0, log0, now);
    url == run.url && log == run.log && st == run.breaker
  }

  /** The part of `process_segment` after the cache-first path: search the
      providers (the search looks the cache up again first), download and
      render the URL found, and fall back to a still. */
  method SearchAndFetch(api: ApiManager.APIManager, i: nat, query: string, preferVideo: bool, cfg: SegmentConfig,
                        provider: (string, string, nat) -> ApiManager.Attempt, fx: Effects, now: int)
    returns (r: SegmentResult, url: Option<string>)
    requires api.db.Valid()
    modifies api.db, api.breaker
    ensures api.db.Valid()
    ensures var hit := Database.LookupMedia(old(api.db.mediaCache), query, None, now);
      hit.Some? ==>
        && url == Some(hit.value.mediaUrl)
        && api.db.apiCalls == old(api.db.apiCalls) && api.breaker.State() == old(api.breaker.State())
        && (!(r.Done? && r.clip.Downloaded? && cfg.mediaCacheEnabled) ==>
              api.db.mediaCache == Database.Bump(old(api.db.mediaCache), hit.value, now))
    ensures Database.LookupMedia(old(api.db.mediaCache), query, None, now).None? ==>
      SearchedProviders(url, api.db.apiCalls, api.breaker.State(), preferVideo, query, provider,
                        api.breaker.failureThreshold, api.breaker.timeout, old(api.db.apiCalls), old(api.breaker.State()), now)
    ensures url.Some? && url.value != "" && RenderedDownload(fx, cfg, i, url.value) ==>
      r == Done(Downloaded(url.value, IsVideoUrl(url.value)))
    ensures !(url.Some? && url.value != "" && RenderedDownload(fx, cfg, i, url.value)) ==>
      r == (if KenBurns(fx, cfg, FallbackPath(cfg.outputDir, i)) then Done(FallbackImage) else Raised)
    ensures r.Done? && r.clip.Downloaded? && cfg.mediaCacheEnabled ==>
      exists e :: e in api.db.mediaCache && e.fileHash == fx.download(r.clip.url).value
    ensures |api.db.mediaCache| != |old(api.db.mediaCache)| ==> r.Done? && r.clip.Downloaded? && cfg.mediaCacheEnabled
    ensures |api.db.mediaCache| <= |old(api.db.mediaCache)| + 1
    ensures api.db.renderJobs == old(api.db.renderJobs) && api.db.nextJobId == old(api.db.nextJobId)
    ensures ResultAccountedFor(fx, cfg, i, r)
    ensures var run := ApiManager.Fallback(ApiManager.SearchOrder(preferVideo), query, provider, api.breaker.failureThreshold,
                                           api.breaker.timeout, old(api.breaker.State()), old(api.db.apiCalls), now);
      var clock := if Database.LookupMedia(old(api.db.mediaCache), query, None, now).Some? then now else run.clock;
      api.db.mediaCache ==
        CacheAfterResult(Database.Touched(old(api.db.mediaCache), query, None, now), old(api.db.nextMediaId), query, cfg, i, fx, clock, r)
    ensures api.db.nextMediaId == old(api.db.nextMediaId) + (|api.db.mediaCache| - |old(api.db.mediaCache)|)
  {
    ghost var rows := api.db.mediaCache;
    var clock;
    url, clock := api.SearchWithFallback(query, preferVideo, provider, now);
    assert |api.db.mediaCache| == |rows|;
    if url.Some? && url.value != "" {
      var ok := AcquireDownload(api.db, i, query, url.value, cfg, fx, clock);
      if ok {
        return Done(Downloaded(url.value, IsVideoUrl(url.value))), url;
      }
    }
    var fallbackImage := FallbackPath(cfg.outputDir, i);
    r := if KenBurns(fx, cfg, fallbackImage) then Done(FallbackImage) else Raised;
  }

  /** `process_segment` for segment `i`. Besides the result it returns
      whether the provider search ran and with which `prefer_video`, and
      the URL the search answered. */
  method ProcessSegment(api: ApiManager.APIManager, i: nat, seg: Segment, cfg: SegmentConfig,
                        provider: (string, string, nat) -> ApiManager.Attempt, fx: Effects, now: int)
    returns (r: SegmentResult, searched: Option<bool>, url: Option<string>)
    requires api.db.Valid()
    modifies api.db, api.breaker
    ensures api.db.Valid()
    ensures searched.None? <==> ServedFromCache(old(api.db.mediaCache), cfg, seg, fx, now)
    ensures searched.None? ==>
      && r == Done(FromCache(Database.LookupMedia(old(api.db.mediaCache), seg.text, None, now).value.localPath))
      && api.db.apiCalls == old(api.db.apiCalls) && api.breaker.State() == old(api.breaker.State())
    ensures searched.Some? ==> searched.value == PreferVideo(Trunc(seg.end - seg.start))
    ensures var hit := Database.LookupMedia(old(api.db.mediaCache), seg.text, None, now);
      hit.Some? && searched.Some? ==>
        && url == Some(hit.value.mediaUrl)
        && api.db.apiCalls == old(api.db.apiCalls) && api.breaker.State() == old(api.breaker.State())
        && (cfg.mediaCacheEnabled && !(r.Done? && r.clip.Downloaded?) ==>
              api.db.mediaCache == Database.Bump(Database.Bump(old(api.db.mediaCache), hit.value, now), Database.Bumped(hit.value, now), now))
        && (!cfg.mediaCacheEnabled ==> api.db.mediaCache == Database.Bump(old(api.db.mediaCache), hit.value, now))
    ensures Database.LookupMedia(old(api.db.mediaCache), seg.text, None, now).None? ==>
      && searched.Some?
      && SearchedProviders(url, api.db.apiCalls, api.breaker.State(), PreferVideo(Trunc(seg.end - seg.start)), seg.text, provider,
                           api.breaker.failureThreshold, api.breaker.timeout, old(api.db.apiCalls), old(api.breaker.State()), now)
    ensures searched.Some? && url.Some? && url.value != "" && RenderedDownload(fx, cfg, i, url.value) ==>
      r == Done(Downloaded(url.value, IsVideoUrl(url.value)))
    ensures searched.Some? && !(url.Some? && url.value != "" && RenderedDownload(fx, cfg, i, url.value)) ==>
      r == (if KenBurns(fx, cfg, FallbackPath(cfg.outputDir, i)) then Done(FallbackImage) else Raised)
    ensures r.Done? && r.clip.Downloaded? && cfg.mediaCacheEnabled ==>
      exists e :: e in api.db.mediaCache && e.fileHash == fx.download(r.clip.url).value
    ensures |api.db.mediaCache| != |old(api.db.mediaCache)| ==> r.Done? && r.clip.Downloaded? && cfg.mediaCacheEnabled
    ensures |api.db.mediaCache| <= |old(api.db.mediaCache)| + 1
    ensures api.db.renderJobs == old(api.db.renderJobs) && api.db.nextJobId == old(api.db.nextJobId)
    ensures ResultAccountedFor(fx, cfg, i, r)
    ensures var run := ApiManager.Fallback(ApiManager.SearchOrder(PreferVideo(Trunc(seg.end - seg.start))), seg.text, provider,
                                           api.breaker.failureThreshold, api.breaker.timeout, old(api.breaker.State()),
                                           old(api.db.apiCalls), now);
      var clock := if Database.LookupMedia(old(api.db.mediaCache), seg.text, None, now).Some? then now else run.clock;
      api.db.mediaCache ==
        CacheAfterResult(LookedUp(old(api.db.mediaCache), seg.text, cfg.mediaCacheEnabled && searched.Some?, now),
                         old(api.db.nextMediaId), seg.text, cfg, i, fx, clock, r)
    ensures api.db.nextMediaId == old(api.db.nextMediaId) + (|api.db.mediaCache| - |old(api.db.mediaCache)|)
    ensures ProcessedAs(SegmentStep(old(SnapshotOf(api)), SnapshotOf(api), searched, url), cfg, seg, i, provider,
                        api.breaker.failureThreshold, api.breaker.timeout, fx, now, r)
  {
    var duration := Trunc(seg.end - seg.start);
    ghost var rows := api.db.mediaCache;
    var served := CachedClip(api.db, seg, cfg, fx, now);
    assert api.db.mediaCache == if cfg.mediaCacheEnabled then Database.Touched(rows, seg.text, None, now) else rows;
    if served.Some? {
      return Done(FromCache(served.value)), None, None;
    }
    searched := Some(duration > 15);
    r, url := SearchAndFetch(api, i, seg.text, duration > 15, cfg, provider, fx, now);
  }

  /** The state one segment reads and changes: the media cache with its
      next row id, the API call log and the circuit breaker. */
  datatype Snapshot = Snapshot(mediaCache: seq<Database.MediaEntry>, nextMediaId: nat,
                               apiCalls: seq<Database.CallRecord>, breaker: ApiManager.BreakerState)

  /** The current snapshot of `api`. */
  ghost function SnapshotOf(api: ApiManager.APIManager): (s: Snapshot)
    reads api, api.db, api.breaker
    ensures s.mediaCache == api.db.mediaCache && s.nextMediaId == api.db.nextMediaId
    ensures s.apiCalls == api.db.apiCalls && s.breaker == api.breaker.State()
  {
    Snapshot(api.db.mediaCache, api.db.nextMediaId, api.db.apiCalls, api.breaker.State())
  }

  /** What processing one segment did: the snapshot before and after,
      whether the provider search ran and with which `prefer_video`, and
      the URL it answered. */
  datatype SegmentStep = SegmentStep(before: Snapshot, after: Snapshot, searched: Option<bool>, url: Option<string>)

  /** `r` is what `process_segment` gives for segment `i`, `seg`, from the
      state `step.before`, with the breaker's threshold and timeout: served
      from the cache exactly when the hit is usable, with that hit's local
      path and no API call; otherwise searched with `prefer_video` iff the
      duration exceeds 15 s; a cache hit answers its own URL without an API
      call (and is bumped twice, or once with caching off, unless a new
      download is saved); a miss runs the providers of that order as
      `ApiManager.Fallback` says; then the download when it renders, else the
      still, which alone can raise; the cache grows only by one saved
      download. */
  ghost predicate ProcessedAs(step: SegmentStep, cfg: SegmentConfig, seg: Segment, i: nat,
                              provider: (string, string, nat) -> ApiManager.Attempt, threshold: int, timeoutSec: int,
                              fx: Effects, now: int, r: SegmentResult)
  {
    var rows, rows' := step.before.mediaCache, step.after.mediaCache;
    var hit := Database.LookupMedia(rows, seg.text, None, now);
    var usable := step.searched.Some? && step.url.Some? && step.url.value != "" && RenderedDownload(fx, cfg, i, step.url.value);
    var quiet := step.after.apiCalls == step.before.apiCalls && step.after.breaker == step.before.breaker;
    var run := ApiManager.Fallback(ApiManager.SearchOrder(PreferVideo(Trunc(seg.end - seg.start))), seg.text, provider,
                                   threshold, timeoutSec, step.before.breaker, step.before.apiCalls, now);
    var clock := if hit.Some? then now else run.clock;
    && (step.searched.None? <==> ServedFromCache(rows, cfg, seg, fx, now))
    && (step.searched.None? ==> r == Done(FromCache(hit.value.localPath)) && quiet)
    && (step.searched.Some? ==> step.searched.value == PreferVideo(Trunc(seg.end - seg.start)))
    && (hit.Some? && step.searched.Some? ==>
          && step.url == Some(hit.value.mediaUrl)
          && quiet
          && (cfg.mediaCacheEnabled && !(r.Done? && r.clip.Downloaded?) ==>
                rows' == Database.Bump(Database.Bump(rows, hit.value, now), Database.Bumped(hit.value, now), now))
          && (!cfg.mediaCacheEnabled ==> rows' == Database.Bump(rows, hit.value, now)))
    && (hit.None? ==>
          && step.searched.Some?
          && SearchedProviders(step.url, step.after.apiCalls, step.after.breaker, PreferVideo(Trunc(seg.end - seg.start)),
                               seg.text, provider, threshold, timeoutSec, step.before.apiCalls, step.before.breaker, now))
    && (usable ==> r == Done(Downloaded(step.url.value, IsVideoUrl(step.url.value))))
    && (step.searched.Some? && !usable ==> r == (if KenBurns(fx, cfg, FallbackPath(cfg.outputDir, i)) then Done(FallbackImage) else Raised))
    && (r.Done? && r.clip.Downloaded? && cfg.mediaCacheEnabled ==>
          exists e :: e in rows' && e.fileHash == fx.download(r.clip.url).value)
    && (|rows'| != |rows| ==> r.Done? && r.clip.Downloaded? && cfg.mediaCacheEnabled)
    && |rows'| <= |rows| + 1
    && rows' == CacheAfterResult(LookedUp(rows, seg.text, cfg.mediaCacheEnabled && step.searched.Some?, now),
                                 step.before.nextMediaId, seg.text, cfg, i, fx, clock, r)
    && step.after.nextMediaId == step.before.nextMediaId + (|rows'| - |rows|)
  }

  /** A processed segment raised only when its still failed to render, and
      a downloaded clip is one whose download rendered. */
  lemma ProcessedAsIsAccountedFor(step: SegmentStep, cfg: SegmentConfig, seg: Segment, i: nat,
                                  provider: (string, string, nat) -> ApiManager.Attempt, threshold: int, timeoutSec: int,
                                  fx: Effects, now: int, r: SegmentResult)
    requires ProcessedAs(step, cfg, seg, i, provider, threshold, timeoutSec, fx, now, r)
    ensures ResultAccountedFor(fx, cfg, i, r)
  {
  }

  /** The steps of a run of segments follow each other: each starts from
      the state the previous one left, the first from `first`, and the last
      leaves `last`. */
  ghost predicate Chained(steps: seq<SegmentStep>, first: Snapshot, last: Snapshot)
  {
    && (steps == [] ==> first == last)
    && (steps != [] ==> steps[0].before == first && steps[|steps| - 1].after == last)
    && (forall k :: 0 <= k < |steps| - 1 ==> steps[k].after == steps[k + 1].before)
  }

  /** `generate_media_for_segments`, sequentially: segments 1..n are each
      processed once, in order, from the state the previous one left, and a
      segment that raises does not stop the others. The steps are ghost:
      they record what each call saw and did. */
  method GenerateMediaForSegments(api: ApiManager.APIManager, segments: seq<Segment>, cfg: SegmentConfig,
                                  provider: (string, string, nat) -> ApiManager.Attempt, fx: Effects, now: int)
    returns (results: seq<SegmentResult>, ghost steps: seq<SegmentStep>)
    requires api.db.Valid()
    modifies api.db, api.breaker
    ensures api.db.Valid()
    ensures |results| == |segments| && |steps| == |segments|
    ensures AllProcessed(steps, cfg, segments, provider, api.breaker.failureThreshold, api.breaker.timeout, fx, now, results)
    ensures Chained(steps, old(SnapshotOf(api)), SnapshotOf(api))
    ensures forall k :: 0 <= k < |segments| ==> ResultAccountedFor(fx, cfg, k + 1, results[k])
    ensures |api.db.mediaCache| <= |old(api.db.mediaCache)| + |segments|
    ensures api.db.renderJobs == old(api.db.renderJobs) && api.db.nextJobId == old(api.db.nextJobId)
  {
    results, steps := [], [];
    ghost var first := SnapshotOf(api);
    for k := 0 to |segments|
      invariant api.db.Valid()
      invariant |results| == k && |steps| == k
      invariant AllProcessed(steps, cfg, segments, provider, api.breaker.failureThreshold, api.breaker.timeout, fx, now, results)
      invariant Chained(steps, first, SnapshotOf(api))
      invariant |api.db.mediaCache| <= |old(api.db.mediaCache)| + k
      invariant api.db.renderJobs == old(api.db.renderJobs) && api.db.nextJobId == old(api.db.nextJobId)
    {
      var r;
      ghost var step;
      r, step := ProcessStep(api, segments, k, cfg, provider, fx, now);
      ChainedSnoc(steps, step, first, step.before);
      AllProcessedSnoc(steps, k, step, cfg, segments, provider, api.breaker.failureThreshold, api.breaker.timeout, fx, now,
                       results, r);
      results, steps := results + [r], steps + [step];
    }
    forall k | 0 <= k < |segments|
      ensures ResultAccountedFor(fx, cfg, k + 1, results[k])
    {
      ProcessedAsIsAccountedFor(steps[k], cfg, segments[k], k + 1, provider, api.breaker.failureThreshold,
                                api.breaker.timeout, fx, now, results[k]);
    }
  }

  /** The call of `process_segment` for segment `k + 1`, with the step it
      took recorded: from the state of the call to the state it leaves. */
  method ProcessStep(api: ApiManager.APIManager, segments: seq<Segment>, k: nat, cfg: SegmentConfig,
                     provider: (string, string, nat) -> ApiManager.Attempt, fx: Effects, now: int)
    returns (r: SegmentResult, ghost step: SegmentStep)
    requires api.db.Valid() && k < |segments|
    modifies api.db, api.breaker
    ensures api.db.Valid()
    ensures step.before == old(SnapshotOf(api)) && step.after == SnapshotOf(api)
    ensures ProcessedAs(step, cfg, segments[k], k + 1, provider, api.breaker.failureThreshold, api.breaker.timeout, fx, now, r)
    ensures |api.db.mediaCache| <= |old(api.db.mediaCache)| + 1
    ensures api.db.renderJobs == old(api.db.renderJobs) && api.db.nextJobId == old(api.db.nextJobId)
  {
    ghost var before := SnapshotOf(api);
    var i := k + 1;
    var searched, url;
    r, searched, url := ProcessSegment(api, i, segments[k], cfg, provider, fx, now);
    step := SegmentStep(before, SnapshotOf(api), searched, url);
  }

  /** The first `|steps|` segments were processed, segment `k + 1` as
      `steps[k]` with result `results[k]`. */
  ghost predicate AllProcessed(steps: seq<SegmentStep>, cfg: SegmentConfig, segments: seq<Segment>,
                               provider: (string, string, nat) -> ApiManager.Attempt, threshold: int, timeoutSec: int,
                               fx: Effects, now: int, results: seq<SegmentResult>)
  {
    && |steps| == |results| <= |segments|
    && forall k :: 0 <= k < |steps| ==>
         ProcessedAs(steps[k], cfg, segments[k], k + 1, provider, threshold, timeoutSec, fx, now, results[k])
  }

  /** Appending the next segment's step and result. */
  lemma AllProcessedSnoc(steps: seq<SegmentStep>, n: nat, step: SegmentStep, cfg: SegmentConfig, segments: seq<Segment>,
                         provider: (string, string, nat) -> ApiManager.Attempt, threshold: int, timeoutSec: int,
                         fx: Effects, now: int, results: seq<SegmentResult>, r: SegmentResult)
    requires AllProcessed(steps, cfg, segments, provider, threshold, timeoutSec, fx, now, results) && n == |steps| < |segments|
    requires ProcessedAs(step, cfg, segments[n], n + 1, provider, threshold, timeoutSec, fx, now, r)
    ensures AllProcessed(steps + [step], cfg, segments, provider, threshold, timeoutSec, fx, now, results + [r])
  {
    forall k | 0 <= k < n + 1
      ensures ProcessedAs((steps + [step])[k], cfg, segments[k], k + 1, provider, threshold, timeoutSec, fx, now, (results + [r])[k])
    {
      if k < n {
        assert (steps + [step])[k] == steps[k] && (results + [r])[k] == results[k];
      } else {
        assert (steps + [step])[k] == step && (results + [r])[k] == r;
      }
    }
  }

  /** Appending a step that starts where the run ended. */
  lemma ChainedSnoc(steps: seq<SegmentStep>, step: SegmentStep, first: Snapshot, last: Snapshot)
    requires Chained(steps, first, last) && step.before == last
    ensures Chained(steps + [step], first, step.after)
  {
    var all := steps + [step];
    assert forall k :: 0 <= k < |steps| ==> all[k] == steps[k];
  }

  // ---------------------------------------------------------------------
  // Script fallbacks
  // ---------------------------------------------------------------------

  /** The `max_length` passed to the summariser for `inputLen` words:
      60% of the input, clamped to [150, 600]. */
  function MaxSummaryLength(inputLen: nat): (n: int)
    ensures 150 <= n <= 600
    ensures 250 <= inputLen <= 1000 ==> n == inputLen * 3 / 5
  {
    ResourceManager.Min(600, ResourceManager.Max(150, inputLen * 3 / 5))
  }

  const ScriptHeader: string := "Welcome to Space News!\n\n"
  const ScriptFooter: string := "That's all for now in space news!"

  /** `f"Story {i}: {article}\n\n"` */
  function StoryBlock(i: nat, article: string): string
  {
    "Story " + NatToString(i) + ": " + article + "\n\n"
  }

  /** The story blocks of `articles`, numbered from `first`. */
  function Stories(articles: seq<string>, first: nat): string
    decreases |articles|
  {
    if articles == [] then "" else StoryBlock(first, articles[0]) + Stories(articles[1..], first + 1)
  }

  /** The stories of a non-empty run: the first block, then the rest. */
  lemma StoriesCons(articles: seq<string>, first: nat)
    requires articles != []
    ensures Stories(articles, first) == StoryBlock(first, articles[0]) + Stories(articles[1..], first + 1)
  {
  }

  lemma ConcatAssoc(a: string, b: string, c: string)
    ensures a + (b + c) == (a + b) + c
  {
  }

  /** The blocks of two runs of articles are the blocks of each, the
      second numbered on from the first. */
  lemma {:induction false} StoriesAppend(xs: seq<string>, ys: seq<string>, first: nat)
    ensures Stories(xs + ys, first) == Stories(xs, first) + Stories(ys, first + |xs|)
    decreases |xs|
  {
    if xs == [] {
      assert xs + ys == ys;
    } else {
      assert (xs + ys)[0] == xs[0];
      assert (xs + ys)[1..] == xs[1..] + ys;
      StoriesAppend(xs[1..], ys, first + 1);
      StoriesCons(xs + ys, first);
      StoriesCons(xs, first);
      ConcatAssoc(StoryBlock(first, xs[0]), Stories(xs[1..], first + 1), Stories(ys, first + |xs|));
    }
  }

  /** The story of article `k` (numbered `k + 1`) sits between the stories
      before it and those after it: all stories appear, in order. */
  lemma StoriesInOrder(articles: seq<string>, k: nat)
    requires k < |articles|
    ensures Stories(articles, 1) ==
      Stories(articles[..k], 1) + StoryBlock(k + 1, articles[k]) + Stories(articles[k + 1..], k + 2)
  {
    assert articles == articles[..k] + articles[k..];
    StoriesAppend(articles[..k], articles[k..], 1);
    assert articles[k..][1..] == articles[k + 1..];
  }

  /** The fallback script of `articles`: the header, one story per article
      numbered from 1, the sign-off. */
  function FallbackScriptText(articles: seq<string>): string
  {
    ScriptHeader + Stories(articles, 1) + ScriptFooter
  }

  /** The fallback script opens with the greeting and closes with the
      sign-off, and holds exactly one block per article in between. */
  lemma FallbackScriptFrame(articles: seq<string>)
    ensures ScriptHeader <= FallbackScriptText(articles)
    ensures EndsWith(FallbackScriptText(articles), ScriptFooter)
    ensures articles == [] ==> FallbackScriptText(articles) == ScriptHeader + ScriptFooter
  {
    var t := FallbackScriptText(articles);
    assert t[..|ScriptHeader|] == ScriptHeader;
    assert t[|t| - |ScriptFooter|..] == ScriptFooter;
  }

  /** Appending the story of one more article. */
  lemma StoriesSnoc(articles: seq<string>, k: nat)
    requires k < |articles|
    ensures Stories(articles[..k + 1], 1) == Stories(articles[..k], 1) + StoryBlock(k + 1, articles[k])
  {
    assert articles[..k + 1] == articles[..k] + [articles[k]];
    StoriesAppend(articles[..k], [articles[k]], 1);
    assert [articles[k]][1..] == [];
  }

  /** `_fallback_script`: the script built by appending one story per
      article. */
  method FallbackScript(articles: seq<string>) returns (script: string)
    ensures script == FallbackScriptText(articles)
  {
    script := ScriptHeader;
    for k := 0 to |articles|
      invariant script == ScriptHeader + Stories(articles[..k], 1)
    {
      StoriesSnoc(articles, k);
      script := script + StoryBlock(k + 1, articles[k]);
    }
    assert articles[..|articles|] == articles;
    script := script + ScriptFooter;
  }

  // ---------------------------------------------------------------------
  // Cleanup
  // ---------------------------------------------------------------------

  /** `cleanup_media` removes `path` when it is a regular file outside the
      keep set that is not a video, or is a segment clip. */
  predicate ShouldDelete(path: string, isFile: bool, keep: set<string>, outputDir: string)
  {
    path !in keep && isFile && (!EndsWith(path, ".mp4") || PathJoin(outputDir, "clip") <= path)
  }

  /** Kept files and videos other than segment clips always survive;
      temporary downloads, fallback stills and segment clips that are
      regular files outside the keep set are removed. */
  lemma CleanupKeepsOutputs(outputDir: string, keep: set<string>, path: string, i: nat)
    ensures path in keep ==> !ShouldDelete(path, true, keep, outputDir)
    ensures EndsWith(path, ".mp4") && !(PathJoin(outputDir, "clip") <= path) ==> !ShouldDelete(path, true, keep, outputDir)
    ensures ClipPath(outputDir, i) !in keep ==> ShouldDelete(ClipPath(outputDir, i), true, keep, outputDir)
  {
    var name := "clip" + NatToString(i) + ".mp4";
    assert "clip" <= name;
    if outputDir == [] || outputDir[|outputDir| - 1] == '/' {
      assert PathJoin(outputDir, "clip") == outputDir + "clip";
    } else {
      assert PathJoin(outputDir, "clip") == outputDir + "/" + "clip";
      assert ClipPath(outputDir, i) == outputDir + "/" + name;
    }
  }

  /** The temporary download of segment `i`, which the media cache records
      as the row's local path, and its fallback still are both removed by
      the cleanup unless kept: a later run finds the cached row but not its
      file. */
  lemma CleanupRemovesDownloads(outputDir: string, keep: set<string>, i: nat)
    ensures TempPath(outputDir, i) !in keep ==> ShouldDelete(TempPath(outputDir, i), true, keep, outputDir)
    ensures FallbackPath(outputDir, i) !in keep ==> ShouldDelete(FallbackPath(outputDir, i), true, keep, outputDir)
  {
    var t := TempPath(outputDir, i);
    var tn := "temp" + NatToString(i) + ".dat";
    assert tn[|tn| - 4..] == ".dat";
    assert t[|t| - 4..] == tn[|tn| - 4..];
    var f := FallbackPath(outputDir, i);
    var fn := "fallback" + NatToString(i) + ".png";
    assert fn[|fn| - 4..] == ".png";
    assert f[|f| - 4..] == fn[|fn| - 4..];
  }

  /** The paths `cleanup_media` removes, in listing order. */
  function Removals(outputDir: string, listing: seq<string>, isFile: string -> bool, keep: set<string>): seq<string>
    decreases |listing|
  {
    if listing == [] then []
    else
      var rest := Removals(outputDir, listing[..|listing| - 1], isFile, keep);
      var p := PathJoin(outputDir, listing[|listing| - 1]);
      if ShouldDelete(p, isFile(p), keep, outputDir) then rest + [p] else rest
  }

  /** A path is removed exactly when it joins the output directory with a
      listed name and should be deleted; at most one path per name. */
  lemma {:induction false} RemovalsSpec(outputDir: string, listing: seq<string>, isFile: string -> bool, keep: set<string>)
    ensures var r := Removals(outputDir, listing, isFile, keep);
      && |r| <= |listing|
      && forall p :: p in r <==>
           exists f :: f in listing && p == PathJoin(outputDir, f) && ShouldDelete(p, isFile(p), keep, outputDir)
    decreases |listing|
  {
    if listing != [] {
      var init := listing[..|listing| - 1];
      var last := listing[|listing| - 1];
      RemovalsSpec(outputDir, init, isFile, keep);
      assert listing == init + [last];
      var r := Removals(outputDir, listing, isFile, keep);
      forall p | p in r
        ensures exists f :: f in listing && p == PathJoin(outputDir, f) && ShouldDelete(p, isFile(p), keep, outputDir)
      {
        if p in Removals(outputDir, init, isFile, keep) {
          var f :| f in init && p == PathJoin(outputDir, f) && ShouldDelete(p, isFile(p), keep, outputDir);
          assert f in listing;
        } else {
          assert last in listing;
        }
      }
      forall p | exists f :: f in listing && p == PathJoin(outputDir, f) && ShouldDelete(p, isFile(p), keep, outputDir)
        ensures p in r
      {
        var f :| f in listing && p == PathJoin(outputDir, f) && ShouldDelete(p, isFile(p), keep, outputDir);
        if f in init {
          assert p in Removals(outputDir, init, isFile, keep);
        } else {
          assert f == last;
        }
      }
    }
  }

  /** `cleanup_media` over the directory listing; `isFile` is
      `os.path.isfile`. Returns the paths it removes, in listing order (a
      failed removal is ignored by the source). */
  method CleanupMedia(outputDir: string, listing: seq<string>, isFile: string -> bool, keep: set<string>)
    returns (removed: seq<string>)
    ensures removed == Removals(outputDir, listing, isFile, keep)
  {
    removed := [];
    for k := 0 to |listing|
      invariant removed == Removals(outputDir, listing[..k], isFile, keep)
    {
      assert listing[..k + 1][..k] == listing[..k];
      var path := PathJoin(outputDir, listing[k]);
      if path !in keep && isFile(path) {
        if !EndsWith(path, ".mp4") || PathJoin(outputDir, "clip") <= path {
          removed := removed + [path];
        }
      }
    }
    assert listing[..|listing|] == listing;
  }

  // ---------------------------------------------------------------------
  // The render job of a run
  // ---------------------------------------------------------------------

  /** The `current_step` values of the try block, in order. */
  const JobSteps: seq<string> := [
    "fetching_news", "generating_script", "generating_narration", "transcribing",
    "processing_media", "building_video", "cleanup"]

  /** How a run ends: stopped by the disk check before any job exists,
      completed, or failed with the exception that is re-raised. */
  datatype RunOutcome = InsufficientDiskSpace | Completed(jobId: nat) | Failed(jobId: nat, error: string)

  /** The first step in `[k, |JobSteps|)` that raises, or `|JobSteps|`. */
  function FirstFailingStep(stageError: nat -> Option<string>, k: nat): (j: nat)
    requires k <= |JobSteps|
    ensures k <= j <= |JobSteps|
    ensures forall s :: k <= s < j ==> stageError(s).None?
    ensures j < |JobSteps| ==> stageError(j).Some?
    decreases |JobSteps| - k
  {
    if k == |JobSteps| then k
    else if stageError(k).Some? then k
    else FirstFailingStep(stageError, k + 1)
  }

  /** The update written before running step `k`. */
  function StepUpdate(k: nat, totalSegments: nat): Record
    requires k < |JobSteps|
  {
    if k == 0 then map["status" := Str("processing"), "current_step" := Str(JobSteps[0])]
    else if k == 4 then map["total_segments" := Int(totalSegments), "current_step" := Str(JobSteps[4])]
    else map["current_step" := Str(JobSteps[k])]
  }

  function CompletedUpdate(elapsedSec: int, completedAt: string, finalVideo: string): Record
  {
    map["status" := Str("completed"), "progress_percent" := Int(100), "actual_time_sec" := Int(elapsedSec),
        "completed_at" := Str(completedAt), "output_path" := Str(finalVideo)]
  }

  function FailedUpdate(error: string, timestamp: string): Record
  {
    map["status" := Str("failed"), "error_log" := ErrorLog([ErrorEntry(error, timestamp)])]
  }

  /** The job's fields after the update of step `k - 1` (before any step
      when `k == 0`): name, status and mode are set, the mode is the
      preset, the status is pending before the first step and processing
      from then on, and the current step is the last one started. */
  ghost predicate FieldsAfterStep(fields: Record, presetName: string, k: nat)
  {
    && "job_name" in fields && "status" in fields && "mode" in fields && fields["mode"] == Str(presetName)
    && fields["status"] == Str(if k == 0 then "pending" else "processing")
    && (0 < k <= |JobSteps| ==> "current_step" in fields && fields["current_step"] == Str(JobSteps[k - 1]))
  }

  /** What a step update leaves in the job's fields. */
  lemma StepUpdateFields(fields: Record, presetName: string, k: nat, totalSegments: nat, now: int)
    requires k < |JobSteps| && FieldsAfterStep(fields, presetName, k)
    ensures var f := Update(fields, StepUpdate(k, totalSegments)["updated_at" := Int(now)]);
      && FieldsAfterStep(f, presetName, k + 1)
      && f["status"] == Str("processing")
      && "current_step" in f && f["current_step"] == Str(JobSteps[k])
  {
  }

  /** The job's status after its creation and after each of `updates` step
      updates: pending, then processing. */
  ghost predicate StatusTrace(statuses: seq<Value>, updates: nat)
  {
    && |statuses| == updates + 1
    && statuses[0] == Str("pending")
    && forall i :: 0 < i < |statuses| ==> statuses[i] == Str("processing")
  }

  lemma StatusTraceSnoc(statuses: seq<Value>, k: nat, status: Value)
    requires StatusTrace(statuses, k) && status == Str("processing")
    ensures StatusTrace(statuses + [status], k + 1)
  {
    assert forall i :: 0 <= i < |statuses| ==> (statuses + [status])[i] == statuses[i];
  }

  /** The job's status over a whole run whose first failing step is
      `failing`: pending, processing after each step update written, and
      finally failed or completed. */
  ghost predicate RunStatuses(statuses: seq<Value>, failing: nat)
  {
    && |statuses| == StepsStarted(failing) + 2
    && StatusTrace(statuses[..|statuses| - 1], StepsStarted(failing))
    && statuses[|statuses| - 1] == Str(if failing < |JobSteps| then "failed" else "completed")
  }

  lemma RunStatusesSnoc(trace: seq<Value>, last: Value, failing: nat)
    requires StatusTrace(trace, StepsStarted(failing))
    requires last == Str(if failing < |JobSteps| then "failed" else "completed")
    ensures RunStatuses(trace + [last], failing)
  {
    assert (trace + [last])[..|trace|] == trace;
  }

  /** The number of step updates a run writes when step `failing` is the
      first to fail (`|JobSteps|` when none does). */
  function StepsStarted(failing: nat): nat
  {
    if failing < |JobSteps| then failing + 1 else |JobSteps|
  }

  /** The steps before `k` all pass. */
  ghost predicate StepsPass(stageError: nat -> Option<string>, k: nat)
  {
    forall s :: 0 <= s < k ==> stageError(s).None?
  }

  lemma StepsPassNext(stageError: nat -> Option<string>, k: nat)
    requires StepsPass(stageError, k) && stageError(k).None?
    ensures StepsPass(stageError, k + 1)
  {
  }

  /** The fields of a job that completed: name and mode kept, status
      completed, progress 100, the output path, and the last step
      started was `cleanup`. */
  predicate JobCompleted(fields: Record, presetName: string, finalVideo: string)
  {
    && "job_name" in fields && "mode" in fields && fields["mode"] == Str(presetName)
    && "status" in fields && fields["status"] == Str("completed")
    && "progress_percent" in fields && fields["progress_percent"] == Int(100)
    && "output_path" in fields && fields["output_path"] == Str(finalVideo)
    && "current_step" in fields && fields["current_step"] == Str("cleanup")
  }

  /** The fields of a job that failed in `step` with `error`: name and mode
      kept, status failed, an error log of that one entry. */
  predicate JobFailed(fields: Record, presetName: string, error: string, timestamp: string, step: string)
  {
    && "job_name" in fields && "mode" in fields && fields["mode"] == Str(presetName)
    && "status" in fields && fields["status"] == Str("failed")
    && "error_log" in fields && fields["error_log"] == ErrorLog([ErrorEntry(error, timestamp)])
    && "current_step" in fields && fields["current_step"] == Str(step)
  }

  /** What the final update of a completed run leaves in the job's fields. */
  lemma CompletedFields(fields: Record, presetName: string, elapsedSec: int, timestamp: string, finalVideo: string, now: int)
    requires FieldsAfterStep(fields, presetName, |JobSteps|)
    ensures JobCompleted(Update(fields, CompletedUpdate(elapsedSec, timestamp, finalVideo)["updated_at" := Int(now)]),
                         presetName, finalVideo)
  {
  }

  /** What the final update of a run that failed in step `k - 1` leaves in
      the job's fields. */
  lemma FailedFields(fields: Record, presetName: string, k: nat, error: string, timestamp: string, now: int)
    requires 0 < k <= |JobSteps| && FieldsAfterStep(fields, presetName, k)
    ensures JobFailed(Update(fields, FailedUpdate(error, timestamp)["updated_at" := Int(now)]),
                      presetName, error, timestamp, JobSteps[k - 1])
  {
  }

  /** Updating the newest job rewrites its fields and no other job. */
  lemma UpdateNewestJob(jobs: seq<Database.RenderJob>, jobId: nat, fields: Record, updates: Record)
    requires forall i :: 0 <= i < |jobs| ==> jobs[i].id != jobId
    ensures Database.ApplyJobUpdate(jobs + [Database.RenderJob(jobId, fields)], jobId, updates)
         == jobs + [Database.RenderJob(jobId, Update(fields, updates))]
  {
    var all := jobs + [Database.RenderJob(jobId, fields)];
    var r := Database.ApplyJobUpdate(all, jobId, updates);
    assert forall i :: 0 <= i < |jobs| ==> all[i] == jobs[i] && r[i] == jobs[i];
    assert r[|jobs|] == Database.RenderJob(jobId, Update(fields, updates));
  }

  /** The first failing step from `k` is `j` when the steps `k..j` before
      it pass and `j` fails, and is past the end when none fails. */
  lemma FirstFailingStepAt(stageError: nat -> Option<string>, k: nat, j: nat)
    requires k <= j <= |JobSteps|
    requires forall s :: k <= s < j ==> stageError(s).None?
    ensures j < |JobSteps| && stageError(j).Some? ==> FirstFailingStep(stageError, k) == j
    ensures j == |JobSteps| ==> FirstFailingStep(stageError, k) == j
    decreases j - k
  {
    if k < j {
      FirstFailingStepAt(stageError, k + 1, j);
    }
  }

  /** The main block of the pipeline from the disk check to the final job
      update. `stageError(k)` is what the work of step `k` raises, if
      anything; the disk check asks for 5 GB free. */
  method RunPipelineJob(db: Database.Store, freeBytes: nat, presetName: string, now: nat,
                        stageError: nat -> Option<string>, totalSegments: nat,
                        elapsedSec: int, timestamp: string, finalVideo: string)
    returns (outcome: RunOutcome, ghost statuses: seq<Value>)
    requires db.Valid()
    modifies db
    ensures db.Valid()
    ensures !ResourceManager.EnoughDiskSpace(freeBytes, ResourceManager.DefaultRequiredGb) ==>
      outcome == InsufficientDiskSpace && db.renderJobs == old(db.renderJobs) && db.nextJobId == old(db.nextJobId)
      && statuses == []
    ensures ResourceManager.EnoughDiskSpace(freeBytes, ResourceManager.DefaultRequiredGb) ==>
      RunStatuses(statuses, FirstFailingStep(stageError, 0))
    ensures ResourceManager.EnoughDiskSpace(freeBytes, ResourceManager.DefaultRequiredGb) ==>
      && |db.renderJobs| == |old(db.renderJobs)| + 1
      && db.renderJobs[..|old(db.renderJobs)|] == old(db.renderJobs)
      && RunEnded(db.renderJobs[|old(db.renderJobs)|], old(db.nextJobId), outcome, stageError, presetName, timestamp, finalVideo)
  {
    statuses := [];
    if !ResourceManager.EnoughDiskSpace(freeBytes, ResourceManager.DefaultRequiredGb) {
      return InsufficientDiskSpace, statuses;
    }
    var jobId := db.CreateRenderJob("SpaceNews_" + NatToString(now / 1000), presetName, now);
    ghost var fields := Database.InitialJobFields("SpaceNews_" + NatToString(now / 1000), presetName, now);
    var failure, k;
    assert (old(db.renderJobs) + [Database.RenderJob(jobId, fields)])[..|old(db.renderJobs)|] == old(db.renderJobs);
    failure, k, fields, statuses := RunJobSteps(db, jobId, fields, presetName, stageError, totalSegments, now);
    ghost var status;
    outcome, status := FinishJob(db, jobId, fields, presetName, stageError, failure, k, elapsedSec, timestamp, finalVideo, now);
    RunStatusesSnoc(statuses, status, FirstFailingStep(stageError, 0));
    statuses := statuses + [status];
  }

  /** How the run ended for `job`: it has the new id; completed, with
      progress 100, the output path and step cleanup, when no stage raised;
      else failed with the first stage's error, its error log and that
      step as current_step. */
  ghost predicate RunEnded(job: Database.RenderJob, jobId: nat, outcome: RunOutcome, stageError: nat -> Option<string>,
                           presetName: string, timestamp: string, finalVideo: string)
  {
    var failing := FirstFailingStep(stageError, 0);
    && job.id == jobId
    && (failing == |JobSteps| ==>
          outcome == Completed(job.id) && JobCompleted(job.fields, presetName, finalVideo))
    && (failing < |JobSteps| ==>
          && outcome == Failed(job.id, stageError(failing).value)
          && JobFailed(job.fields, presetName, stageError(failing).value, timestamp, JobSteps[failing]))
  }

  /** The final update of the main block: completed with the output path
      when no step raised, else failed with the error of step `k - 1`,
      the first to raise. */
  method FinishJob(db: Database.Store, jobId: nat, ghost fields: Record, presetName: string, stageError: nat -> Option<string>,
                   failure: Option<string>, k: nat, elapsedSec: int, timestamp: string, finalVideo: string, now: nat)
    returns (outcome: RunOutcome, ghost status: Value)
    requires db.Valid() && |db.renderJobs| > 0 && db.renderJobs[|db.renderJobs| - 1] == Database.RenderJob(jobId, fields)
    requires forall i :: 0 <= i < |db.renderJobs| - 1 ==> db.renderJobs[i].id != jobId
    requires failure.None? ==> FirstFailingStep(stageError, 0) == |JobSteps| && FieldsAfterStep(fields, presetName, |JobSteps|)
    requires failure.Some? ==>
      && 0 < k <= |JobSteps| && FirstFailingStep(stageError, 0) == k - 1 && failure == stageError(k - 1)
      && FieldsAfterStep(fields, presetName, k)
    modifies db
    ensures db.Valid() && db.nextJobId == old(db.nextJobId)
    ensures |db.renderJobs| == |old(db.renderJobs)|
    ensures db.renderJobs[..|db.renderJobs| - 1] == old(db.renderJobs)[..|old(db.renderJobs)| - 1]
    ensures RunEnded(db.renderJobs[|db.renderJobs| - 1], jobId, outcome, stageError, presetName, timestamp, finalVideo)
    ensures "status" in db.renderJobs[|db.renderJobs| - 1].fields && status == db.renderJobs[|db.renderJobs| - 1].fields["status"]
    ensures status == Str(if FirstFailingStep(stageError, 0) < |JobSteps| then "failed" else "completed")
  {
    ghost var base := db.renderJobs[..|db.renderJobs| - 1];
    assert db.renderJobs == base + [Database.RenderJob(jobId, fields)];
    if failure.None? {
      UpdateNewestJob(base, jobId, fields, CompletedUpdate(elapsedSec, timestamp, finalVideo)["updated_at" := Int(now)]);
      CompletedFields(fields, presetName, elapsedSec, timestamp, finalVideo, now);
      db.UpdateRenderJob(jobId, CompletedUpdate(elapsedSec, timestamp, finalVideo), now);
      outcome := Completed(jobId);
    } else {
      UpdateNewestJob(base, jobId, fields, FailedUpdate(failure.value, timestamp)["updated_at" := Int(now)]);
      FailedFields(fields, presetName, k, failure.value, timestamp, now);
      db.UpdateRenderJob(jobId, FailedUpdate(failure.value, timestamp), now);
      outcome := Failed(jobId, failure.value);
    }
    assert db.renderJobs == base + [db.renderJobs[|db.renderJobs| - 1]];
    status := db.renderJobs[|db.renderJobs| - 1].fields["status"];
  }

  /** The steps of the main block in order: before each one its update is
      written, and the first step that raises stops the run. */
  method RunJobSteps(db: Database.Store, jobId: nat, ghost fields0: Record, presetName: string,
                     stageError: nat -> Option<string>, totalSegments: nat, now: nat)
    returns (failure: Option<string>, k: nat, ghost fields: Record, ghost statuses: seq<Value>)
    requires db.Valid() && |db.renderJobs| > 0 && db.renderJobs[|db.renderJobs| - 1] == Database.RenderJob(jobId, fields0)
    requires forall i :: 0 <= i < |db.renderJobs| - 1 ==> db.renderJobs[i].id != jobId
    requires FieldsAfterStep(fields0, presetName, 0)
    modifies db
    ensures db.Valid() && db.nextJobId == old(db.nextJobId)
    ensures db.renderJobs == old(db.renderJobs)[..|old(db.renderJobs)| - 1] + [Database.RenderJob(jobId, fields)]
    ensures FieldsAfterStep(fields, presetName, k) && StatusTrace(statuses, k)
    ensures 0 <= k <= |JobSteps|
    ensures failure.None? ==> k == |JobSteps| && FirstFailingStep(stageError, 0) == |JobSteps|
    ensures failure.Some? ==> k > 0 && FirstFailingStep(stageError, 0) == k - 1 && failure == stageError(k - 1)
  {
    ghost var base := db.renderJobs[..|db.renderJobs| - 1];
    assert db.renderJobs == base + [Database.RenderJob(jobId, fields0)];
    fields := fields0;
    statuses := [fields["status"]];
    k := 0;
    failure := None;
    while k < |JobSteps| && failure.None?
      invariant 0 <= k <= |JobSteps|
      invariant db.Valid() && db.nextJobId == old(db.nextJobId)
      invariant db.renderJobs == base + [Database.RenderJob(jobId, fields)]
      invariant FieldsAfterStep(fields, presetName, k)
      invariant StatusTrace(statuses, k)
      invariant failure.None? ==> StepsPass(stageError, k)
      invariant failure.Some? ==> k > 0 && FirstFailingStep(stageError, 0) == k - 1 && failure == stageError(k - 1)
      decreases |JobSteps| - k
    {
      UpdateNewestJob(base, jobId, fields, StepUpdate(k, totalSegments)["updated_at" := Int(now)]);
      db.UpdateRenderJob(jobId, StepUpdate(k, totalSegments), now);
      StepUpdateFields(fields, presetName, k, totalSegments, now);
      fields := Update(fields, StepUpdate(k, totalSegments)["updated_at" := Int(now)]);
      StatusTraceSnoc(statuses, k, fields["status"]);
      statuses := statuses + [fields["status"]];
      failure := stageError(k);
      if failure.Some? {
        FirstFailingStepAt(stageError, 0, k);
      } else {
        StepsPassNext(stageError, k);
      }
      k := k + 1;
    }
    if failure.None? {
      FirstFailingStepAt(stageError, 0, |JobSteps|);
    }
  }
}

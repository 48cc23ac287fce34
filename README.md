# Space news generator: media acquisition, in Dafny

This project models the media-acquisition core of the space news video
generator and proves properties of that model. It covers:

- the per-source **circuit breaker**, the **retry executor** with
  exponential backoff and call telemetry, and the **fallback search** over a
  fixed provider order (`api_manager.py`);
- the **persistent store** (`database_client.py`), held in memory. It has
  the media cache (normalised queries, expiry, ranking, usage bumps,
  dedup by content hash, the expiry sweep), the API-call log with its
  health summary, render jobs, and the script and transcription caches;
- the **resource governor** (`resource_manager.py`): worker counts, the
  disk check, the throttle predicates and the bounded wait loop;
- **hardware-encoder selection** (`gpu_detector.py`): probe results decide
  a profile, and the profile decides ffmpeg arguments and filters;
- the **preset table** with lookup, merge, listing and descriptions
  (`config_presets.py`);
- the **segment pipeline** (`space_news_pipeline_optimized.py`):
  - the branching of `process_segment`;
  - the loop over segments;
  - the summary-length clamp and the plain-text fallback script;
  - the cleanup predicate and loop;
  - the status sequence of the render job.

The model follows the shape of the source:
- Objects whose fields change become classes with `modifies` clauses:
  `CircuitBreaker`, `APIManager` and the `Store`.
- Their methods are proved against pure functions of the old state:
  `CheckOpen`, `Retry`, `Fallback`, `LookupMedia`, `ApplyJobUpdate`, and
  so on.
- Loops in the source are `while`/`for` loops here, with invariants. These
  are the retry loop, the provider loop, the wait loop, source
  attribution, the fallback script and the cleanup.
- Decision tables are functions, with lemmas about them.

Everything the code asks of the outside world is a parameter:
- the clock, as integer milliseconds;
- provider answers, as an oracle `provider(source, query, attempt)` that
  gives a URL, no URL, or an exception, together with the call's duration;
- memory, disk and CPU readings;
- platform name and probe outputs;
- file existence, download hashes and ffmpeg outcomes.

Behaviours the proofs make explicit:
- `is_open` resets a timed-out count to 0 but keeps the old failure time,
  so after the timeout one more failure does not reopen the circuit
  (`TimeoutResetsCount`).
- A cache row that expires exactly now survives the sweep, yet lookups no
  longer return it (`ExpiringNowIsKeptButNotServed`).
- A segment whose cached file is missing, or whose cached render fails, is
  looked up twice: once in `process_segment`, once in
  `search_with_fallback`. Its use count therefore rises by two, and the
  cached URL is downloaded again without asking any provider
  (`ProcessSegment`, `LookupAfterBump`). The cache stores the temporary
  download as its local path (`SavedRow`, `AcquireDownload`), and
  `cleanup_media` deletes that file (`CleanupRemovesDownloads`). A later run whose segment hits that row
  therefore finds no file, unless the file survived because `build_video`
  raised before the cleanup, or a later download with the same segment
  number wrote `temp{i}.dat` again.
- `apply_ken_burns` asks for the scale filter on both of its branches. With
  VA-API and a resolution without `x`, every Ken Burns render therefore
  raises: the cached file, the downloaded still and the fallback still alike
  (`KenBurns`).
- `process_segment` does not always return `True`. When the Ken Burns
  render of the fallback image raises, the exception escapes to the
  segment loop, which records it and goes on (`SegmentResult.Raised`).

## Model

| member | source | states |
|---|---|---|
| Records.Update | config_presets.py:96 | `dict.update` on a copy: the keys are the union; keys of the second dictionary take its values, all other keys keep theirs |
| Database.NormalizeQuery | database_client.py:161-162 | lower-case, split on whitespace, join with single spaces; stated by `NormalizeQueryShape`, `NormalizeQueryKeepsWords` and `NormalizeQueryIdempotent` |
| Database.NormalizeQueryShape | database_client.py:161-162 | a normalised query has no upper-case letter, uses only ' ' as whitespace, and has no leading, trailing or doubled space |
| Database.NormalizeQueryKeepsWords | database_client.py:161-162 | normalising keeps the words of the lower-cased query, in order |
| Database.NormalizeQueryIdempotent | database_client.py:161-162 | normalising twice equals normalising once |
| Database.Candidates | database_client.py:19-24 | a row is a candidate exactly when it has the normalised query, `expires_at > now` and, if a non-empty source is given, that source |
| Database.Top | database_client.py:26 | `limit(1)` after the two descending sorts: nothing only for no rows, otherwise a row that no row outranks by quality score and then use count |
| Database.LookupMedia | database_client.py:18-28 | the selection of `get_cached_media`: `None` exactly when no row matches, otherwise a matching row that no matching row outranks |
| Database.LookupSelectsStrictBest | database_client.py:18-28 | a matching row that strictly outranks every other matching row is the one the lookup returns |
| Database.BumpChangesOnlyHit | database_client.py:28-33 | recording a hit changes only the hit row (use count +1, `last_used_at = now`) and keeps ids and hashes unique |
| Database.LookupAfterBump | database_client.py:18-37 | a repeated lookup right after a hit selects the same row again, with its new usage |
| Database.FindByHash | database_client.py:45-48 | nothing exactly when no row has this hash; otherwise a row of the table with this hash |
| Database.InsertKeepsKeysDistinct | database_client.py:45-63 | appending a fresh-id row whose hash is absent keeps ids and hashes unique |
| Database.Unexpired | database_client.py:157-159 | the sweep keeps exactly the rows with `expires_at >= now` |
| Database.UnexpiredKeepsKeysDistinct | database_client.py:157-159 | the sweep keeps ids and hashes unique |
| Database.ExpiringNowIsKeptButNotServed | database_client.py:157-159 | a row expiring exactly now survives the sweep but is never returned by a lookup |
| Database.WindowCalls | database_client.py:81 | a call is in the window exactly when it is for this source and `created_at > cutoff` |
| Database.CountSuccessesBound | database_client.py:87 | the successes are at most the calls, and equal them exactly when every call succeeded |
| Database.ApiHealth | database_client.py:78-94 | an empty window gives rate 1, average 0 and 0 calls; otherwise the rate is successes/total in [0, 1], the average is the sum over the total, and the total is the window size |
| Database.HealthIgnoresOtherCalls | database_client.py:78-81 | a call for another source, or one outside the window, does not change a source's health |
| Database.ApplyJobUpdate | database_client.py:107-109 | only jobs with this id change: the given keys take the new values, other keys and other jobs stay |
| Database.InitialJobFields | database_client.py:96-102 | a new job has exactly the keys job_name, mode, status and started_at, with status "pending" |
| Database.UpsertScript | database_client.py:146-155 | the entry of this hash holds the given text, model and word count, keeps its `last_used_at` (none for a new hash), and no other entry changes |
| Database.UpsertTranscription | database_client.py:123-132 | the entry of this hash holds the given model, segments text and duration, keeps its `last_used_at` (none for a new hash), and no other entry changes |
| Database.LookupTranscription | database_client.py:111-121 | a hit exactly when a row with this audio hash was made with this model |
| Database.TranscriptionRoundTrip | database_client.py:111-132 | reading back a transcription saved under this audio hash with the same model returns the stored segments text (the `json.dumps` of the segments); with another model it misses |
| Database.Store.constructor | database_client.py:9-16 | a store starts with empty tables and satisfies its invariant |
| Database.Store.GetCachedMedia | database_client.py:18-37 | returns the row `LookupMedia` selects, as it was before the hit; a hit bumps only that row, a miss changes nothing (the new cache is `Touched`) |
| Database.Store.SaveMediaCache | database_client.py:39-64 | for a known hash, returns that row's id and changes nothing; otherwise appends one row with the normalised query, use count 0 and expiry now + 30 days, and returns its fresh id |
| Database.Store.TrackApiCall | database_client.py:66-76 | appends exactly one call record and changes no other table |
| Database.Store.CreateRenderJob | database_client.py:96-105 | appends one pending job whose new id differs from every earlier job's |
| Database.Store.UpdateRenderJob | database_client.py:107-109 | applies the given keys plus `updated_at` to that job only |
| Database.Store.GetCachedScript | database_client.py:134-144 | a hit returns the stored text and stamps `last_used_at`; a miss changes nothing |
| Database.Store.SaveScriptCache | database_client.py:146-155 | upserts the entry of this articles hash |
| Database.Store.GetCachedTranscription | database_client.py:111-121 | a hit returns the stored segments and stamps `last_used_at`; a miss changes nothing |
| Database.Store.SaveTranscriptionCache | database_client.py:123-132 | upserts the entry of this audio hash |
| Database.Store.CleanupExpiredCache | database_client.py:157-159 | deletes exactly the rows with `expires_at < now` |
| ApiManager.CheckOpen | api_manager.py:14-25 | `is_open` on a breaker state, giving the answer and the new state; stated by `CheckOpenSpec`, `NeverRecordedIsClosed` and `TimeoutResetsCount` |
| ApiManager.Succeed | api_manager.py:27-28 | `record_success` on a breaker state; stated by `SuccessCloses` |
| ApiManager.Fail | api_manager.py:30-32 | `record_failure` on a breaker state; stated by `FailureCounts`, `FailAllEffect` and `ConsecutiveFailuresOpen` |
| ApiManager.NeverRecordedIsClosed | api_manager.py:14-16 | a source with no recorded count is closed, and the check leaves the state unchanged |
| ApiManager.CheckOpenSpec | api_manager.py:14-25 | `is_open` is true exactly when the count reaches the threshold within the timeout of the last failure, and is then side-effect free; otherwise at most this source's count is reset to 0 |
| ApiManager.TimeoutResetsCount | api_manager.py:18-25 | after the timeout a tripped source checks closed and its count becomes 0; one further failure then does not reopen it when the threshold exceeds 1 |
| ApiManager.SuccessCloses | api_manager.py:27-28 | after a success the source checks closed, and other sources are untouched |
| ApiManager.FailureCounts | api_manager.py:30-32 | a failure adds exactly 1 to this source's count and stamps the time; other sources are untouched |
| ApiManager.FailAllEffect | api_manager.py:30-32 | n consecutive failures add n to the count and stamp the last failure time |
| ApiManager.ConsecutiveFailuresOpen | api_manager.py:18-21 | at least threshold failures, the last within the timeout, open the circuit |
| ApiManager.CircuitBreaker.constructor | api_manager.py:8-12 | a breaker starts with the given threshold and timeout and empty dictionaries |
| ApiManager.CircuitBreaker.IsOpen | api_manager.py:14-25 | the answer and the new state are those of `CheckOpen` on the old state |
| ApiManager.CircuitBreaker.RecordSuccess | api_manager.py:27-28 | the new state is the old one with this source's count set to 0 |
| ApiManager.CircuitBreaker.RecordFailure | api_manager.py:30-32 | the new state has this source's count incremented and its failure time set to now |
| ApiManager.Retry | api_manager.py:49-73 | `retry_with_backoff` on the log, clock and breaker state; stated by `RetryWithoutAttempts`, `RetryResult`, `RetryLogLength`, `RetryLogEntries`, `RetrySleeps` and `RetryBreaker` |
| ApiManager.RetryFrom | api_manager.py:51-73 | the retry loop from attempt k on; stated by the same lemmas as `Retry` |
| ApiManager.FirstReturn | api_manager.py:51-60 | the index of the first attempt that does not raise: all earlier attempts raised |
| ApiManager.RetryWithoutAttempts | api_manager.py:51-73 | with `max_retries <= 0` the executor returns `None`, calls nothing, logs nothing and sleeps nothing |
| ApiManager.RetryResult | api_manager.py:51-68 | it stops at the first attempt that does not raise and returns its result, `None` included; if all attempts raise, it makes all of them and re-raises the last |
| ApiManager.RetryLogLength | api_manager.py:51-65 | the existing log is kept, and exactly one record is appended per attempt |
| ApiManager.RetryLogEntries | api_manager.py:53-64 | record i carries this source, an empty query, the attempt's success, its duration and, on failure, the exception message |
| ApiManager.RetrySleeps | api_manager.py:67-71 | it sleeps `base * 2^k` before retry k+1, one sleep fewer than the attempts made, with none after the last attempt |
| ApiManager.RetryBreaker | api_manager.py:57-65 | a run that returns leaves the count at 0; a run that re-raises adds one failure per attempt; other sources are untouched |
| ApiManager.SearchOrder | api_manager.py:80-82 | nasa, pixabay, pexels, unsplash; or pixabay, nasa, pexels, giphy when video is preferred: four distinct known providers |
| ApiManager.SourceRun | api_manager.py:101-127 | `_search_source` through the retry executor; stated by `SourceRunLog` and `SourceRunOutcome` |
| ApiManager.Fallback | api_manager.py:84-99 | the provider loop of `search_with_fallback`, with its trace of turns; stated by `NothingToTry`, `AllOpenIsNoOp`, `FallbackLog`, `FallbackFound`, `FallbackTurns`, `FallbackAnswers`, `FallbackChain`, `FallbackSkipsOnlyUnavailable` and `FallbackTriesFirstAvailable` |
| ApiManager.SourceRunLog | api_manager.py:101-127 | `_search_source` makes at most 3 calls and logs each one under this source, after the existing log |
| ApiManager.SourceRunOutcome | api_manager.py:101-127 | a URL is answered only for a known provider, and only one that an allowed attempt of it returned |
| ApiManager.NothingToTry | api_manager.py:84-91 | when every source is open or below the 0.3 health floor, the search finds nothing, calls nothing and tries nothing |
| ApiManager.AllOpenIsNoOp | api_manager.py:84-86 | when every circuit is open, the search changes no state at all |
| ApiManager.FallbackLog | api_manager.py:84-99 | the search only appends to the log; every new record comes from a source it tried, and it tries only sources of the order |
| ApiManager.FallbackFound | api_manager.py:92-99 | a URL found is non-empty and was returned by an allowed attempt of the last source tried |
| ApiManager.FallbackTurns | api_manager.py:84-97 | the sources tried are an in-order subsequence of the order; each was neither open nor unhealthy in the state its turn began in, and its turn is `_search_source` run in that state after the open check |
| ApiManager.FallbackAnswers | api_manager.py:92-99 | every source tried before the last answered an exception, `None` or an empty URL; a URL is found exactly when the last one answered a non-empty URL, and it is that URL; nothing is found exactly when no source tried answered one |
| ApiManager.FallbackChain | api_manager.py:84-99 | each turn starts from the log and clock the previous one left, the first from those of the call; the search ends with the last turn's log and clock, and with its breaker state when a URL is found |
| ApiManager.FallbackSkipsOnlyUnavailable | api_manager.py:84-99 | a source of the order without a turn was skipped: its circuit was open or its health below 0.3 in the state the previous turn left (the call's own state before the first turn); when no URL is found, every source after the last turn was skipped too, so the loop goes on past a raising or empty source |
| ApiManager.CheckKeepsSkipped | api_manager.py:14-25 | checking one source's circuit never makes another source skippable that was not skippable before |
| ApiManager.FallbackTriesFirstAvailable | api_manager.py:84-95 | a first source whose circuit is closed and whose health is at least 0.3 is tried first, from the state of the call |
| ApiManager.APIManager.constructor | api_manager.py:35-38 | the manager uses the given store and a fresh breaker with threshold 5 and timeout 60 s |
| ApiManager.APIManager.RetryWithBackoff | api_manager.py:49-73 | outcome, clock, call log and breaker state are those of `Retry`; no other table changes |
| ApiManager.APIManager.SearchSource | api_manager.py:101-127 | the five known providers dispatch to the executor with their own name; any other source answers `None` and changes nothing |
| ApiManager.APIManager.SearchWithFallback | api_manager.py:75-99 | a cache hit returns the cached URL and touches neither breaker nor log; a miss gives the URL, log and breaker of `Fallback` over the chosen order, whose turns `FallbackTurns`, `FallbackAnswers`, `FallbackChain` and `FallbackSkipsOnlyUnavailable` describe |
| ApiManager.APIManager.SearchProviders | api_manager.py:84-99 | URL, clock, call log and breaker state are those of `Fallback` over the given order, so that open or unhealthy sources are skipped, a raising source is passed over and the first non-empty URL is returned (`FallbackTurns`, `FallbackAnswers`, `FallbackChain`, `FallbackSkipsOnlyUnavailable`) |
| ResourceManager.CpuCount | resource_manager.py:8 | the reported count when it is positive, otherwise 4 |
| ResourceManager.OptimalWorkers | resource_manager.py:12-23 | at least min and at most max(min, max); exactly min below 4 GiB; max(min, min(cpu//2, max)) from 4 to 8 GiB; max(min, min(cpu, max)) from 8 GiB |
| ResourceManager.OptimalWorkersMonotone | resource_manager.py:16-23 | more free memory never gives fewer workers |
| ResourceManager.LowMemoryIgnoresCpus | resource_manager.py:16-17 | below 4 GiB the CPU count plays no part |
| ResourceManager.EnoughDiskSpace | resource_manager.py:25-29 | true exactly when the free bytes are at least the required GiB |
| ResourceManager.DiskSpaceBoundary | resource_manager.py:29 | the bound is inclusive, and more free space never fails a passing check |
| ResourceManager.IsMemoryConstrained | resource_manager.py:34-35 | memory above the threshold (85 by default); stated by `ThrottleIsStrict` |
| ResourceManager.ShouldThrottle | resource_manager.py:40-43 | CPU above its threshold or memory constrained; stated by `ThrottleIsStrict` |
| ResourceManager.ThrottleIsStrict | resource_manager.py:34-43 | throttles exactly when CPU or memory is strictly above its threshold; readings exactly at the thresholds do not throttle |
| ResourceManager.WaitForResources | resource_manager.py:45-51 | waits 5 s per throttled check while under the timeout, and stops at the first clear reading or once elapsed reaches the timeout; a non-positive timeout never waits |
| GpuDetector.DetectGpu | gpu_detector.py:9-19 | dispatch on the platform name; stated by `DetectedProfileShape` and `OtherPlatforms` |
| GpuDetector.DetectLinux | gpu_detector.py:21-60 | nvidia-smi, then vainfo, then CPU; stated by `LinuxDetectionOrder` |
| GpuDetector.DetectMacOS | gpu_detector.py:62-81 | VideoToolbox when system_profiler lists a display; stated by `OtherPlatforms` |
| GpuDetector.DetectWindows | gpu_detector.py:83-105 | NVIDIA when nvidia-smi answers; stated by `OtherPlatforms` |
| GpuDetector.EncodingArgs | gpu_detector.py:107-141 | the encoder arguments of a profile; stated by `EncodingArgsSelectEncoder` and `EncodingArgsQuality` |
| GpuDetector.ScaleFilter | gpu_detector.py:143-154 | the scale filter of a profile, `None` where the source raises; stated by `ScaleFilterSpec` |
| GpuDetector.RequiresHwUpload | gpu_detector.py:156-157 | NVIDIA and VA-API need an upload; stated by `HwUploadAgrees` |
| GpuDetector.HwUploadFilter | gpu_detector.py:159-167 | the upload filter of NVIDIA and VA-API; stated by `HwUploadAgrees` |
| GpuDetector.DetectedProfileShape | gpu_detector.py:9-105 | detection yields one of the four profiles; the profile is available exactly when it is not CPU, and then names an encoder and a scale filter; an NVIDIA name is the non-blank trimmed probe output |
| GpuDetector.LinuxDetectionOrder | gpu_detector.py:21-60 | on Linux NVIDIA wins over VA-API, which wins over CPU; a probe that raised counts as not found |
| GpuDetector.OtherPlatforms | gpu_detector.py:9-105 | macOS gives VideoToolbox or CPU from system_profiler; Windows gives NVIDIA or CPU from nvidia-smi; any other platform gives CPU |
| GpuDetector.EncodingArgsSelectEncoder | gpu_detector.py:107-141 | for every detected profile the arguments begin `-c:v` with the profile's encoder (libx264 on CPU), and the resolution is unused |
| GpuDetector.EncodingArgsQuality | gpu_detector.py:107-141 | software and unknown types use libx264 with preset and CRF; NVIDIA passes the CRF as `-cq`, VA-API as `-qp`; VideoToolbox ignores both at 5M |
| GpuDetector.ScaleFilterSpec | gpu_detector.py:143-154 | the filter fails only for VA-API with no `x` in the resolution; otherwise it starts with the profile's filter name; VA-API splits `WxH` into w and h |
| GpuDetector.HwUploadAgrees | gpu_detector.py:156-167 | an upload is required exactly when there is an upload filter |
| ConfigPresets.ListPresets | config_presets.py:100-101 | exactly ultra_fast, fast, balanced, hq, production, in table order |
| ConfigPresets.Find | config_presets.py:88-91 | found exactly when some entry has the name, and then the found value is that entry's |
| ConfigPresets.GetPreset | config_presets.py:87-91 | succeeds exactly for listed names, with that preset; otherwise fails with "Unknown preset: ..." listing the names |
| ConfigPresets.MergeWithPreset | config_presets.py:94-97 | fails exactly for unknown presets, whatever the custom config; otherwise the key set is the union, custom keys win, and other preset keys keep their values |
| ConfigPresets.MergeEmptyIsPreset | config_presets.py:94-97 | merging an empty custom config gives the preset itself |
| ConfigPresets.RecordOfPreset | config_presets.py:4-84 | a preset's dictionary has exactly the keys of `PresetKeys`, with its worker count under `max_workers` and its CRF under `crf` |
| ConfigPresets.AllPresetsHaveTheSameKeys | config_presets.py:4-84 | every preset defines exactly the same key set |
| ConfigPresets.QualityIncreasesAlongTheList | config_presets.py:4-84 | along the list, `max_workers` and the numeric `crf` both strictly decrease |
| ConfigPresets.GetPresetDescription | config_presets.py:104-112 | the description of a preset, or the default text; stated by `DescriptionsCoverThePresets` |
| ConfigPresets.DescriptionsCoverThePresets | config_presets.py:104-112 | exactly the listed presets have their own description; any other name gets the default text |
| Pipeline.Trunc | space_news_pipeline_optimized.py:274 | `int()` on a float truncates toward zero |
| Pipeline.PathJoin | space_news_pipeline_optimized.py:276 | `os.path.join`: an absolute second part replaces the first; otherwise the result begins with the first part and ends with the second |
| Pipeline.IsVideoUrl | space_news_pipeline_optimized.py:297 | a URL ending in `.gif` or `.mp4` is transcoded; stated with `MediaType` by `MediaTypeAgreesWithPath` |
| Pipeline.MediaType | space_news_pipeline_optimized.py:315 | "video" for `.mp4` and `.gif` URLs, else "image"; stated by `MediaTypeAgreesWithPath` |
| Pipeline.KenBurns | space_news_pipeline_optimized.py:236-271 | `apply_ken_burns` completes only when the scale filter of the resolution exists and the ffmpeg run completes; used by `ProcessSegment` |
| Pipeline.MediaTypeAgreesWithPath | space_news_pipeline_optimized.py:297-315 | `MediaType` is "video" exactly when the URL took the transcode path; the test is case-sensitive; the saved row carries this type (`SavedRowDescribesDownload`) |
| Pipeline.AttributeSource | space_news_pipeline_optimized.py:316-320 | the loop returns `SourceOf(url)`: the first of nasa, pexels, pixabay, unsplash, giphy found in the lower-cased URL, or "unknown" exactly when none is found |
| Pipeline.SourceOf | space_news_pipeline_optimized.py:316-320 | the recorded source of a URL; stated by `SourceOfSpec` |
| Pipeline.FirstNamedSpec | space_news_pipeline_optimized.py:317-320 | a first-match scan over the names: "unknown" exactly when none occurs, otherwise the earliest that occurs |
| Pipeline.SourceOfSpec | space_news_pipeline_optimized.py:316-320 | the source is "unknown" exactly when no provider name occurs in the lower-cased URL, otherwise the first in the order nasa, pexels, pixabay, unsplash, giphy |
| Pipeline.SavedRow | space_news_pipeline_optimized.py:313-331 | the row saved for segment `i`'s download: normalised query, `SourceOf(url)`, the URL, the `temp{i}.dat` path, the hash, `MediaType(url)`, the resolution, the file size, quality 5, use count 0, expiry in 30 days; stated by `SavedRowDescribesDownload` |
| Pipeline.SavedRowDescribesDownload | space_news_pipeline_optimized.py:313-331 | the saved row is found by its own query until it expires 30 days later, its media type is "video" exactly on the transcode path, and its source is the first provider name in the URL or "unknown" |
| Pipeline.CacheAfterSave | database_client.py:39-64 | the cache after `save_media_cache` of a download: unchanged for a known hash, else with `SavedRow` appended; stated by `CacheAfterSaveSpec` |
| Pipeline.CacheAfterSaveSpec | database_client.py:39-64 | saving keeps the old rows as a prefix and the keys distinct, adds one row exactly when the hash is new, and then the query is served from the cache |
| Pipeline.CachedClip | space_news_pipeline_optimized.py:278-288 | the cached path is used exactly when caching is on, there is a hit, its file exists and it renders; the hit is recorded even when it is not used |
| Pipeline.AcquireDownload | space_news_pipeline_optimized.py:292-331 | succeeds exactly when the download works and the transcode (with a valid scale filter) or render completes; on success with caching on the new cache is exactly `CacheAfterSave` (the old rows, plus `SavedRow` when the hash is new), otherwise the cache is unchanged; the next row id moves by the rows added |
| Pipeline.SearchAndFetch | space_news_pipeline_optimized.py:290-345 | the search looks the cache up again: on a hit the URL is the cached one, with no provider call and the row bumped a second time when nothing new is saved; on a miss URL, call log and breaker state are those of `Fallback` over `SearchOrder(prefer_video)` (`SearchedProviders`); a URL whose download renders becomes the clip; otherwise the fallback still, which alone can raise; the final cache is exactly the looked-up cache (`Touched`) plus, for a saved download, `CacheAfterSave` at the search's clock |
| Pipeline.ProcessSegment | space_news_pipeline_optimized.py:273-345 | served from cache iff `CachedClip` serves it, with no search; otherwise searches with prefer_video iff duration > 15: a cache hit (read and bumped even with caching off) answers its URL with no provider call, a miss gives the URL, call log and breaker state of `Fallback` over `SearchOrder(prefer_video)`; uses the download when it renders, else the fallback image, which alone can raise; the final cache is exactly the cache after its one or two lookups (`LookedUp`) plus, for a saved download, `CacheAfterSave`; this is the `ProcessedAs` of its step |
| Pipeline.ProcessStep | space_news_pipeline_optimized.py:366-372 | one call of `process_segment` for segment k+1, recorded as a step from the state of the call (cache, next row id, call log, breaker) to the state it leaves, which `ProcessedAs` fixes: lookups, provider search and saved row |
| Pipeline.ProcessedAsIsAccountedFor | space_news_pipeline_optimized.py:273-345 | a processed segment raised only when its still failed to render, and a downloaded clip is one whose download rendered |
| Pipeline.GenerateMediaForSegments | space_news_pipeline_optimized.py:363-374 | segment k+1 gives `results[k]` as `process_segment` does from the state `steps[k].before` (cache, call log, breaker), which is the state the previous segment left, and `steps[k].after` is determined by it (lookups, then `CacheAfterSave` for a saved download): from the cache exactly when that hit is usable, with its local path; a miss runs the providers as `Fallback` says from that call log and breaker state; then the download when it renders, else the still, and `Raised` only when the still fails; the other segments still run |
| Pipeline.MaxSummaryLength | space_news_pipeline_optimized.py:157-159 | the summary limit lies in [150, 600] and is 60% of the input between 250 and 1000 words |
| Pipeline.StoriesAppend | space_news_pipeline_optimized.py:183-184 | the stories of two runs of articles are concatenated, the second numbered on from the first |
| Pipeline.StoriesInOrder | space_news_pipeline_optimized.py:183-184 | the block "Story k+1: article k" sits between all earlier and all later blocks |
| Pipeline.FallbackScriptText | space_news_pipeline_optimized.py:182-186 | greeting, the numbered stories, sign-off; stated by `FallbackScriptFrame`, `StoriesAppend`, `StoriesInOrder` and `FallbackScript` |
| Pipeline.FallbackScriptFrame | space_news_pipeline_optimized.py:182-186 | the script begins with the greeting, ends with the sign-off, and is just the two for no articles |
| Pipeline.FallbackScript | space_news_pipeline_optimized.py:182-186 | the loop builds the greeting, one numbered story per article, then the sign-off |
| Pipeline.ShouldDelete | space_news_pipeline_optimized.py:426-427 | the delete test of `cleanup_media`; stated by `CleanupKeepsOutputs` and `RemovalsSpec` |
| Pipeline.Removals | space_news_pipeline_optimized.py:424-431 | the paths `cleanup_media` removes, in listing order; stated by `RemovalsSpec` and `CleanupRemovesDownloads` |
| Pipeline.CleanupKeepsOutputs | space_news_pipeline_optimized.py:420-431 | kept paths and non-clip videos are never removed; a segment clip outside the keep set is |
| Pipeline.CleanupRemovesDownloads | space_news_pipeline_optimized.py:420-431 | the temporary download (the cached local path) and the fallback still are removed unless kept |
| Pipeline.RemovalsSpec | space_news_pipeline_optimized.py:424-431 | a path is removed exactly when it joins the output directory with a listed name and `ShouldDelete` accepts it (a regular file outside the keep set that is not a video or is a clip); at most one removal per name |
| Pipeline.CleanupMedia | space_news_pipeline_optimized.py:420-431 | removes the paths of `Removals`, in listing order |
| Pipeline.StepUpdate | space_news_pipeline_optimized.py:448-480 | the keys written before each step: status processing with the first, the segment count with `processing_media`; stated by `StepUpdateFields` |
| Pipeline.FirstFailingStep | space_news_pipeline_optimized.py:447-485 | the first step whose stage raises: all earlier steps pass |
| Pipeline.StepUpdateFields | space_news_pipeline_optimized.py:448-480 | the update of step k records that step's name as current_step, leaves the status processing (pending turns to processing at step 0), and keeps the job name and mode |
| Pipeline.RunJobSteps | space_news_pipeline_optimized.py:447-485 | writes the update of each step before the step runs and stops at the first that raises; the job's status goes from pending to processing at the first update and stays there |
| Pipeline.FinishJob | space_news_pipeline_optimized.py:487-505 | the final update: completed with progress 100 and the output path when no step raised, otherwise failed with that step's error |
| Pipeline.CompletedFields | space_news_pipeline_optimized.py:487-493 | after the last step, the completed update leaves status completed, progress 100, the output path and `cleanup` as current_step, with name and mode kept |
| Pipeline.FailedFields | space_news_pipeline_optimized.py:500-504 | after step k-1 started, the failed update leaves status failed, an error log of one entry with the message and timestamp, and that step as current_step |
| Pipeline.RunPipelineJob | space_news_pipeline_optimized.py:438-505 | too little disk stops the run before any job exists; otherwise exactly one new job ends completed (progress 100, output path, step cleanup) when no stage raises, else failed with the first stage's error, its error log and that step as current_step; its status goes pending, then processing for every step started, then completed or failed |

## Left out

- HTTP provider bodies (`_search_nasa` and friends), `set_api_keys` and the download code. Providers, downloads and their durations are oracles. API keys only feed the provider bodies.
- The Supabase client and its credentials. The tables are in-memory fields. An exception raised by the database is not modelled.
- SHA-256 (`hash_content`, `hash_file`): the content hash of a download is an oracle's answer.
- Thread-pool concurrency: segments are processed one after another. `CircuitBreaker` has no lock, and the model makes no claim about concurrent use.
- ffmpeg, tqdm, feedparser, OpenAI, gTTS, Whisper and transformers. The model keeps only whether each render or transcode completes. The arguments and filters it would pass are modelled in `GpuDetector`.
- `get_system_info`, `get_memory_usage_percent`, `get_cpu_usage_percent`, `platform.system`, `os.cpu_count` and `subprocess`. Their values are inputs.
- Module-level configuration and environment loading, and `MAX_WORKERS`. The configuration values `process_segment` reads are given as a `SegmentConfig`.
- Pipeline.GenerateMediaForSegments: all segments use the same clock value, because the source runs them in parallel.
- Pipeline.RunPipelineJob: the seven step updates of the try block are written as one loop over the step names. A step's failure is the oracle `stageError`. The `error_log` is kept as a list value rather than its `json.dumps` text.
- Pipeline.MaxSummaryLength: `int(n * 0.6)` is modelled as the exact `3n/5` rounded down. The input is capped at 4000 characters, so it has at most 2000 words.
- Floats: percentages, gigabytes and durations are exact reals, and the health rate is an exact fraction.
- Lower-casing covers ASCII letters only. Whitespace splitting uses the full set of characters `str.split()` treats as whitespace (`Strings.IsSpace`).
- Database.Store.GetCachedTranscription: relies on one row per audio hash (the upsert key), so stamping `last_used_at` by audio hash touches that row only.
- The fallback-image download `create_fallback_image` swallows its own errors. Only the render of the still can fail.
- Pipeline.ProcessSegment: file existence (`Effects.pathExists`) is one fixed answer per path for the whole run. A file that the run itself writes or deletes, such as `temp{i}.dat`, does not change that answer.
- Database.Store.SaveTranscriptionCache: the segments are held as their `json.dumps` text, which is what the table stores and what `get_cached_transcription` returns; the encoding itself is not modelled.
- The legacy pipeline script and the setup checker are not part of this model.

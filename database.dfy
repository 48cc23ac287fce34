/**
 * The persistent store of the pipeline (`DatabaseClient`), held in memory.
 *
 * Each remote table becomes a field of `Store`: the media cache, the
 * API-call log and the render jobs are sequences of rows in insertion
 * order; the script and transcription caches, which are only ever
 * upserted and read by key, are maps. Every select/filter/order chain of
 * the client is a function over those rows, and every insert, update or
 * delete is a method that reassigns the field.
 *
 * Time is an integer number of milliseconds, read from a clock the
 * caller passes in as `now`.
 */
module Database {
  import opened Wrappers
  import opened Strings
  import opened Records

  const MsPerMinute: int := 60 * 1000
  const MsPerDay: int := 24 * 60 * MsPerMinute
  /** New cache rows expire 30 days after insertion. */
  const CacheRetentionMs: int := 30 * MsPerDay
  const DefaultQualityScore: int := 5

  // ---------------------------------------------------------------------
  // Query normalisation
  // ---------------------------------------------------------------------

  /** `_normalize_query`: lower-case, then re-join the whitespace-separated
      words with single spaces. */
  function NormalizeQuery(q: string): string
  {
    JoinWith(" ", Words(Lower(q)))
  }

  lemma LowerWordsAreLowerWords(q: string)
    ensures forall w :: w in Words(Lower(q)) ==> w != [] && NoSpace(w) && NoUpper(w)
  {
    var l := Lower(q);
    WordsAreWords(l);
    forall w, c | w in Words(l) && c in w ensures !IsUpper(c) {
      assert c in l;
    }
  }

  /** A normalised query holds no upper-case letter, uses ' ' as its only
      whitespace, and has no leading, trailing or doubled space. */
  lemma NormalizeQueryShape(q: string)
    ensures var r := NormalizeQuery(q);
      && NoUpper(r)
      && (forall i :: 0 <= i < |r| && IsSpace(r[i]) ==> r[i] == ' ')
      && (r != [] ==> r[0] != ' ' && r[|r| - 1] != ' ')
      && (forall i :: 0 <= i < |r| - 1 ==> !(r[i] == ' ' && r[i + 1] == ' '))
  {
    LowerWordsAreLowerWords(q);
    JoinShape(Words(Lower(q)));
    JoinNoUpper(Words(Lower(q)));
  }

  /** Normalisation keeps the words of the lower-cased query, in order. */
  lemma NormalizeQueryKeepsWords(q: string)
    ensures Words(NormalizeQuery(q)) == Words(Lower(q))
  {
    LowerWordsAreLowerWords(q);
    WordsOfJoin(Words(Lower(q)));
  }

  lemma NormalizeQueryIdempotent(q: string)
    ensures NormalizeQuery(NormalizeQuery(q)) == NormalizeQuery(q)
  {
    var ws := Words(Lower(q));
    var n := NormalizeQuery(q);
    LowerWordsAreLowerWords(q);
    JoinNoUpper(ws);
    assert forall i :: 0 <= i < |n| ==> !IsUpper(n[i]) by {
      forall i | 0 <= i < |n| ensures !IsUpper(n[i]) {
        assert n[i] in n;
      }
    }
    assert Lower(n) == n;
    WordsOfJoin(ws);
  }

  // ---------------------------------------------------------------------
  // Media cache rows and the lookup query
  // ---------------------------------------------------------------------

  datatype MediaEntry = MediaEntry(
    id: nat,
    query: string,
    source: string,
    mediaUrl: string,
    localPath: string,
    fileHash: string,
    mediaType: string,
    resolution: Option<string>,
    fileSize: int,
    qualityScore: int,
    useCount: int,
    lastUsedAt: Option<int>,
    expiresAt: int)

  /** `a` comes strictly before `b` under
      `order("quality_score", desc).order("use_count", desc)`. */
  predicate RanksAbove(a: MediaEntry, b: MediaEntry)
  {
    a.qualityScore > b.qualityScore
    || (a.qualityScore == b.qualityScore && a.useCount > b.useCount)
  }

  /** The filters of `get_cached_media`: the normalised query, not yet
      expired (`expires_at > now`) and, when a non-empty source is given,
      that source. */
  predicate MatchesLookup(e: MediaEntry, normalized: string, source: Option<string>, now: int)
  {
    && e.query == normalized
    && e.expiresAt > now
    && (source.Some? && source.value != "" ==> e.source == source.value)
  }

  /** The rows that pass the lookup filters, in table order. */
  function Candidates(rows: seq<MediaEntry>, normalized: string, source: Option<string>, now: int): (r: seq<MediaEntry>)
    ensures forall e :: e in r <==> e in rows && MatchesLookup(e, normalized, source, now)
  {
    if rows == [] then []
    else
      var rest := Candidates(rows[1..], normalized, source, now);
      assert forall e :: e in rows <==> e == rows[0] || e in rows[1..];
      if MatchesLookup(rows[0], normalized, source, now) then [rows[0]] + rest else rest
  }

  /** `limit(1)` after the two descending sorts: a highest-ranked row (the
      earliest one in table order among equals). */
  function Top(rows: seq<MediaEntry>): (r: Option<MediaEntry>)
    ensures r.None? <==> rows == []
    ensures r.Some? ==> r.value in rows && forall e :: e in rows ==> !RanksAbove(e, r.value)
  {
    if rows == [] then None
    else
      var best := Top(rows[1..]);
      assert forall e :: e in rows <==> e == rows[0] || e in rows[1..];
      if best.Some? && RanksAbove(best.value, rows[0]) then best else Some(rows[0])
  }

  /** What `get_cached_media` selects: `None` exactly when no row matches;
      otherwise a matching row that no matching row outranks. */
  function LookupMedia(rows: seq<MediaEntry>, query: string, source: Option<string>, now: int): (r: Option<MediaEntry>)
    ensures r.None? <==> forall e :: e in rows ==> !MatchesLookup(e, NormalizeQuery(query), source, now)
    ensures r.Some? ==> r.value in rows && MatchesLookup(r.value, NormalizeQuery(query), source, now)
    ensures r.Some? ==> forall e :: e in rows && MatchesLookup(e, NormalizeQuery(query), source, now) ==> !RanksAbove(e, r.value)
  {
    var c := Candidates(rows, NormalizeQuery(query), source, now);
    var t := Top(c);
    assert t.None? ==> c == [];
    t
  }

  /** A row after one hit at time `now`. */
  function Bumped(e: MediaEntry, now: int): MediaEntry
  {
    e.(useCount := e.useCount + 1, lastUsedAt := Some(now))
  }

  /** The update of a cache hit: the rows whose id is the hit's get
      `use_count = hit.use_count + 1` and `last_used_at = now`. */
  function Bump(rows: seq<MediaEntry>, hit: MediaEntry, now: int): (r: seq<MediaEntry>)
  {
    seq(|rows|, i requires 0 <= i < |rows| =>
      if rows[i].id == hit.id then rows[i].(useCount := hit.useCount + 1, lastUsedAt := Some(now))
      else rows[i])
  }

  /** Row ids and content hashes are each unique; every id is below `nextId`. */
  predicate KeysDistinct(rows: seq<MediaEntry>, nextId: nat)
  {
    && (forall i :: 0 <= i < |rows| ==> rows[i].id < nextId)
    && (forall i, j :: 0 <= i < j < |rows| ==> rows[i].id != rows[j].id)
    && (forall i, j :: 0 <= i < j < |rows| ==> rows[i].fileHash != rows[j].fileHash)
  }

  /** A cache hit changes exactly the hit row, in place: its use count goes
      up by one and its last-used time becomes `now`; every other row and
      every id and hash stay as they were. */
  lemma BumpChangesOnlyHit(rows: seq<MediaEntry>, nextId: nat, k: nat, now: int)
    requires KeysDistinct(rows, nextId)
    requires k < |rows|
    ensures var r := Bump(rows, rows[k], now);
      && |r| == |rows|
      && r[k] == Bumped(rows[k], now)
      && (forall i :: 0 <= i < |rows| && i != k ==> r[i] == rows[i])
      && KeysDistinct(r, nextId)
  {
    var r := Bump(rows, rows[k], now);
    forall i | 0 <= i < |rows| && i != k ensures r[i] == rows[i] {
      if i < k {
        assert rows[i].id != rows[k].id;
      } else {
        assert rows[k].id != rows[i].id;
      }
    }
  }

  /** A matching row that outranks every other matching row is the one the
      lookup selects. */
  lemma LookupSelectsStrictBest(rows: seq<MediaEntry>, query: string, source: Option<string>, now: int, x: MediaEntry)
    requires x in rows && MatchesLookup(x, NormalizeQuery(query), source, now)
    requires forall e :: e in rows && MatchesLookup(e, NormalizeQuery(query), source, now) && e != x ==> RanksAbove(x, e)
    ensures LookupMedia(rows, query, source, now) == Some(x)
  {
    var t := LookupMedia(rows, query, source, now);
    assert t.Some? && !RanksAbove(x, t.value);
  }

  /** After a hit on the selected row, the bumped row outranks every other
      matching row. */
  lemma BumpedOutranksMatches(rows: seq<MediaEntry>, nextId: nat, k: nat, query: string, source: Option<string>, now: int)
    requires KeysDistinct(rows, nextId) && k < |rows|
    requires LookupMedia(rows, query, source, now) == Some(rows[k])
    ensures var r := Bump(rows, rows[k], now);
      forall e :: e in r && MatchesLookup(e, NormalizeQuery(query), source, now) && e != Bumped(rows[k], now) ==>
        RanksAbove(Bumped(rows[k], now), e)
  {
    BumpChangesOnlyHit(rows, nextId, k, now);
    var r := Bump(rows, rows[k], now);
    forall e | e in r && MatchesLookup(e, NormalizeQuery(query), source, now) && e != Bumped(rows[k], now)
      ensures RanksAbove(Bumped(rows[k], now), e)
    {
      var i :| 0 <= i < |r| && r[i] == e;
      assert r[i] == rows[i] && rows[i] in rows;
    }
  }

  /** The media cache after `get_cached_media(query, source)`: the hit,
      if any, bumped. */
  function Touched(rows: seq<MediaEntry>, query: string, source: Option<string>, now: int): seq<MediaEntry>
  {
    var hit := LookupMedia(rows, query, source, now);
    if hit.Some? then Bump(rows, hit.value, now) else rows
  }

  /** Right after a hit is recorded, the same lookup selects the same row
      again, now carrying its new usage: the bump only lifts it further
      above the other matches. */
  lemma LookupAfterBump(rows: seq<MediaEntry>, nextId: nat, query: string, source: Option<string>, now: int)
    requires KeysDistinct(rows, nextId)
    requires LookupMedia(rows, query, source, now).Some?
    ensures var hit := LookupMedia(rows, query, source, now).value;
      LookupMedia(Bump(rows, hit, now), query, source, now) == Some(Bumped(hit, now))
  {
    var hit := LookupMedia(rows, query, source, now).value;
    var k :| 0 <= k < |rows| && rows[k] == hit;
    BumpChangesOnlyHit(rows, nextId, k, now);
    BumpedOutranksMatches(rows, nextId, k, query, source, now);
    var r := Bump(rows, hit, now);
    assert r[k] == Bumped(hit, now);
    LookupSelectsStrictBest(r, query, source, now, Bumped(hit, now));
  }

  /** `select("id").eq("file_hash", h)` followed by `data[0]`. */
  function FindByHash(rows: seq<MediaEntry>, fileHash: string): (r: Option<MediaEntry>)
    ensures r.None? <==> forall e :: e in rows ==> e.fileHash != fileHash
    ensures r.Some? ==> r.value in rows && r.value.fileHash == fileHash
  {
    if rows == [] then None
    else if rows[0].fileHash == fileHash then Some(rows[0])
    else
      assert forall e :: e in rows <==> e == rows[0] || e in rows[1..];
      FindByHash(rows[1..], fileHash)
  }

  /** Appending a row whose hash is not yet present, with a fresh id, keeps
      ids and hashes unique. */
  lemma InsertKeepsKeysDistinct(rows: seq<MediaEntry>, nextId: nat, e: MediaEntry)
    requires KeysDistinct(rows, nextId)
    requires FindByHash(rows, e.fileHash).None?
    requires e.id == nextId
    ensures KeysDistinct(rows + [e], nextId + 1)
  {
    var r := rows + [e];
    forall i, j | 0 <= i < j < |r| ensures r[i].fileHash != r[j].fileHash {
      if j == |rows| {
        assert r[i] in rows;
      }
    }
  }

  /** The rows `cleanup_expired_cache` keeps: `delete().lt("expires_at", now)`
      removes exactly those with `expires_at < now`. */
  function Unexpired(rows: seq<MediaEntry>, now: int): (r: seq<MediaEntry>)
    ensures forall e :: e in r <==> e in rows && e.expiresAt >= now
    ensures |r| <= |rows|
  {
    if rows == [] then []
    else
      var rest := Unexpired(rows[1..], now);
      assert forall e :: e in rows <==> e == rows[0] || e in rows[1..];
      if rows[0].expiresAt < now then rest else [rows[0]] + rest
  }

  /** Putting a row in front keeps ids and hashes unique when its id is
      below the counter and no row has its id or its hash. */
  lemma ConsKeysDistinct(e: MediaEntry, rows: seq<MediaEntry>, nextId: nat)
    requires KeysDistinct(rows, nextId) && e.id < nextId
    requires forall x :: x in rows ==> x.id != e.id && x.fileHash != e.fileHash
    ensures KeysDistinct([e] + rows, nextId)
  {
    var r := [e] + rows;
    assert forall i :: 0 < i < |r| ==> r[i] == rows[i - 1];
    assert forall j :: 0 < j < |r| ==> r[j] in rows;
  }

  lemma {:induction false} UnexpiredKeepsKeysDistinct(rows: seq<MediaEntry>, nextId: nat, now: int)
    requires KeysDistinct(rows, nextId)
    ensures KeysDistinct(Unexpired(rows, now), nextId)
    decreases |rows|
  {
    if rows != [] {
      assert KeysDistinct(rows[1..], nextId);
      UnexpiredKeepsKeysDistinct(rows[1..], nextId, now);
      var rest := Unexpired(rows[1..], now);
      if rows[0].expiresAt >= now {
        forall x | x in rest ensures x.id != rows[0].id && x.fileHash != rows[0].fileHash {
          var k :| 0 <= k < |rows[1..]| && rows[1..][k] == x;
          assert rows[k + 1] == x;
        }
        ConsKeysDistinct(rows[0], rest, nextId);
      }
    }
  }

  /** A row that expires exactly now survives the sweep, yet lookups no
      longer return it. */
  lemma ExpiringNowIsKeptButNotServed(rows: seq<MediaEntry>, e: MediaEntry, query: string, source: Option<string>, now: int)
    requires e in rows && e.expiresAt == now
    ensures e in Unexpired(rows, now)
    ensures LookupMedia(rows, query, source, now) != Some(e)
  {
  }

  // ---------------------------------------------------------------------
  // API-call log and the health summary
  // ---------------------------------------------------------------------

  datatype CallRecord = CallRecord(
    source: string,
    query: string,
    success: bool,
    responseTimeMs: int,
    errorMessage: Option<string>,
    createdAt: int)

  /** `eq("source", s).gt("created_at", cutoff)` over the call log. */
  function WindowCalls(calls: seq<CallRecord>, source: string, cutoff: int): (r: seq<CallRecord>)
    ensures forall c :: c in r <==> c in calls && c.source == source && c.createdAt > cutoff
    ensures |r| <= |calls|
  {
    if calls == [] then []
    else
      var rest := WindowCalls(calls[1..], source, cutoff);
      assert forall c :: c in calls <==> c == calls[0] || c in calls[1..];
      if calls[0].source == source && calls[0].createdAt > cutoff then [calls[0]] + rest else rest
  }

  function CountSuccesses(calls: seq<CallRecord>): nat
  {
    if calls == [] then 0 else (if calls[0].success then 1 else 0) + CountSuccesses(calls[1..])
  }

  function SumResponseTimes(calls: seq<CallRecord>): int
  {
    if calls == [] then 0 else calls[0].responseTimeMs + SumResponseTimes(calls[1..])
  }

  /** The successes never outnumber the calls, and they equal the calls
      exactly when every call succeeded. */
  lemma {:induction false} CountSuccessesBound(calls: seq<CallRecord>)
    ensures CountSuccesses(calls) <= |calls|
    ensures CountSuccesses(calls) == |calls| <==> forall c :: c in calls ==> c.success
    decreases |calls|
  {
    if calls != [] {
      CountSuccessesBound(calls[1..]);
      assert forall c :: c in calls <==> c == calls[0] || c in calls[1..];
    }
  }

  /** An exact fraction `num / den` with `den > 0`: the floats of the
      health summary. */
  datatype Ratio = Ratio(num: int, den: nat)

  /** `r < num / den` for positive denominators. */
  predicate Below(r: Ratio, num: int, den: nat)
  {
    r.num * den < num * r.den
  }

  datatype Health = Health(successRate: Ratio, avgResponseTime: Ratio, totalCalls: nat)

  /** `get_api_health`: over the calls of `source` created in the last
      `minutes` minutes; a source with no such calls reports a success rate
      of 1, an average of 0 and no calls. */
  function ApiHealth(calls: seq<CallRecord>, source: string, minutes: int, now: int): (h: Health)
    ensures var w := WindowCalls(calls, source, now - minutes * MsPerMinute);
      && h.totalCalls == |w|
      && h.successRate.den > 0 && 0 <= h.successRate.num <= h.successRate.den
      && h.avgResponseTime.den > 0
      && (w == [] ==> h == Health(Ratio(1, 1), Ratio(0, 1), 0))
      && (w != [] ==> h.successRate == Ratio(CountSuccesses(w), |w|)
                      && h.avgResponseTime == Ratio(SumResponseTimes(w), |w|))
  {
    var w := WindowCalls(calls, source, now - minutes * MsPerMinute);
    CountSuccessesBound(w);
    if w == [] then Health(Ratio(1, 1), Ratio(0, 1), 0)
    else Health(Ratio(CountSuccesses(w), |w|), Ratio(SumResponseTimes(w), |w|), |w|)
  }

  /** Calls outside the window, or for another source, do not change the
      health of `source`. */
  lemma {:induction false} HealthIgnoresOtherCalls(calls: seq<CallRecord>, c: CallRecord, source: string, minutes: int, now: int)
    requires c.source != source || c.createdAt <= now - minutes * MsPerMinute
    ensures ApiHealth(calls + [c], source, minutes, now) == ApiHealth(calls, source, minutes, now)
  {
    WindowAppendOutside(calls, c, source, now - minutes * MsPerMinute);
  }

  lemma {:induction false} WindowAppendOutside(calls: seq<CallRecord>, c: CallRecord, source: string, cutoff: int)
    requires c.source != source || c.createdAt <= cutoff
    ensures WindowCalls(calls + [c], source, cutoff) == WindowCalls(calls, source, cutoff)
    decreases |calls|
  {
    if calls == [] {
      assert [] + [c] == [c];
      assert [c][1..] == [];
    } else {
      assert (calls + [c])[1..] == calls[1..] + [c];
      WindowAppendOutside(calls[1..], c, source, cutoff);
    }
  }

  // ---------------------------------------------------------------------
  // Render jobs and the script / transcription caches
  // ---------------------------------------------------------------------

  datatype RenderJob = RenderJob(id: nat, fields: Record)

  /** `update(updates).eq("id", jobId)` where `updates` already carries
      `updated_at`: matching jobs get the given keys overwritten, every other
      key and every other job stays. */
  function ApplyJobUpdate(jobs: seq<RenderJob>, jobId: nat, updates: Record): (r: seq<RenderJob>)
    ensures |r| == |jobs|
    ensures forall i :: 0 <= i < |jobs| ==> r[i].id == jobs[i].id
    ensures forall i :: 0 <= i < |jobs| && jobs[i].id != jobId ==> r[i] == jobs[i]
    ensures forall i, k :: 0 <= i < |jobs| && jobs[i].id == jobId && k in updates ==> k in r[i].fields && r[i].fields[k] == updates[k]
    ensures forall i, k :: 0 <= i < |jobs| && jobs[i].id == jobId && k !in updates && k in jobs[i].fields ==> k in r[i].fields && r[i].fields[k] == jobs[i].fields[k]
    ensures forall i :: 0 <= i < |jobs| ==> r[i].fields.Keys == jobs[i].fields.Keys + (if jobs[i].id == jobId then updates.Keys else {})
  {
    seq(|jobs|, i requires 0 <= i < |jobs| =>
      if jobs[i].id == jobId then jobs[i].(fields := Update(jobs[i].fields, updates)) else jobs[i])
  }

  function InitialJobFields(jobName: string, mode: string, now: int): (f: Record)
    ensures f.Keys == {"job_name", "mode", "status", "started_at"}
    ensures f["status"] == Str("pending")
  {
    map["job_name" := Str(jobName), "mode" := Str(mode), "status" := Str("pending"), "started_at" := Int(now)]
  }

  datatype ScriptEntry = ScriptEntry(scriptText: string, model: string, wordCount: int, lastUsedAt: Option<int>)

  /** Upsert keyed by `articles_hash`: the given columns replace the stored
      ones; `last_used_at`, which the upsert does not name, survives. */
  function UpsertScript(t: map<string, ScriptEntry>, articlesHash: string, scriptText: string, model: string, wordCount: int): (r: map<string, ScriptEntry>)
    ensures r.Keys == t.Keys + {articlesHash}
    ensures r[articlesHash].scriptText == scriptText && r[articlesHash].model == model && r[articlesHash].wordCount == wordCount
    ensures articlesHash in t ==> r[articlesHash].lastUsedAt == t[articlesHash].lastUsedAt
    ensures articlesHash !in t ==> r[articlesHash].lastUsedAt.None?
    ensures forall h :: h in t && h != articlesHash ==> r[h] == t[h]
  {
    var kept := if articlesHash in t then t[articlesHash].lastUsedAt else None;
    t[articlesHash := ScriptEntry(scriptText, model, wordCount, kept)]
  }

  datatype TranscriptionEntry = TranscriptionEntry(model: string, segments: string, durationSec: int, lastUsedAt: Option<int>)

  /** Upsert keyed by `audio_hash`: the given columns replace the stored
      ones; `last_used_at` survives. */
  function UpsertTranscription(t: map<string, TranscriptionEntry>, audioHash: string, model: string, segments: string, durationSec: int): (r: map<string, TranscriptionEntry>)
    ensures r.Keys == t.Keys + {audioHash}
    ensures r[audioHash].model == model && r[audioHash].segments == segments && r[audioHash].durationSec == durationSec
    ensures audioHash in t ==> r[audioHash].lastUsedAt == t[audioHash].lastUsedAt
    ensures audioHash !in t ==> r[audioHash].lastUsedAt.None?
    ensures forall h :: h in t && h != audioHash ==> r[h] == t[h]
  {
    var kept := if audioHash in t then t[audioHash].lastUsedAt else None;
    t[audioHash := TranscriptionEntry(model, segments, durationSec, kept)]
  }

  /** The select of `get_cached_transcription`: a row for this audio hash
      made with this model. */
  function LookupTranscription(t: map<string, TranscriptionEntry>, audioHash: string, model: string): (r: Option<string>)
    ensures r.Some? <==> audioHash in t && t[audioHash].model == model
  {
    if audioHash in t && t[audioHash].model == model then Some(t[audioHash].segments) else None
  }

  /** Saving a transcription and reading it back with the same model
      returns what was saved; a read with another model misses. */
  lemma TranscriptionRoundTrip(t: map<string, TranscriptionEntry>, audioHash: string, model: string, other: string, segments: string, durationSec: int)
    requires other != model
    ensures LookupTranscription(UpsertTranscription(t, audioHash, model, segments, durationSec), audioHash, model) == Some(segments)
    ensures LookupTranscription(UpsertTranscription(t, audioHash, model, segments, durationSec), audioHash, other) == None
  {
  }

  // ---------------------------------------------------------------------
  // The store
  // ---------------------------------------------------------------------

  class Store {
    var mediaCache: seq<MediaEntry>
    var nextMediaId: nat
    var apiCalls: seq<CallRecord>
    var renderJobs: seq<RenderJob>
    var nextJobId: nat
    var scriptCache: map<string, ScriptEntry>
    var transcriptionCache: map<string, TranscriptionEntry>

    ghost predicate Valid()
      reads this
    {
      && KeysDistinct(mediaCache, nextMediaId)
      && (forall i :: 0 <= i < |renderJobs| ==> renderJobs[i].id < nextJobId)
    }

    /** Every table except the API-call log. */
    function OtherTables(): (seq<MediaEntry>, nat, seq<RenderJob>, nat, map<string, ScriptEntry>, map<string, TranscriptionEntry>)
      reads this
    {
      (mediaCache, nextMediaId, renderJobs, nextJobId, scriptCache, transcriptionCache)
    }

    constructor ()
      ensures Valid()
      ensures mediaCache == [] && apiCalls == [] && renderJobs == []
      ensures scriptCache == map[] && transcriptionCache == map[]
    {
      mediaCache, nextMediaId := [], 0;
      apiCalls := [];
      renderJobs, nextJobId := [], 0;
      scriptCache, transcriptionCache := map[], map[];
    }

    /** `get_cached_media`: the selected row as it was before the hit was
        recorded; on a hit only that row's usage changes. */
    method GetCachedMedia(query: string, source: Option<string>, now: int) returns (r: Option<MediaEntry>)
      requires Valid()
      modifies this
      ensures Valid()
      ensures r == LookupMedia(old(mediaCache), query, source, now)
      ensures r.None? ==> mediaCache == old(mediaCache)
      ensures r.Some? ==> mediaCache == Bump(old(mediaCache), r.value, now)
      ensures mediaCache == Touched(old(mediaCache), query, source, now)
      ensures nextMediaId == old(nextMediaId) && apiCalls == old(apiCalls) && renderJobs == old(renderJobs)
      ensures nextJobId == old(nextJobId)
      ensures scriptCache == old(scriptCache) && transcriptionCache == old(transcriptionCache)
    {
      var normalized := NormalizeQuery(query);
      var matches := Candidates(mediaCache, normalized, source, now);
      r := Top(matches);
      if r.Some? {
        var k :| 0 <= k < |mediaCache| && mediaCache[k] == r.value;
        BumpChangesOnlyHit(mediaCache, nextMediaId, k, now);
        mediaCache := Bump(mediaCache, r.value, now);
      }
    }

    /** `save_media_cache`: returns the id of the row holding this content
        hash, inserting one only when there is none yet. */
    method SaveMediaCache(query: string, source: string, mediaUrl: string, localPath: string,
                          fileHash: string, mediaType: string, resolution: Option<string>,
                          fileSize: int, qualityScore: int, now: int) returns (id: nat)
      requires Valid()
      modifies this
      ensures Valid()
      ensures match FindByHash(old(mediaCache), fileHash)
        case Some(e) => id == e.id && mediaCache == old(mediaCache) && nextMediaId == old(nextMediaId)
        case None =>
          && id == old(nextMediaId) && nextMediaId == id + 1
          && mediaCache == old(mediaCache) + [MediaEntry(id, NormalizeQuery(query), source, mediaUrl, localPath,
                                                         fileHash, mediaType, resolution, fileSize, qualityScore,
                                                         0, None, now + CacheRetentionMs)]
      ensures apiCalls == old(apiCalls) && renderJobs == old(renderJobs) && nextJobId == old(nextJobId)
      ensures scriptCache == old(scriptCache) && transcriptionCache == old(transcriptionCache)
    {
      var normalized := NormalizeQuery(query);
      var existing := FindByHash(mediaCache, fileHash);
      if existing.Some? {
        return existing.value.id;
      }
      id := nextMediaId;
      var e := MediaEntry(id, normalized, source, mediaUrl, localPath, fileHash, mediaType,
                          resolution, fileSize, qualityScore, 0, None, now + CacheRetentionMs);
      InsertKeepsKeysDistinct(mediaCache, nextMediaId, e);
      mediaCache := mediaCache + [e];
      nextMediaId := nextMediaId + 1;
    }

    /** `track_api_call`: appends one record to the call log. */
    method TrackApiCall(source: string, query: string, success: bool, responseTimeMs: int,
                        errorMessage: Option<string>, now: int)
      requires Valid()
      modifies this
      ensures Valid()
      ensures apiCalls == old(apiCalls) + [CallRecord(source, query, success, responseTimeMs, errorMessage, now)]
      ensures mediaCache == old(mediaCache) && nextMediaId == old(nextMediaId)
      ensures renderJobs == old(renderJobs) && nextJobId == old(nextJobId)
      ensures scriptCache == old(scriptCache) && transcriptionCache == old(transcriptionCache)
    {
      apiCalls := apiCalls + [CallRecord(source, query, success, responseTimeMs, errorMessage, now)];
    }

    /** `create_render_job`: a new job in status `pending`. */
    method CreateRenderJob(jobName: string, mode: string, now: int) returns (id: nat)
      requires Valid()
      modifies this
      ensures Valid()
      ensures id == old(nextJobId) && nextJobId == id + 1
      ensures renderJobs == old(renderJobs) + [RenderJob(id, InitialJobFields(jobName, mode, now))]
      ensures forall i :: 0 <= i < |old(renderJobs)| ==> renderJobs[i].id != id
      ensures mediaCache == old(mediaCache) && nextMediaId == old(nextMediaId) && apiCalls == old(apiCalls)
      ensures scriptCache == old(scriptCache) && transcriptionCache == old(transcriptionCache)
    {
      id := nextJobId;
      renderJobs := renderJobs + [RenderJob(id, InitialJobFields(jobName, mode, now))];
      nextJobId := nextJobId + 1;
    }

    /** `update_render_job`: the given keys plus `updated_at` on the job
        with this id. */
    method UpdateRenderJob(jobId: nat, updates: Record, now: int)
      requires Valid()
      modifies this
      ensures Valid()
      ensures renderJobs == ApplyJobUpdate(old(renderJobs), jobId, updates["updated_at" := Int(now)])
      ensures nextJobId == old(nextJobId)
      ensures mediaCache == old(mediaCache) && nextMediaId == old(nextMediaId) && apiCalls == old(apiCalls)
      ensures scriptCache == old(scriptCache) && transcriptionCache == old(transcriptionCache)
    {
      renderJobs := ApplyJobUpdate(renderJobs, jobId, updates["updated_at" := Int(now)]);
    }

    /** `get_cached_script`: on a hit, returns the stored text and stamps
        `last_used_at`. */
    method GetCachedScript(articlesHash: string, now: int) returns (r: Option<string>)
      requires Valid()
      modifies this
      ensures Valid()
      ensures articlesHash in old(scriptCache) ==>
        && r == Some(old(scriptCache)[articlesHash].scriptText)
        && scriptCache == old(scriptCache)[articlesHash := old(scriptCache)[articlesHash].(lastUsedAt := Some(now))]
      ensures articlesHash !in old(scriptCache) ==> r == None && scriptCache == old(scriptCache)
      ensures mediaCache == old(mediaCache) && nextMediaId == old(nextMediaId) && apiCalls == old(apiCalls)
      ensures renderJobs == old(renderJobs) && nextJobId == old(nextJobId)
      ensures transcriptionCache == old(transcriptionCache)
    {
      if articlesHash in scriptCache {
        var row := scriptCache[articlesHash];
        scriptCache := scriptCache[articlesHash := row.(lastUsedAt := Some(now))];
        r := Some(row.scriptText);
      } else {
        r := None;
      }
    }

    method SaveScriptCache(articlesHash: string, scriptText: string, model: string, wordCount: int)
      requires Valid()
      modifies this
      ensures Valid()
      ensures scriptCache == UpsertScript(old(scriptCache), articlesHash, scriptText, model, wordCount)
      ensures mediaCache == old(mediaCache) && nextMediaId == old(nextMediaId) && apiCalls == old(apiCalls)
      ensures renderJobs == old(renderJobs) && nextJobId == old(nextJobId)
      ensures transcriptionCache == old(transcriptionCache)
    {
      scriptCache := UpsertScript(scriptCache, articlesHash, scriptText, model, wordCount);
    }

    /** `get_cached_transcription`: a hit stamps `last_used_at` on the row
        of this audio hash. */
    method GetCachedTranscription(audioHash: string, model: string, now: int) returns (r: Option<string>)
      requires Valid()
      modifies this
      ensures Valid()
      ensures r == LookupTranscription(old(transcriptionCache), audioHash, model)
      ensures r.Some? ==> transcriptionCache == old(transcriptionCache)[audioHash := old(transcriptionCache)[audioHash].(lastUsedAt := Some(now))]
      ensures r.None? ==> transcriptionCache == old(transcriptionCache)
      ensures mediaCache == old(mediaCache) && nextMediaId == old(nextMediaId) && apiCalls == old(apiCalls)
      ensures renderJobs == old(renderJobs) && nextJobId == old(nextJobId)
      ensures scriptCache == old(scriptCache)
    {
      r := LookupTranscription(transcriptionCache, audioHash, model);
      if r.Some? {
        var row := transcriptionCache[audioHash];
        transcriptionCache := transcriptionCache[audioHash := row.(lastUsedAt := Some(now))];
      }
    }

    method SaveTranscriptionCache(audioHash: string, model: string, segments: string, durationSec: int)
      requires Valid()
      modifies this
      ensures Valid()
      ensures transcriptionCache == UpsertTranscription(old(transcriptionCache), audioHash, model, segments, durationSec)
      ensures mediaCache == old(mediaCache) && nextMediaId == old(nextMediaId) && apiCalls == old(apiCalls)
      ensures renderJobs == old(renderJobs) && nextJobId == old(nextJobId)
      ensures scriptCache == old(scriptCache)
    {
      transcriptionCache := UpsertTranscription(transcriptionCache, audioHash, model, segments, durationSec);
    }

    /** `cleanup_expired_cache`: deletes exactly the rows with
        `expires_at < now`. */
    method CleanupExpiredCache(now: int)
      requires Valid()
      modifies this
      ensures Valid()
      ensures mediaCache == Unexpired(old(mediaCache), now)
      ensures nextMediaId == old(nextMediaId) && apiCalls == old(apiCalls)
      ensures renderJobs == old(renderJobs) && nextJobId == old(nextJobId)
      ensures scriptCache == old(scriptCache) && transcriptionCache == old(transcriptionCache)
    {
      UnexpiredKeepsKeysDistinct(mediaCache, nextMediaId, now);
      mediaCache := Unexpired(mediaCache, now);
    }
  }
}

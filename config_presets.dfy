/**
 * Rendering presets (`config_presets.py`): five named configurations, in a
 * fixed order, from fastest to highest quality, with lookup, merging of a
 * custom configuration over a preset, listing and descriptions. Dictionaries
 * are values here, so the copy `get_preset` returns can never alias the
 * table.
 */
module ConfigPresets {
  import opened Wrappers
  import opened Strings
  import opened Records

  /** The settings in which the presets differ; the three cache switches
      are on in every preset. */
  datatype PresetConfig = PresetConfig(
    resolution: string,
    preset: string,
    crf: string,
    useKenBurns: bool,
    maxWorkers: int,
    articlesPerFeed: int,
    transitionType: string,
    transitionDuration: real,
    preferCached: bool,
    skipQualityCheck: bool)

  /** A preset as its dictionary (a map, so the order of the keys plays no
      part). */
  function ToRecord(c: PresetConfig): Record
  {
    map[
      "resolution" := Str(c.resolution),
      "preset" := Str(c.preset),
      "use_ken_burns" := Bool(c.useKenBurns),
      "articles_per_feed" := Int(c.articlesPerFeed),
      "transition_type" := Str(c.transitionType),
      "transition_duration" := Real(c.transitionDuration),
      "enable_transcription_cache" := Bool(true),
      "enable_media_cache" := Bool(true),
      "enable_script_cache" := Bool(true),
      "prefer_cached" := Bool(c.preferCached),
      "skip_quality_check" := Bool(c.skipQualityCheck),
      "crf" := Str(c.crf),
      "max_workers" := Int(c.maxWorkers)
    ]
  }

  /** `PRESETS`, in its insertion order. */
  const Presets: seq<(string, PresetConfig)> := [
    ("ultra_fast", PresetConfig("640x360", "ultrafast", "30", false, 8, 1, "fade", 0.3, true, true)),
    ("fast", PresetConfig("854x480", "veryfast", "28", false, 6, 2, "fade", 0.5, true, false)),
    ("balanced", PresetConfig("1280x720", "medium", "23", true, 4, 3, "fade", 0.8, false, false)),
    ("hq", PresetConfig("1920x1080", "slow", "20", true, 3, 5, "fadeblack", 1.0, false, false)),
    ("production", PresetConfig("1920x1080", "slower", "18", true, 2, 5, "circleopen", 1.2, false, false))
  ]

  /** The keys every preset defines. */
  const PresetKeys: set<string> := {
    "resolution", "preset", "crf", "use_ken_burns", "max_workers", "articles_per_feed",
    "transition_type", "transition_duration", "enable_transcription_cache",
    "enable_media_cache", "enable_script_cache", "prefer_cached", "skip_quality_check"
  }

  /** `list_presets` */
  function ListPresets(): (names: seq<string>)
    ensures |names| == |Presets|
    ensures forall i :: 0 <= i < |names| ==> names[i] == Presets[i].0
    ensures names == ["ultra_fast", "fast", "balanced", "hq", "production"]
  {
    seq(|Presets|, i requires 0 <= i < |Presets| => Presets[i].0)
  }

  /** Python's `repr` of a list of quote-free strings: `['a', 'b']`. */
  function ListRepr(names: seq<string>): string
  {
    "[" + JoinWith(", ", seq(|names|, i requires 0 <= i < |names| => "'" + names[i] + "'")) + "]"
  }

  /** The dictionary stored under `name` in `entries`, if any. */
  function Find(entries: seq<(string, PresetConfig)>, name: string): (r: Option<PresetConfig>)
    ensures r.Some? <==> exists i :: 0 <= i < |entries| && entries[i].0 == name
    ensures r.Some? ==> exists i :: 0 <= i < |entries| && entries[i] == (name, r.value)
  {
    if entries == [] then None
    else if entries[0].0 == name then Some(entries[0].1)
    else
      var r := Find(entries[1..], name);
      assert forall i :: 0 < i < |entries| ==> entries[i] == entries[1..][i - 1];
      r
  }

  /** `get_preset`: a copy of the named preset, or the `ValueError` for an
      unknown name. */
  function GetPreset(name: string): (r: Result<Record>)
    ensures r.Success? <==> name in ListPresets()
    ensures r.Success? ==> exists i :: 0 <= i < |Presets| && Presets[i].0 == name && r.value == ToRecord(Presets[i].1)
    ensures r.Failure? ==> r.error == "Unknown preset: " + name + ". Available: " + ListRepr(ListPresets())
  {
    match Find(Presets, name)
    case Some(p) => Success(ToRecord(p))
    case None => Failure("Unknown preset: " + name + ". Available: " + ListRepr(ListPresets()))
  }

  /** `merge_with_preset`: the preset with the custom entries written over
      it; an unknown preset name fails whatever the custom configuration. */
  function MergeWithPreset(presetName: string, custom: Record): (r: Result<Record>)
    ensures r.Failure? <==> presetName !in ListPresets()
    ensures r.Failure? ==> r == Failure(GetPreset(presetName).error)
    ensures r.Success? ==>
      var p := GetPreset(presetName).value;
      && r.value.Keys == p.Keys + custom.Keys
      && (forall k :: k in custom ==> r.value[k] == custom[k])
      && (forall k :: k in p && k !in custom ==> r.value[k] == p[k])
  {
    match GetPreset(presetName)
    case Failure(e) => Failure(e)
    case Success(p) => Success(Update(p, custom))
  }

  /** Merging an empty custom configuration gives the preset itself. */
  lemma MergeEmptyIsPreset(presetName: string)
    ensures MergeWithPreset(presetName, map[]) == GetPreset(presetName)
  {
    match GetPreset(presetName)
    case Failure(_) =>
    case Success(p) => assert Update(p, map[]) == p;
  }

  /** The dictionary of any preset has the preset keys, with its worker count
      and CRF under `max_workers` and `crf`. */
  lemma RecordOfPreset(c: PresetConfig)
    ensures ToRecord(c).Keys == PresetKeys
    ensures ToRecord(c)["max_workers"] == Int(c.maxWorkers) && ToRecord(c)["crf"] == Str(c.crf)
  {
  }

  /** Every preset defines exactly the same keys. */
  lemma AllPresetsHaveTheSameKeys(name: string)
    requires name in ListPresets()
    ensures GetPreset(name).value.Keys == PresetKeys
  {
    var i :| 0 <= i < |Presets| && Presets[i].0 == name && GetPreset(name).value == ToRecord(Presets[i].1);
    RecordOfPreset(Presets[i].1);
  }

  /** The `max_workers` of the `i`-th preset, in listed order. */
  function MaxWorkersAt(i: nat): int
    requires i < |Presets|
  {
    match ToRecord(Presets[i].1)["max_workers"]
    case Int(n) => n
    case _ => 0
  }

  /** The numeric `crf` of the `i`-th preset, in listed order. */
  function CrfAt(i: nat): Option<nat>
    requires i < |Presets|
  {
    match ToRecord(Presets[i].1)["crf"]
    case Str(s) => ParseDecimal(s)
    case _ => None
  }

  /** Read through its dictionary, a preset's `max_workers` and `crf` are
      its own settings. */
  lemma PresetRowNumbers(i: nat)
    requires i < |Presets|
    ensures MaxWorkersAt(i) == Presets[i].1.maxWorkers && CrfAt(i) == ParseDecimal(Presets[i].1.crf)
  {
    RecordOfPreset(Presets[i].1);
  }

  /** The CRF strings of the presets as numbers. */
  lemma CrfValues()
    ensures ParseDecimal("30") == Some(30) && ParseDecimal("28") == Some(28) && ParseDecimal("23") == Some(23)
    ensures ParseDecimal("20") == Some(20) && ParseDecimal("18") == Some(18)
  {
    assert "30"[..1] == "3" && "28"[..1] == "2" && "23"[..1] == "2" && "20"[..1] == "2" && "18"[..1] == "1";
  }

  /** From `ultra_fast` to `production`, fewer workers and a lower CRF
      (higher quality): both strictly decrease. */
  lemma QualityIncreasesAlongTheList(i: nat, j: nat)
    requires i < j < |Presets|
    ensures MaxWorkersAt(i) > MaxWorkersAt(j)
    ensures CrfAt(i).Some? && CrfAt(j).Some? && CrfAt(i).value > CrfAt(j).value
  {
    PresetRowNumbers(i);
    PresetRowNumbers(j);
    CrfValues();
    assert i == 0 || i == 1 || i == 2 || i == 3;
    assert j == 1 || j == 2 || j == 3 || j == 4;
  }

  /** The `descriptions` table of `get_preset_description`. */
  const Descriptions: map<string, string> := map[
    "ultra_fast" := "Lowest quality, fastest render. Good for testing pipeline. 360p, no effects.",
    "fast" := "Low quality, fast render. Quick previews. 480p, basic transitions.",
    "balanced" := "Good quality-speed balance. Recommended for most use cases. 720p, Ken Burns.",
    "hq" := "High quality, slower render. Great for final videos. 1080p, smooth effects.",
    "production" := "Highest quality, slowest render. Professional output. 1080p, best settings."
  ]

  const NoDescription := "No description available"

  /** `get_preset_description` */
  function GetPresetDescription(name: string): string
  {
    if name in Descriptions then Descriptions[name] else NoDescription
  }

  /** Exactly the listed presets have a description of their own; any
      other name gets the default text instead of an error. */
  lemma DescriptionsCoverThePresets(name: string)
    ensures name in ListPresets() <==> GetPresetDescription(name) != NoDescription
  {
    assert Descriptions.Keys == set n | n in ListPresets();
    if name in Descriptions {
      assert |Descriptions[name]| > |NoDescription|;
    }
  }
}

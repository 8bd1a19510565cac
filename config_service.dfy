/** File-based configuration versioning: the latest configuration (a version, a global
    settings map and per-SKU settings maps) and an append-only history of the updates
    that produced it. The two files are fields of the service; reading and writing them
    as JSON is not modelled. */
module ConfigService {
  import opened Basics
  import opened Text
  import opened ForecastModels

  /** What `latest.json` holds. */
  datatype LatestConfig = LatestConfig(
    version: string,
    updatedAt: Option<string>,
    global: Settings,
    perSku: map<string, Settings>)

  /** The configuration `get_latest_config` returns when nothing is stored yet. */
  const DefaultConfig: LatestConfig := LatestConfig(DefaultVersion, None, map[], map[])

  /** "0.0.0", the version of the default configuration. */
  const DefaultVersion: string := VersionText(0, 0, 0)

  /** A line of `config_history.jsonl`: blank, undecodable, or a stored record. */
  datatype HistoryLine = Blank | Malformed | Stored(record: ConfigRecord)

  // Versions

  /** `_bump_patch_version`: "a.b.c" with integer parts becomes "a.b.(c+1)"; any other
      text counts as "0.0.0" and becomes "0.0.1". */
  function BumpPatchVersion(version: string): string
  {
    var parsed := ParseVersion(version);
    if parsed.Some? then VersionText(parsed.value.0, parsed.value.1, parsed.value.2 + 1) else VersionText(0, 0, 1)
  }

  /** "a.b.c" with exactly three parts, each an integer. */
  predicate WellFormedVersion(version: string)
  {
    var parts := Split(version, '.');
    |parts| == 3 && ParseInt(parts[0]).Some? && ParseInt(parts[1]).Some? && ParseInt(parts[2]).Some?
  }

  /** The three integer parts of a well-formed version. */
  function ParseVersion(version: string): (r: Option<(int, int, int)>)
    ensures r.Some? <==> WellFormedVersion(version)
  {
    var parts := Split(version, '.');
    if WellFormedVersion(version) then Some((ParseInt(parts[0]).value, ParseInt(parts[1]).value, ParseInt(parts[2]).value))
    else None
  }

  /** `f"{major}.{minor}.{patch}"`. */
  function VersionText(major: int, minor: int, patch: int): string
  {
    IntToString(major) + "." + IntToString(minor) + "." + IntToString(patch)
  }

  lemma NoDotInIntToString(i: int)
    ensures '.' !in IntToString(i)
  {
    var s := IntToString(i);
    if i < 0 {
      assert s == "-" + NatToString(-i);
      assert forall k :: 1 <= k < |s| ==> s[k] == NatToString(-i)[k - 1];
    }
  }

  /** A version's text splits back into its three numbers. */
  lemma VersionTextSplits(major: int, minor: int, patch: int)
    ensures Split(VersionText(major, minor, patch), '.') == [IntToString(major), IntToString(minor), IntToString(patch)]
  {
    var a, b, c := IntToString(major), IntToString(minor), IntToString(patch);
    NoDotInIntToString(major);
    NoDotInIntToString(minor);
    NoDotInIntToString(patch);
    SplitNoSeparator(c, '.');
    SplitAtSeparator(b, '.', c);
    assert b + "." + c == b + ['.'] + c;
    SplitAtSeparator(a, '.', b + "." + c);
    assert VersionText(major, minor, patch) == a + ['.'] + (b + "." + c);
  }

  /** Bumping a well-formed version increments its patch number and keeps the rest. */
  lemma {:induction false} BumpWellFormed(major: int, minor: int, patch: int)
    ensures BumpPatchVersion(VersionText(major, minor, patch)) == VersionText(major, minor, patch + 1)
  {
    var parts := Split(VersionText(major, minor, patch), '.');
    VersionTextSplits(major, minor, patch);
    ParseIntOfIntToString(major);
    ParseIntOfIntToString(minor);
    ParseIntOfIntToString(patch);
    assert ParseInt(parts[0]) == Some(major) && ParseInt(parts[1]) == Some(minor) && ParseInt(parts[2]) == Some(patch);
    assert WellFormedVersion(VersionText(major, minor, patch));
  }

  /** A version that does not split into three parts, or has a part that is not an
      integer, is bumped to "0.0.1". */
  lemma BumpMalformed(version: string)
    requires !WellFormedVersion(version)
    ensures BumpPatchVersion(version) == "0.0.1"
  {
    SmallVersions();
  }

  lemma SmallVersions()
    ensures DefaultVersion == "0.0.0" && VersionText(0, 0, 1) == "0.0.1"
  {
    assert DigitChar(0) == '0' && DigitChar(1) == '1';
    assert IntToString(0) == "0" && IntToString(1) == "1";
  }

  /** The first update after the default configuration records version "0.0.1". */
  lemma FirstVersion()
    ensures DefaultConfig.version == "0.0.0"
    ensures BumpPatchVersion(DefaultConfig.version) == "0.0.1"
  {
    SmallVersions();
    BumpWellFormed(0, 0, 0);
  }

  // Merging

  /** `base.update(settings)`: a shallow overlay in which the new keys win. */
  function Overlay(base: Settings, settings: Settings): (r: Settings)
    ensures r.Keys == base.Keys + settings.Keys
    ensures forall k :: k in settings ==> r[k] == settings[k]
    ensures forall k :: k in base && k !in settings ==> r[k] == base[k]
  {
    base + settings
  }

  /** `update.target or "default"`. */
  function TargetOf(update: ConfigUpdate): string
  {
    if update.target.Some? && update.target.value != "" then update.target.value else "default"
  }

  /** The settings after an update: a global update overlays the global settings, a
      SKU update overlays that SKU's settings (empty when it has none). */
  function Merged(latest: LatestConfig, update: ConfigUpdate): LatestConfig
  {
    if update.scope == Global then latest.(global := Overlay(latest.global, update.settings))
    else
      var target := TargetOf(update);
      var current := if target in latest.perSku then latest.perSku[target] else map[];
      latest.(perSku := latest.perSku[target := Overlay(current, update.settings)])
  }

  /** A global update changes only the global settings; a SKU update changes only its
      target's settings, so the global settings and every other SKU are unchanged. */
  lemma MergedSpec(latest: LatestConfig, update: ConfigUpdate)
    ensures Merged(latest, update).version == latest.version
    ensures update.scope == Global ==>
      Merged(latest, update).perSku == latest.perSku
      && Merged(latest, update).global == Overlay(latest.global, update.settings)
    ensures update.scope == Sku ==>
      var m := Merged(latest, update);
      var t := TargetOf(update);
      && m.global == latest.global
      && m.perSku.Keys == latest.perSku.Keys + {t}
      && m.perSku[t] == Overlay(if t in latest.perSku then latest.perSku[t] else map[], update.settings)
      && (forall s :: s in latest.perSku && s != t ==> m.perSku[s] == latest.perSku[s])
  {
  }

  // History

  /** The records of the history lines, skipping blank and undecodable lines. */
  function Records(lines: seq<HistoryLine>): (rs: seq<ConfigRecord>)
    ensures |rs| <= |lines|
  {
    if |lines| == 0 then []
    else
      var init := Records(lines[..|lines| - 1]);
      var last := lines[|lines| - 1];
      if last.Stored? then init + [last.record] else init
  }

  lemma RecordsAppend(lines: seq<HistoryLine>, r: ConfigRecord)
    ensures Records(lines + [Stored(r)]) == Records(lines) + [r]
  {
    assert (lines + [Stored(r)])[..|lines|] == lines;
  }

  /** `records[-limit:]` when a limit is given, all records otherwise. */
  function Window(records: seq<ConfigRecord>, limit: Option<int>): seq<ConfigRecord>
  {
    if limit.Some? then PyLast(records, limit.value) else records
  }

  /** No limit and a zero limit both return every record; a positive limit returns the
      last `limit` ones (all of them when there are fewer). */
  lemma WindowSpec(records: seq<ConfigRecord>, limit: Option<int>)
    ensures limit.None? || limit == Some(0) ==> Window(records, limit) == records
    ensures limit.Some? && limit.value > 0 ==>
      |Window(records, limit)| == (if limit.value <= |records| then limit.value else |records|)
      && Window(records, limit) == records[|records| - |Window(records, limit)|..]
  {
  }

  class ConfigService {
    /** `latest.json`, when it exists. */
    var latestFile: Option<LatestConfig>
    /** The lines of `config_history.jsonl` (none when the file does not exist). */
    var historyLines: seq<HistoryLine>

    /** A service over the files already in its directory. */
    constructor(latest: Option<LatestConfig>, lines: seq<HistoryLine>)
      ensures latestFile == latest && historyLines == lines
    {
      latestFile := latest;
      historyLines := lines;
    }

    /** `get_latest_config`. */
    function GetLatestConfig(): (c: LatestConfig)
      reads this
      ensures latestFile.None? ==> c == DefaultConfig
      ensures latestFile.Some? ==> c == latestFile.value
    {
      if latestFile.Some? then latestFile.value else DefaultConfig
    }

    /** `append_update` at the given time: records the update under the bumped version in
        the history and stores the merged configuration as the latest. */
    method AppendUpdate(update: ConfigUpdate, timestamp: string) returns (record: ConfigRecord)
      modifies this
      ensures record == RecordOf(update, timestamp, BumpPatchVersion(old(GetLatestConfig()).version))
      ensures historyLines == old(historyLines) + [Stored(record)]
      ensures latestFile == Some(Merged(old(GetLatestConfig()), update).(version := record.version, updatedAt := Some(timestamp)))
    {
      var latest := GetLatestConfig();
      var merged := Merged(latest, update);
      var version := BumpPatchVersion(latest.version);
      record := RecordOf(update, timestamp, version);
      historyLines := historyLines + [Stored(record)];
      latestFile := Some(merged.(version := version, updatedAt := Some(timestamp)));
    }

    /** `get_history`: the stored records in file order, windowed by the limit. */
    method GetHistory(limit: Option<int>) returns (records: seq<ConfigRecord>)
      ensures records == Window(Records(historyLines), limit)
    {
      records := [];
      var i := 0;
      while i < |historyLines|
        invariant 0 <= i <= |historyLines|
        invariant records == Records(historyLines[..i])
      {
        assert historyLines[..i + 1][..i] == historyLines[..i];
        if historyLines[i].Stored? {
          records := records + [historyLines[i].record];
        }
        i := i + 1;
      }
      assert historyLines[..i] == historyLines;
      records := Window(records, limit);
    }
  }

  /** After an update the history ends with its record, the latest configuration carries
      that record's version, and a read of the history returns it last. */
  lemma AppendThenRead(lines: seq<HistoryLine>, record: ConfigRecord, limit: Option<int>)
    requires limit.None? || limit.value >= 0
    requires limit.Some? ==> limit.value != 0
    ensures |Window(Records(lines + [Stored(record)]), limit)| >= 1
    ensures Window(Records(lines + [Stored(record)]), limit)[|Window(Records(lines + [Stored(record)]), limit)| - 1] == record
  {
    RecordsAppend(lines, record);
  }
}

/**
 * The cache hit/miss policy of `LoadData.load_data`: reuse the saved payload when the cache
 * is valid and loads, otherwise read every source that exists and save a new payload.
 */
module Loader {
  import opened Wrappers
  import opened Text
  import opened Platform
  import opened Sources
  import opened Cache

  /** The loader's members: the loaded tables. */
  datatype Members = Members(
    countriesDf: Option<Dataset>,
    holidaysDf: Option<Dataset>,
    populationCensusDf: Option<Dataset>,
    aviationData: map<string, Dataset>,
    pilgrimageData: map<string, Dataset>)

  /** What one loading step of a reload did. */
  datatype Step<T> = Skipped | Loaded(value: T) | Failed(error: Error)

  /** How `load_data` ended: from the cache, from the sources (with the swallowed save error), or raising. */
  datatype LoadOutcome = FromCache | FromSources(saveError: Option<Error>) | Raised(error: Error)

  /** The members `_load_from_cache_payload` assigns; the two map members default to {}. */
  function FromPayload(payload: Payload): (m: Members)
    ensures m.countriesDf == payload.countriesDf && m.holidaysDf == payload.holidaysDf
    ensures m.populationCensusDf == payload.populationCensusDf
    ensures payload.aviationData.Some? ==> m.aviationData == payload.aviationData.value
    ensures payload.pilgrimageData.Some? ==> m.pilgrimageData == payload.pilgrimageData.value
    ensures payload.aviationData.None? ==> m.aviationData == map[]
    ensures payload.pilgrimageData.None? ==> m.pilgrimageData == map[]
  {
    Members(payload.countriesDf, payload.holidaysDf, payload.populationCensusDf,
            payload.aviationData.GetOr(map[]), payload.pilgrimageData.GetOr(map[]))
  }

  /** The payload dict `load_data` saves after a reload, stamped with `savedAt`. */
  function ToPayload(m: Members, savedAt: int): Payload {
    Payload(m.countriesDf, m.holidaysDf, m.populationCensusDf, Some(m.aviationData), Some(m.pilgrimageData), Some(savedAt))
  }

  /** Loading a saved reload payload restores exactly the members that were saved. */
  lemma PayloadRestoresMembers(m: Members, savedAt: int)
    ensures FromPayload(ToPayload(m, savedAt)) == m
  {
  }

  /** A single-file step: read the source `key` if it is configured, non-empty and exists. */
  function ReadSingle(files: Files, sourcePaths: map<string, Path>, key: string): (s: Step<Dataset>)
    ensures s.Skipped? <==> !(key in sourcePaths && sourcePaths[key] != "" && sourcePaths[key] in files)
    ensures !s.Skipped? ==> (s.Loaded? <==> files[sourcePaths[key]].data.Sheet?)
    ensures s.Loaded? ==> files[sourcePaths[key]].data == Sheet(s.value)
    ensures s.Failed? ==> s.error == ParseError
  {
    if key in sourcePaths && sourcePaths[key] != "" && sourcePaths[key] in files then
      match ReadTable(files[sourcePaths[key]].data)
      case Success(d) => Loaded(d)
      case Failure(e) => Failed(e)
    else Skipped
  }

  /** The sources whose key starts with `prefix` and whose file exists. */
  function SelectGroup(files: Files, sourcePaths: map<string, Path>, prefix: string): (paths: map<string, Path>)
    ensures forall k :: k in paths <==> k in sourcePaths && StartsWith(k, prefix) && sourcePaths[k] in files
    ensures forall k :: k in paths ==> paths[k] == sourcePaths[k]
  {
    map k | k in sourcePaths && StartsWith(k, prefix) && sourcePaths[k] in files :: sourcePaths[k]
  }

  /**
   * The aviation group of the discovered sources: exactly the years 2010..2019 whose global
   * is defined and whose normalised path exists.
   */
  lemma AviationGroup(files: Files, config: Config, norm: Path -> Path, k: string)
    ensures k in SelectGroup(files, SourcePaths(config, norm), "aviation_")
            <==> exists year :: FirstAviationYear <= year < AviationYearsEnd && k == AviationKey(year)
                   && AviationKey(year) in config && norm(config[AviationKey(year)]) in files
  {
    var sourcePaths := SourcePaths(config, norm);
    if k in SelectGroup(files, sourcePaths, "aviation_") {
      OnlyDescribedSources(config, norm, k);
      assert k[0] == 'a' by { assert k[..9][0] == k[0]; }
      var year :| FirstAviationYear <= year < AviationYearsEnd && k == AviationKey(year);
      AviationSources(config, norm, year);
    }
    if exists year :: FirstAviationYear <= year < AviationYearsEnd && k == AviationKey(year)
                      && AviationKey(year) in config && norm(config[AviationKey(year)]) in files {
      var year :| FirstAviationYear <= year < AviationYearsEnd && k == AviationKey(year)
                  && AviationKey(year) in config && norm(config[AviationKey(year)]) in files;
      AviationSources(config, norm, year);
      assert AviationKey(year)[..9] == "aviation_";
    }
  }

  /**
   * The pilgrimage group of the discovered sources: exactly the keys pilgrimage_1..4 whose
   * pilgrimage global is defined and whose normalised path exists.
   */
  lemma PilgrimageGroup(files: Files, config: Config, norm: Path -> Path, k: string)
    ensures k in SelectGroup(files, SourcePaths(config, norm), "pilgrimage_")
            <==> exists n :: 1 <= n <= |PilgrimageVars| && k == PilgrimageKey(n)
                   && PilgrimageVars[n - 1] in config && norm(config[PilgrimageVars[n - 1]]) in files
  {
    var sourcePaths := SourcePaths(config, norm);
    if k in SelectGroup(files, sourcePaths, "pilgrimage_") {
      OnlyDescribedSources(config, norm, k);
      assert k[0] == 'p' && k[1] == 'i' by { assert k[..11][0] == k[0] && k[..11][1] == k[1]; }
      var n :| 1 <= n <= |PilgrimageVars| && k == PilgrimageKey(n);
      PilgrimageSources(config, norm, n);
    }
    if exists n :: 1 <= n <= |PilgrimageVars| && k == PilgrimageKey(n)
                   && PilgrimageVars[n - 1] in config && norm(config[PilgrimageVars[n - 1]]) in files {
      var n :| 1 <= n <= |PilgrimageVars| && k == PilgrimageKey(n)
               && PilgrimageVars[n - 1] in config && norm(config[PilgrimageVars[n - 1]]) in files;
      PilgrimageSources(config, norm, n);
      assert PilgrimageKey(n)[..11] == "pilgrimage_";
    }
  }

  /**
   * `_load_excels_parallel`, with completion order ignored: every table by its key, or the
   * exception of a table that cannot be read.
   */
  function LoadExcels(files: Files, paths: map<string, Path>): (r: Result<map<string, Dataset>, Error>)
    requires forall k :: k in paths ==> paths[k] in files
    ensures r.Success? ==> r.value.Keys == paths.Keys
    ensures r.Success? ==> forall k :: k in r.value ==> files[paths[k]].data == Sheet(r.value[k])
    ensures r.Failure? <==> exists k :: k in paths && !files[paths[k]].data.Sheet?
  {
    if forall k :: k in paths ==> ReadTable(files[paths[k]].data).Success? then
      Success(map k | k in paths :: ReadTable(files[paths[k]].data).value)
    else Failure(ParseError)
  }

  /** A group step: load the group if any of its files exists. */
  function ReadGroup(files: Files, sourcePaths: map<string, Path>, prefix: string): Step<map<string, Dataset>> {
    var paths := SelectGroup(files, sourcePaths, prefix);
    if paths == map[] then Skipped
    else
      match LoadExcels(files, paths)
      case Success(tables) => Loaded(tables)
      case Failure(e) => Failed(e)
  }

  /** The member a step leaves: the loaded value, or the previous one. */
  function Refresh<T>(previous: T, step: Step<T>): T {
    if step.Loaded? then step.value else previous
  }

  function RefreshTable(previous: Option<Dataset>, step: Step<Dataset>): Option<Dataset> {
    if step.Loaded? then Some(step.value) else previous
  }

  /**
   * The members after the loading part of a reload, run in the order of `load_data`, and the
   * exception it raises: a failed step stops the reload with the earlier steps already applied.
   */
  function Reload(files: Files, sourcePaths: map<string, Path>, previous: Members): (Members, Option<Error>) {
    var countries := ReadSingle(files, sourcePaths, "countries");
    var m1 := previous.(countriesDf := RefreshTable(previous.countriesDf, countries));
    if countries.Failed? then (m1, Some(countries.error)) else
    var holidays := ReadSingle(files, sourcePaths, "global_holidays");
    var m2 := m1.(holidaysDf := RefreshTable(m1.holidaysDf, holidays));
    if holidays.Failed? then (m2, Some(holidays.error)) else
    var census := ReadSingle(files, sourcePaths, "population_census");
    var m3 := m2.(populationCensusDf := RefreshTable(m2.populationCensusDf, census));
    if census.Failed? then (m3, Some(census.error)) else
    var aviation := ReadGroup(files, sourcePaths, "aviation_");
    var m4 := m3.(aviationData := Refresh(m3.aviationData, aviation));
    if aviation.Failed? then (m4, Some(aviation.error)) else
    var pilgrimage := ReadGroup(files, sourcePaths, "pilgrimage_");
    var m5 := m4.(pilgrimageData := Refresh(m4.pilgrimageData, pilgrimage));
    if pilgrimage.Failed? then (m5, Some(pilgrimage.error)) else (m5, None)
  }

  /** The single-file source `key` is configured, non-empty and exists. */
  predicate Present(files: Files, sourcePaths: map<string, Path>, key: string) {
    key in sourcePaths && sourcePaths[key] != "" && sourcePaths[key] in files
  }

  /** The single-file source `key` exists but its file does not hold a table. */
  predicate Unreadable(files: Files, sourcePaths: map<string, Path>, key: string) {
    Present(files, sourcePaths, key) && !files[sourcePaths[key]].data.Sheet?
  }

  /** Some existing file of the group `prefix` does not hold a table. */
  predicate GroupUnreadable(files: Files, sourcePaths: map<string, Path>, prefix: string) {
    exists k :: k in SelectGroup(files, sourcePaths, prefix) && !files[sourcePaths[k]].data.Sheet?
  }

  /**
   * A reload raises exactly when one of the five steps meets an existing file that is not a
   * table, and what it raises is then a ParseError.
   */
  lemma ReloadRaises(files: Files, sourcePaths: map<string, Path>, previous: Members)
    ensures Reload(files, sourcePaths, previous).1.Some?
            <==> Unreadable(files, sourcePaths, "countries") || Unreadable(files, sourcePaths, "global_holidays")
                 || Unreadable(files, sourcePaths, "population_census")
                 || GroupUnreadable(files, sourcePaths, "aviation_") || GroupUnreadable(files, sourcePaths, "pilgrimage_")
    ensures Reload(files, sourcePaths, previous).1.Some? ==> Reload(files, sourcePaths, previous).1.value == ParseError
  {
  }

  /**
   * A reload that raises nothing sets each single table whose file exists to that file's
   * table and keeps the others; each group with an existing file becomes exactly that group's
   * tables, by key from its own file; a group with no existing file keeps its previous map.
   */
  lemma ReloadWithoutError(files: Files, sourcePaths: map<string, Path>, previous: Members)
    requires Reload(files, sourcePaths, previous).1.None?
    ensures var m := Reload(files, sourcePaths, previous).0;
            && (Present(files, sourcePaths, "countries")
                ==> m.countriesDf == Some(files[sourcePaths["countries"]].data.table))
            && (!Present(files, sourcePaths, "countries") ==> m.countriesDf == previous.countriesDf)
            && (Present(files, sourcePaths, "global_holidays")
                ==> m.holidaysDf == Some(files[sourcePaths["global_holidays"]].data.table))
            && (!Present(files, sourcePaths, "global_holidays") ==> m.holidaysDf == previous.holidaysDf)
            && (Present(files, sourcePaths, "population_census")
                ==> m.populationCensusDf == Some(files[sourcePaths["population_census"]].data.table))
            && (!Present(files, sourcePaths, "population_census") ==> m.populationCensusDf == previous.populationCensusDf)
    ensures var m := Reload(files, sourcePaths, previous).0;
            var group := SelectGroup(files, sourcePaths, "aviation_");
            && (group == map[] ==> m.aviationData == previous.aviationData)
            && (group != map[] ==> m.aviationData.Keys == group.Keys)
            && (group != map[] ==> forall k :: k in m.aviationData ==> files[group[k]].data == Sheet(m.aviationData[k]))
    ensures var m := Reload(files, sourcePaths, previous).0;
            var group := SelectGroup(files, sourcePaths, "pilgrimage_");
            && (group == map[] ==> m.pilgrimageData == previous.pilgrimageData)
            && (group != map[] ==> m.pilgrimageData.Keys == group.Keys)
            && (group != map[] ==> forall k :: k in m.pilgrimageData ==> files[group[k]].data == Sheet(m.pilgrimageData[k]))
  {
  }

  class LoadData {
    var countriesDf: Option<Dataset>
    var holidaysDf: Option<Dataset>
    var aviationData: map<string, Dataset>
    var pilgrimageData: map<string, Dataset>
    var populationCensusDf: Option<Dataset>
    const cacheManager: CacheManager

    /** With no cache manager given, one with the default files and variable on `os`. */
    constructor(cacheManager: CacheManager?, os: Os)
      ensures cacheManager != null ==> this.cacheManager == cacheManager
      ensures cacheManager == null ==>
                && fresh(this.cacheManager) && this.cacheManager.os == os
                && this.cacheManager.cacheFile == DefaultCacheFile && this.cacheManager.metaFile == DefaultMetaFile
                && this.cacheManager.forceReloadEnv == DefaultForceReloadEnv
      ensures Current() == Members(None, None, None, map[], map[])
    {
      countriesDf := None;
      holidaysDf := None;
      aviationData := map[];
      pilgrimageData := map[];
      populationCensusDf := None;
      if cacheManager != null {
        this.cacheManager := cacheManager;
      } else {
        this.cacheManager := new CacheManager(DefaultCacheFile, DefaultMetaFile, DefaultForceReloadEnv, os);
      }
    }

    function Current(): Members
      reads this
    {
      Members(countriesDf, holidaysDf, populationCensusDf, aviationData, pilgrimageData)
    }

    method LoadFromCachePayload(payload: Payload)
      modifies this
      ensures Current() == FromPayload(payload)
    {
      countriesDf := payload.countriesDf;
      holidaysDf := payload.holidaysDf;
      populationCensusDf := payload.populationCensusDf;
      aviationData := payload.aviationData.GetOr(map[]);
      pilgrimageData := payload.pilgrimageData.GetOr(map[]);
    }

    /** The part of `load_data` after a miss: read the sources that exist, then try to save. */
    method ReloadFromSources(sourcePaths: map<string, Path>, savedAt: int) returns (outcome: LoadOutcome)
      modifies this, cacheManager.os
      ensures var (m, raised) := Reload(old(cacheManager.os.files), sourcePaths, old(Current()));
              && Current() == m
              && (raised.Some? ==> outcome == Raised(raised.value) && cacheManager.os.files == old(cacheManager.os.files))
              && (raised.None? ==>
                   && outcome == FromSources(cacheManager.SaveError(cacheManager.os.faults))
                   && cacheManager.os.files
                      == cacheManager.AfterSave(old(cacheManager.os.files), cacheManager.os.faults,
                                                cacheManager.os.now, ToPayload(m, savedAt), sourcePaths))
      ensures cacheManager.os.environ == old(cacheManager.os.environ)
      ensures cacheManager.os.now == old(cacheManager.os.now) && cacheManager.os.faults == old(cacheManager.os.faults)
    {
      var files := cacheManager.os.files;
      var countries := ReadSingle(files, sourcePaths, "countries");
      countriesDf := RefreshTable(countriesDf, countries);
      if countries.Failed? {
        return Raised(countries.error);
      }
      var holidays := ReadSingle(files, sourcePaths, "global_holidays");
      holidaysDf := RefreshTable(holidaysDf, holidays);
      if holidays.Failed? {
        return Raised(holidays.error);
      }
      var census := ReadSingle(files, sourcePaths, "population_census");
      populationCensusDf := RefreshTable(populationCensusDf, census);
      if census.Failed? {
        return Raised(census.error);
      }
      var aviation := ReadGroup(files, sourcePaths, "aviation_");
      aviationData := Refresh(aviationData, aviation);
      if aviation.Failed? {
        return Raised(aviation.error);
      }
      var pilgrimage := ReadGroup(files, sourcePaths, "pilgrimage_");
      pilgrimageData := Refresh(pilgrimageData, pilgrimage);
      if pilgrimage.Failed? {
        return Raised(pilgrimage.error);
      }
      var saveError := cacheManager.SaveCache(ToPayload(Current(), savedAt), sourcePaths);
      outcome := FromSources(saveError);
    }

    /**
     * `load_data`: on a valid cache that loads, take the members from the payload and save
     * nothing; otherwise (a miss, or a payload that does not load) reload from the sources.
     * `savedAt` is what time.time() returns for the new payload.
     */
    method Load(config: Config, norm: Path -> Path, savedAt: int) returns (outcome: LoadOutcome)
      modifies this, cacheManager.os
      ensures var sourcePaths := SourcePaths(config, norm);
              var files := old(cacheManager.os.files);
              var hit := cacheManager.IsCacheValid(files, old(cacheManager.os.environ), MTimes(files, sourcePaths))
                         && cacheManager.LoadCache(files).Success?;
              && (outcome == FromCache <==> hit)
              && (hit ==> Current() == FromPayload(cacheManager.LoadCache(files).value)
                          && cacheManager.os.files == files)
              && (!hit ==>
                   var (m, raised) := Reload(files, sourcePaths, old(Current()));
                   && Current() == m
                   && (raised.Some? ==> outcome == Raised(raised.value) && cacheManager.os.files == files)
                   && (raised.None? ==>
                        && outcome == FromSources(cacheManager.SaveError(cacheManager.os.faults))
                        && cacheManager.os.files
                           == cacheManager.AfterSave(files, cacheManager.os.faults, cacheManager.os.now,
                                                     ToPayload(m, savedAt), sourcePaths)))
      ensures cacheManager.os.environ == old(cacheManager.os.environ)
      ensures cacheManager.os.now == old(cacheManager.os.now) && cacheManager.os.faults == old(cacheManager.os.faults)
    {
      var sourcePaths := cacheManager.GatherSourcePaths(config, norm);
      var currentMeta := cacheManager.ComputeMTimes(sourcePaths);
      if cacheManager.IsCacheValid(cacheManager.os.files, cacheManager.os.environ, currentMeta) {
        var payload := cacheManager.LoadCache(cacheManager.os.files);
        if payload.Success? {
          LoadFromCachePayload(payload.value);
          return FromCache;
        }
      }
      outcome := ReloadFromSources(sourcePaths, savedAt);
    }
  }
}

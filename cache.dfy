/**
 * The result cache with staleness detection: a payload file (pickle) and a meta file
 * (JSON map from logical source to mtime) that together decide whether a previous run's
 * loaded data may be reused.
 */
module Cache {
  import opened Wrappers
  import opened Platform
  import opened Sources
  import opened Text

  const DefaultCacheFile: Path := "__cache__/data_cache.pkl"
  const DefaultMetaFile: Path := "__cache__/data_cache_meta.json"
  const DefaultForceReloadEnv: string := "FORCE_RELOAD"

  class CacheManager {
    const cacheFile: Path
    const metaFile: Path
    /** The environment variable that, set to "1", forces a miss. */
    const forceReloadEnv: string
    /** The operating system the cache files live on. */
    const os: Os

    constructor(cacheFile: Path, metaFile: Path, forceReloadEnv: string, os: Os)
      ensures this.cacheFile == cacheFile && this.metaFile == metaFile
      ensures this.forceReloadEnv == forceReloadEnv && this.os == os
    {
      this.cacheFile := cacheFile;
      this.metaFile := metaFile;
      this.forceReloadEnv := forceReloadEnv;
      this.os := os;
    }

    /** The logical sources the loader will read, with their normalised paths. */
    method GatherSourcePaths(config: Config, norm: Path -> Path) returns (sourcePaths: map<string, Path>)
      ensures sourcePaths == SourcePaths(config, norm)
    {
      ghost var ds := Descriptors();
      DescriptorsShape();
      assert ds[..3][0] == ds[0] && ds[..3][1] == ds[1] && ds[..3][2] == ds[2];
      sourcePaths := map[];
      assert ds[..0] == [];
      ResolveStep(ds, 0, config, norm);
      if "countries" in config {
        sourcePaths := sourcePaths["countries" := norm(config["countries"])];
      }
      ResolveStep(ds, 1, config, norm);
      if "global_holidays" in config {
        sourcePaths := sourcePaths["global_holidays" := norm(config["global_holidays"])];
      }
      ResolveStep(ds, 2, config, norm);
      sourcePaths := sourcePaths["population_census" := norm(CensusPath)];

      for year := FirstAviationYear to AviationYearsEnd
        invariant sourcePaths == Resolve(ds[..year - 2007], config, norm)
      {
        var name := "aviation_" + DecimalString(year);
        ResolveStep(ds, year - 2007, config, norm);
        if name in config {
          sourcePaths := sourcePaths[name := norm(config[name])];
        }
      }
      for n := 1 to |PilgrimageVars| + 1
        invariant sourcePaths == Resolve(ds[..n + 12], config, norm)
      {
        var varName := PilgrimageVars[n - 1];
        ResolveStep(ds, n + 12, config, norm);
        if varName in config {
          sourcePaths := sourcePaths["pilgrimage_" + DecimalString(n) := norm(config[varName])];
        }
      }
      assert ds[..17] == ds;
    }

    /** The meta of the sources now: every key kept, with its file's mtime or None if it cannot be stat'ed. */
    method ComputeMTimes(sourcePaths: map<string, Path>) returns (mtimes: Meta)
      ensures mtimes.Keys == sourcePaths.Keys
      ensures forall key :: key in mtimes ==> mtimes[key] == GetMTime(os.files, sourcePaths[key])
      ensures mtimes == MTimes(os.files, sourcePaths)
    {
      mtimes := map[];
      var pending := sourcePaths.Keys;
      while pending != {}
        invariant pending <= sourcePaths.Keys
        invariant mtimes.Keys == sourcePaths.Keys - pending
        invariant forall key :: key in mtimes ==> mtimes[key] == GetMTime(os.files, sourcePaths[key])
        decreases pending
      {
        var key :| key in pending;
        var path := sourcePaths[key];
        if path in os.files {
          mtimes := mtimes[key := Some(os.files[path].mtime)];
        } else {
          mtimes := mtimes[key := None];
        }
        pending := pending - {key};
      }
    }

    /** The force-reload variable is set to "1" (a missing variable reads as ""). */
    predicate ForceReload(environ: Environ) {
      EnvironGet(environ, forceReloadEnv, "") == "1"
    }

    /** Whether the saved payload may be reused for sources whose meta is now `currentMeta`. */
    function IsCacheValid(files: Files, environ: Environ, currentMeta: Meta): (valid: bool)
      ensures ForceReload(environ) ==> !valid
      ensures cacheFile !in files || metaFile !in files ==> !valid
      ensures metaFile in files && JsonLoad(files[metaFile].data).Failure? ==> !valid
      ensures valid ==> files[metaFile].data == Json(currentMeta)
    {
      if ForceReload(environ) then false
      else if cacheFile !in files || metaFile !in files then false
      else
        match JsonLoad(files[metaFile].data)
        case Failure(_) => false
        case Success(savedMeta) => savedMeta == currentMeta
    }

    /** The payload saved in the cache file, or the exception reading it raises. */
    function LoadCache(files: Files): (r: Result<Payload, Error>)
      ensures cacheFile !in files ==> r == Failure(FileNotFound)
      ensures cacheFile in files ==> (r.Success? <==> files[cacheFile].data.Pickled?)
      ensures r.Success? ==> files[cacheFile].data == Pickled(r.value)
    {
      if cacheFile !in files then Failure(FileNotFound) else Unpickle(files[cacheFile].data)
    }

    /** The files after `save_cache(payload, sourcePaths)`: payload first, then the meta taken after it. */
    function AfterSave(files: Files, faults: map<Path, Fault>, now: MTime, payload: Payload,
                       sourcePaths: map<string, Path>): Files
    {
      var withPayload := AfterWrite(files, cacheFile, Pickled(payload), Get(faults, cacheFile), now);
      if cacheFile in faults then withPayload
      else AfterWrite(withPayload, metaFile, Json(MTimes(withPayload, sourcePaths)), Get(faults, metaFile), now)
    }

    /** The exception `save_cache` raises, if any. */
    function SaveError(faults: map<Path, Fault>): Option<Error> {
      if cacheFile in faults then WriteError(Get(faults, cacheFile)) else WriteError(Get(faults, metaFile))
    }

    method SaveCache(payload: Payload, sourcePaths: map<string, Path>) returns (error: Option<Error>)
      modifies os
      ensures os.files == AfterSave(old(os.files), os.faults, os.now, payload, sourcePaths)
      ensures error == SaveError(os.faults)
      ensures os.environ == old(os.environ) && os.now == old(os.now) && os.faults == old(os.faults)
    {
      error := os.Write(cacheFile, Pickled(payload));
      if error.Some? {
        return;
      }
      var meta := ComputeMTimes(sourcePaths);
      error := os.Write(metaFile, Json(meta));
    }

    method ClearCache()
      modifies os
      ensures os.files == old(os.files) - {cacheFile, metaFile}
      ensures os.environ == old(os.environ) && os.now == old(os.now) && os.faults == old(os.faults)
    {
      if cacheFile in os.files {
        os.Unlink(cacheFile);
      }
      if metaFile in os.files {
        os.Unlink(metaFile);
      }
    }

    // ----- properties of the validity decision -----

    /** Past the override and the existence checks, validity is exact equality of the two metas. */
    lemma ValidIffMetaEqual(files: Files, environ: Environ, savedMeta: Meta, currentMeta: Meta)
      requires !ForceReload(environ)
      requires cacheFile in files && metaFile in files
      requires files[metaFile].data == Json(savedMeta)
      ensures IsCacheValid(files, environ, currentMeta) <==> savedMeta == currentMeta
    {
    }

    /** A saved meta with a different key set is a miss, whatever the mtimes. */
    lemma KeySetChangeMisses(files: Files, environ: Environ, savedMeta: Meta, currentMeta: Meta)
      requires metaFile in files && files[metaFile].data == Json(savedMeta)
      requires savedMeta.Keys != currentMeta.Keys
      ensures !IsCacheValid(files, environ, currentMeta)
    {
    }

    // ----- save / load / clear -----

    /**
     * Round trip: right after an uninterrupted save, the meta of the same sources matches
     * and the payload loads back, unless the override is set.
     */
    lemma SaveRoundTrip(files: Files, environ: Environ, now: MTime, payload: Payload, sourcePaths: map<string, Path>)
      requires cacheFile != metaFile
      requires metaFile !in sourcePaths.Values
      requires !ForceReload(environ)
      ensures var after := AfterSave(files, map[], now, payload, sourcePaths);
              IsCacheValid(after, environ, MTimes(after, sourcePaths)) && LoadCache(after) == Success(payload)
    {
      var withPayload := files[cacheFile := File(Pickled(payload), now)];
      var after := AfterSave(files, map[], now, payload, sourcePaths);
      assert after == withPayload[metaFile := File(Json(MTimes(withPayload, sourcePaths)), now)];
      assert MTimes(after, sourcePaths) == MTimes(withPayload, sourcePaths) by {
        forall key | key in sourcePaths
          ensures GetMTime(after, sourcePaths[key]) == GetMTime(withPayload, sourcePaths[key])
        {
          assert sourcePaths[key] in sourcePaths.Values;
        }
      }
    }

    /**
     * After a save, touching any source file to a new mtime turns the next check into a miss,
     * while the saved payload is still there to load.
     */
    lemma TouchedSourceMisses(files: Files, environ: Environ, now: MTime, payload: Payload,
                              sourcePaths: map<string, Path>, key: string, t: MTime)
      requires cacheFile != metaFile
      requires key in sourcePaths && sourcePaths[key] != cacheFile && sourcePaths[key] != metaFile
      requires sourcePaths[key] in files && files[sourcePaths[key]].mtime != t
      ensures var after := AfterSave(files, map[], now, payload, sourcePaths);
              var p := sourcePaths[key];
              var touched := after[p := File(after[p].data, t)];
              !IsCacheValid(touched, environ, MTimes(touched, sourcePaths)) && LoadCache(touched) == Success(payload)
    {
      var withPayload := files[cacheFile := File(Pickled(payload), now)];
      var after := AfterSave(files, map[], now, payload, sourcePaths);
      var p := sourcePaths[key];
      var touched := after[p := File(after[p].data, t)];
      assert MTimes(withPayload, sourcePaths)[key] == Some(files[p].mtime);
      assert MTimes(touched, sourcePaths)[key] == Some(t);
    }

    /**
     * A save whose payload write is interrupted, over an earlier complete save, leaves a stale
     * meta that still matches and a payload that no longer decodes: the writes are not atomic.
     */
    lemma InterruptedSaveCorruptsPayload(files: Files, environ: Environ, now: MTime, first: Payload,
                                         second: Payload, sourcePaths: map<string, Path>)
      requires cacheFile != metaFile
      requires cacheFile !in sourcePaths.Values && metaFile !in sourcePaths.Values
      requires !ForceReload(environ)
      ensures var saved := AfterSave(files, map[], now, first, sourcePaths);
              var broken := AfterSave(saved, map[cacheFile := Interrupted], now, second, sourcePaths);
              IsCacheValid(broken, environ, MTimes(broken, sourcePaths)) && LoadCache(broken) == Failure(CacheCorrupt)
    {
      var saved := AfterSave(files, map[], now, first, sourcePaths);
      var broken := AfterSave(saved, map[cacheFile := Interrupted], now, second, sourcePaths);
      SaveRoundTrip(files, environ, now, first, sourcePaths);
      assert broken == saved[cacheFile := File(Raw([]), now)];
      assert MTimes(broken, sourcePaths) == MTimes(saved, sourcePaths) by {
        forall k | k in sourcePaths
          ensures GetMTime(broken, sourcePaths[k]) == GetMTime(saved, sourcePaths[k])
        {
          assert sourcePaths[k] in sourcePaths.Values;
        }
      }
    }

    /** A save that cannot open the payload file changes nothing. */
    lemma DeniedSaveChangesNothing(files: Files, now: MTime, payload: Payload, sourcePaths: map<string, Path>)
      ensures AfterSave(files, map[cacheFile := Denied], now, payload, sourcePaths) == files
      ensures SaveError(map[cacheFile := Denied]) == Some(PermissionDenied)
    {
    }

    /** A cleared cache is a miss for every meta, and loading it raises FileNotFound. */
    lemma ClearedMisses(files: Files, environ: Environ, meta: Meta)
      ensures !IsCacheValid(files - {cacheFile, metaFile}, environ, meta)
      ensures LoadCache(files - {cacheFile, metaFile}) == Failure(FileNotFound)
    {
    }
  }

  /** `dict.get(key, default)` on the environment. */
  function EnvironGet(environ: Environ, key: string, default: string): (v: string)
    ensures key in environ ==> v == environ[key]
    ensures key !in environ ==> v == default
  {
    if key in environ then environ[key] else default
  }

  /**
   * Clearing twice raises nothing and leaves the same files as clearing once: neither cache
   * file, every other file as it was.
   */
  method ClearTwice(files: Files, environ: Environ, now: MTime, faults: map<Path, Fault>)
    returns (once: Files, twice: Files)
    ensures once == twice
    ensures twice == files - {DefaultCacheFile, DefaultMetaFile}
  {
    var os := new Os(files, environ, now, faults);
    var cache := new CacheManager(DefaultCacheFile, DefaultMetaFile, DefaultForceReloadEnv, os);
    cache.ClearCache();
    once := os.files;
    cache.ClearCache();
    twice := os.files;
  }
}

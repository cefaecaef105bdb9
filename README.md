# Result cache with staleness detection (Datarush-2025 data loader)

This project models, in Dafny, the result cache of the data-loading layer in `src/main.py`
and the cache hit/miss policy that drives it, plus the airport-code row filter of the
main script.

- **Source discovery** (`CacheManager.gather_source_paths`): a map from logical source
  name to normalised path. It is built from the optional global configuration entries
  `countries`, `global_holidays`, `aviation_2010` .. `aviation_2019` and the four pilgrimage
  globals, which are re-keyed `pilgrimage_1` .. `pilgrimage_4`. It also holds the
  always-present `population_census`, whose path is hard-coded.
  The module `Sources` states the same discovery as a fixed, ordered table of
  descriptors. The imperative `GatherSourcePaths` is proved to build exactly that table's map.
- **Fingerprinting** (`compute_mtimes`): one entry per source, holding its mtime, or `None`
  when the path cannot be stat'ed.
- **Validity and cache files** (`is_cache_valid`, `load_cache`, `save_cache`, `clear_cache`):
  the cache is two companion files, a pickled payload and a JSON meta. They live on an abstract
  operating system (`Platform.Os`): a map from path to (contents, mtime), the environment,
  the mtime new writes get, and a table of per-path write faults.
- **Hit/miss policy** (`LoadData.load_data`, `_load_from_cache_payload`): on a valid cache
  that loads, the members come from the payload. Otherwise each existing source is read in
  the code's order and a new payload is saved. A read error stops the reload and is raised,
  and nothing is saved. A save failure is swallowed.
- **Row filter** (main script): a code is looked up only if it is a 3-character
  alphabetic string. A row is kept only when both country codes are found.

Collaborators outside the core are parameters:
- `os.path.normpath` is `norm`;
- the main module's `globals()` is `config`;
- `time.time()` is `savedAt`;
- the airport library is `lookup`;
- pandas readers and pickle/JSON are classifications of file contents (`Platform.Blob`).

Points of the code's behaviour that the model keeps:
- `save_cache` writes both files in place, payload first, with no temporary file
  (src/main.py:119-124). An interrupted payload write leaves a stale meta that still validates
  next to a payload that no longer decodes (`InterruptedSaveCorruptsPayload`); `load_data`
  then reloads.
- The census path is hard-coded (src/main.py:64), unlike every other source.
- The meta written by `save_cache` is recomputed after the payload file is written; it is
  not the meta the validity check used. The model keeps that order (`AfterSave`).

## Model

| member | source | states |
|---|---|---|
| `Cache.CacheManager.constructor` | src/main.py:47-50 | the manager keeps the given cache file, meta file and force-reload variable; the defaults `CACHE_FILE`, `CACHE_META` and `FORCE_RELOAD` are supplied at the `CacheManager()` call site (src/main.py:144) |
| `Cache.CacheManager.GatherSourcePaths` | src/main.py:52-76 | the map built by the code's loops equals the descriptor table's map `SourcePaths(config, norm)` |
| `Sources.CensusAlwaysPresent` | src/main.py:63-64 | `population_census` is always a source, at `norm` of the hard-coded census path |
| `Sources.SingleFileSources` | src/main.py:58-62 | `countries` / `global_holidays` are sources iff their global is defined, with its normalised path |
| `Sources.AviationSources` | src/main.py:66-69 | for each year 2010..2019, `aviation_<year>` is a source iff that global is defined, with its normalised path |
| `Sources.PilgrimageSources` | src/main.py:70-74 | `pilgrimage_<n>` is a source iff the n-th of `pilgrimage_2010/2016/2018/2019` is defined, and takes that global's path |
| `Sources.OnlyDescribedSources` | src/main.py:57-76 | no key other than the described ones (aviation years only 2010..2019, pilgrimage only 1..4) is ever a source |
| `Sources.KeysDistinct` | src/main.py:57-74 | no two logical sources share a key, so no entry overwrites another |
| `Text.DecimalStringInjective` | src/main.py:67-69 | distinct years give distinct `f"aviation_{i}"` keys (decimal rendering is injective) |
| `Cache.CacheManager.ComputeMTimes` | src/main.py:78-88 | the result has exactly the input's keys; each value is the file's mtime, or None when the stat fails; nothing is dropped or raised |
| `Cache.CacheManager.IsCacheValid` | src/main.py:90-103 | false when FORCE_RELOAD is "1", when either file is missing, or when the meta does not decode; true only when the saved meta is the current one |
| `Cache.CacheManager.ValidIffMetaEqual` | src/main.py:96-103 | past the override and existence checks, valid exactly when saved meta == current meta as maps |
| `Cache.CacheManager.KeySetChangeMisses` | src/main.py:103 | a saved meta with a different key set is a miss whatever the mtimes |
| `Cache.CacheManager.LoadCache` | src/main.py:105-111 | a missing payload file raises FileNotFound; success exactly when the file is a pickle, whose payload is returned |
| `Cache.CacheManager.SaveCache` | src/main.py:113-125 | writes the payload, then (if that succeeded) the meta recomputed afterwards; returns the error of the first failing write; environment untouched |
| `Cache.CacheManager.ClearCache` | src/main.py:127-132 | afterwards neither cache file exists and every other file is unchanged; never fails, also on an empty cache |
| `Cache.CacheManager.SaveRoundTrip` | src/main.py:90-124 | after a save with no faults, the current meta of the same sources is valid and `load_cache` returns the saved payload (unless the override is set) |
| `Cache.CacheManager.TouchedSourceMisses` | src/main.py:78-124 | after a save, changing one source's mtime makes the next check a miss; the saved payload still loads |
| `Cache.CacheManager.InterruptedSaveCorruptsPayload` | src/main.py:113-124 | an interrupted payload write after a good save leaves a meta that still validates and a payload that raises CacheCorrupt |
| `Cache.CacheManager.DeniedSaveChangesNothing` | src/main.py:119-120 | a save whose payload file cannot be opened changes no file and raises PermissionDenied |
| `Cache.CacheManager.ClearedMisses` | src/main.py:96-97 | a cleared cache is a miss for every meta and `load_cache` raises FileNotFound |
| `Cache.ClearTwice` | src/main.py:127-131 | clearing twice raises nothing and leaves the same files as clearing once: no cache file, every other file unchanged |
| `Platform.Os.Write` | src/main.py:119-124 | a write records the data at the current time, or changes nothing (open refused), or leaves an undecodable file (interrupted) and reports the error |
| `Platform.Os.Unlink` | src/main.py:128-131 | removes exactly the given existing file |
| `Platform.GetMTime` | src/main.py:84-87 | `os.path.getmtime`: Some(mtime) exactly for an existing path, None otherwise |
| `Platform.Unpickle` | src/main.py:109-110 | decodes exactly a pickled payload; anything else is CacheCorrupt |
| `Platform.JsonLoad` | src/main.py:99-100 | decodes exactly a JSON meta; anything else is CacheCorrupt |
| `Platform.ReadTable` | src/main.py:146-156 | a table file reads as its table; anything else is a ParseError |
| `Loader.FromPayload` | src/main.py:175-179 | the three tables are the payload's whatever else it holds; `aviation_data` / `pilgrimage_data` are the payload's when present and {} when missing |
| `Loader.PayloadRestoresMembers` | src/main.py:175-179 | the payload saved after a reload, loaded back, restores exactly the saved members |
| `Loader.ReadSingle` | src/main.py:202-218 | a single file is read only if its path is configured, non-empty and exists; it then loads exactly when the file is a table, and yields that table, else a ParseError |
| `Loader.AviationGroup` | src/main.py:221 | the aviation group of the discovered sources is exactly the years 2010..2019 whose global is defined and whose normalised path exists |
| `Loader.PilgrimageGroup` | src/main.py:228 | the pilgrimage group is exactly `pilgrimage_1`..`pilgrimage_4` whose pilgrimage global is defined and whose normalised path exists |
| `Loader.LoadExcels` | src/main.py:158-169 | the loaded group has exactly the keys of its input, each key's table from its own file; it fails iff some file is not a table |
| `Loader.ReloadRaises` | src/main.py:200-232 | a reload raises exactly when an existing single file or an existing group file is not a table, and then raises a ParseError; a skipped source never raises |
| `Loader.ReloadWithoutError` | src/main.py:200-232 | a reload that raises nothing sets each single table whose file exists to that file's table and keeps a missing one; a group with an existing file becomes exactly its tables, each from its own file; a group with none keeps its previous map |
| `Loader.LoadData.constructor` | src/main.py:138-144 | members start empty; without a cache manager a default one on the standard files is created |
| `Loader.LoadData.LoadFromCachePayload` | src/main.py:171-184 | the members become those of the payload, with the map defaults |
| `Loader.LoadData.ReloadFromSources` | src/main.py:200-246 | members follow the ordered reload; a read error is raised with no save; otherwise the new payload is saved and a save error is returned, not raised |
| `Loader.LoadData.Load` | src/main.py:186-246 | from the cache exactly when the cache is valid and loads (members from the payload, no file changed); otherwise the reload above, also after a failed load |
| `Airports.CountryCode` | src/main.py:301-308 | a country is found only for a 3-letter alphabetic string with at least one record, and for every such string the result is its first record's `country_code` |
| `Airports.FilterRows` | src/main.py:293-316 | the loop's `results` equals the kept entries of the rows in order |
| `Airports.FilteredOrigins` | src/main.py:309-316 | every entry comes from a kept row; the rows' indices strictly increase, so each row appears at most once and in input order; every kept row appears |
| `Airports.FilteredSound` | src/main.py:301-316 | every entry's airport and destination are 3-letter codes and its two codes are their looked-up countries, airport first |

## Left out

- pandas CSV/Excel reading is not modelled; a loaded table is an opaque `Dataset`, and a file either holds one or fails with ParseError.
- `_load_excels_parallel`: the thread pool and completion order are not modelled; only its result map, which is the same whatever the order.
- pickle and JSON themselves are not modelled; each is a decoder that accepts exactly its own encoding. A pickled non-dict payload makes `_load_from_cache_payload` raise inside the same `try`; it is folded into CacheCorrupt, which takes the same fall-back path.
- `Loader.FromPayload`: a payload whose `aviation_data` or `pilgrimage_data` key holds an explicit `None` is not representable; map-valued entries are either present with a map or missing.
- `time.time`, `time.ctime` and every `print` are not modelled; the payload timestamp is the parameter `savedAt`.
- `os.path.normpath` is the parameter `norm`, since its code is not part of this model.
- Stat failures other than a missing file, read-permission failures when opening the cache files, and `unlink` failures are not modelled separately; a path that cannot be stat'ed is a path not in the file map. Directories are not modelled either: `os.path.getmtime` and `os.path.exists` also succeed on a directory, which the file map cannot hold.
- The creation of the cache directory at import time is not modelled.
- Float mtimes are opaque `MTime` values compared only for equality; written files get the clock value `os.now`, which the model does not advance.
- Processes racing on the cache files are not modelled; the code has no locking.
- `Airports.Cell`: a non-string cell (a number, a NaN) is told apart from others only by an opaque `id`; its value and type are not modelled, since the filter only tests that it is not a string.
- `Airports.CountryCode`: `str.isalpha` is modelled for ASCII letters only; other Unicode letters count as non-letters.
- The use of `results` after line 316 (the re-lookups into `filtered_list`, the DataFrame and the CSV export) is printing and output only.
- `FilterData`, `src/path.py` (its effect is the `config` map), `src/dates.py`, `src/hajj.py`, `src/tabla_aeropuerto_ano.py`, `src/map.py` and `src/a.py` are outside the core.

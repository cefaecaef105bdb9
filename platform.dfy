/**
 * The operating-system state the cache works against: a file system mapping paths to
 * (contents, modification time), the process environment, and the encodings the cache
 * uses (pickle for the payload, JSON for the meta file), all as abstract values.
 */
module Platform {
  import opened Wrappers

  type Path = string

  /** A file modification time; the model only ever compares two of them for equality. */
  datatype MTime = MTime(ticks: int)

  /** A loaded table (a pandas DataFrame); the model only passes it around. */
  datatype Dataset = Dataset(id: nat)

  /** The cache meta: logical source name to modification time, or None (JSON null). */
  type Meta = map<string, Option<MTime>>

  /**
   * The payload dict that `LoadData.load_data` pickles. Each field is what `dict.get`
   * returns for its key; `None` for a map-valued field means the key is missing.
   */
  datatype Payload = Payload(
    countriesDf: Option<Dataset>,
    holidaysDf: Option<Dataset>,
    populationCensusDf: Option<Dataset>,
    aviationData: Option<map<string, Dataset>>,
    pilgrimageData: Option<map<string, Dataset>>,
    savedAt: Option<int>)

  /** The exceptions the core can raise. */
  datatype Error =
    | FileNotFound      // open() of a missing file
    | PermissionDenied  // open() for writing refused
    | CacheCorrupt      // pickle.load / json.load cannot decode the bytes
    | ParseError        // pandas cannot read a source table
    | WriteFailed       // the write stopped after the file was truncated

  /** File contents, classified by what can decode them. */
  datatype Blob =
    | Pickled(payload: Payload)  // what pickle.dump(payload) writes
    | Json(meta: Meta)           // what json.dump(meta) writes
    | Sheet(table: Dataset)      // a CSV or spreadsheet that pandas can read
    | Raw(bytes: seq<int>)       // anything else, e.g. a truncated write

  /** pickle.load. */
  function Unpickle(b: Blob): (r: Result<Payload, Error>)
    ensures r.Success? ==> b == Pickled(r.value)
    ensures b.Pickled? ==> r.Success?
    ensures r.Failure? ==> r.error == CacheCorrupt
  {
    if b.Pickled? then Success(b.payload) else Failure(CacheCorrupt)
  }

  /** json.load, as far as the cache uses it. */
  function JsonLoad(b: Blob): (r: Result<Meta, Error>)
    ensures r.Success? ==> b == Json(r.value)
    ensures b.Json? ==> r.Success?
    ensures r.Failure? ==> r.error == CacheCorrupt
  {
    if b.Json? then Success(b.meta) else Failure(CacheCorrupt)
  }

  /** pandas.read_csv / pandas.read_excel of a file with contents `b`. */
  function ReadTable(b: Blob): (r: Result<Dataset, Error>)
    ensures r.Success? ==> b == Sheet(r.value)
    ensures b.Sheet? ==> r.Success?
    ensures r.Failure? ==> r.error == ParseError
  {
    if b.Sheet? then Success(b.table) else Failure(ParseError)
  }

  datatype File = File(data: Blob, mtime: MTime)
  type Files = map<Path, File>
  type Environ = map<string, string>

  /** How a write to a path goes wrong: open() refuses, or the write stops after truncating. */
  datatype Fault = Denied | Interrupted

  /** os.path.getmtime, with any failure turned into None as `compute_mtimes` does. */
  function GetMTime(files: Files, p: Path): (t: Option<MTime>)
    ensures t.Some? <==> p in files
    ensures t.Some? ==> t.value == files[p].mtime
  {
    if p in files then Some(files[p].mtime) else None
  }

  /** The meta of `sources` in `files`: one entry per source, its mtime or None. */
  function MTimes(files: Files, sources: map<string, Path>): Meta {
    map key | key in sources :: GetMTime(files, sources[key])
  }

  /** The files after an attempt to write `data` to `p` at time `now`, failing as `fault` says. */
  function AfterWrite(files: Files, p: Path, data: Blob, fault: Option<Fault>, now: MTime): Files {
    match fault
    case None => files[p := File(data, now)]
    case Some(Denied) => files
    case Some(Interrupted) => files[p := File(Raw([]), now)]
  }

  /** The exception such a write raises. */
  function WriteError(fault: Option<Fault>): Option<Error> {
    match fault
    case None => None
    case Some(Denied) => Some(PermissionDenied)
    case Some(Interrupted) => Some(WriteFailed)
  }

  /** The process's view of the operating system: files, environment, clock and write faults. */
  class Os {
    var files: Files
    var environ: Environ
    /** The modification time a write made now records. */
    var now: MTime
    /** Paths whose writes fail, and how. */
    var faults: map<Path, Fault>

    constructor(files: Files, environ: Environ, now: MTime, faults: map<Path, Fault>)
      ensures this.files == files && this.environ == environ
      ensures this.now == now && this.faults == faults
    {
      this.files := files;
      this.environ := environ;
      this.now := now;
      this.faults := faults;
    }

    /** `open(p, "w")` followed by a dump of `data`. */
    method Write(p: Path, data: Blob) returns (error: Option<Error>)
      modifies this
      ensures files == AfterWrite(old(files), p, data, Get(faults, p), now)
      ensures error == WriteError(Get(faults, p))
      ensures environ == old(environ) && now == old(now) && faults == old(faults)
    {
      var fault := Get(faults, p);
      files := AfterWrite(files, p, data, fault, now);
      error := WriteError(fault);
    }

    /** `Path.unlink()` of an existing file. */
    method Unlink(p: Path)
      requires p in files
      modifies this
      ensures files == old(files) - {p}
      ensures environ == old(environ) && now == old(now) && faults == old(faults)
    {
      files := files - {p};
    }
  }
}

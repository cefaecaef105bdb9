/**
 * The logical sources the loader reads, as a fixed, ordered table of descriptors:
 * the reference that `CacheManager.GatherSourcePaths` is proved against.
 */
module Sources {
  import opened Text
  import opened Platform

  /** The main module's global names that hold a path (what `globals()` finds). */
  type Config = map<string, Path>

  /** The census path, written into the code rather than taken from the configuration. */
  const CensusPath: Path := "db/muslims/population_census/muslim_population_by_country.xlsx"

  /** The aviation years are FirstAviationYear .. AviationYearsEnd - 1. */
  const FirstAviationYear: nat := 2010
  const AviationYearsEnd: nat := 2020

  /** The pilgrimage globals, in the order that numbers them 1 to 4. */
  const PilgrimageVars: seq<string> := ["pilgrimage_2010", "pilgrimage_2016", "pilgrimage_2018", "pilgrimage_2019"]

  /** Where a source's path comes from: a global name, or a fixed path. */
  datatype Origin = Global(name: string) | Fixed(path: Path)

  /** A logical source: the key it gets in the source map, and its origin. */
  datatype Descriptor = Descriptor(key: string, origin: Origin)

  function AviationKey(year: nat): string {
    "aviation_" + DecimalString(year)
  }

  function PilgrimageKey(n: nat): string {
    "pilgrimage_" + DecimalString(n)
  }

  function AviationDescriptor(year: nat): Descriptor {
    Descriptor(AviationKey(year), Global(AviationKey(year)))
  }

  function PilgrimageDescriptor(n: nat): Descriptor
    requires 1 <= n <= |PilgrimageVars|
  {
    Descriptor(PilgrimageKey(n), Global(PilgrimageVars[n - 1]))
  }

  function FixedDescriptors(): seq<Descriptor> {
    [ Descriptor("countries", Global("countries")),
      Descriptor("global_holidays", Global("global_holidays")),
      Descriptor("population_census", Fixed(CensusPath)) ]
  }

  /** The aviation descriptors of the years before `end`, oldest first. */
  function AviationDescriptors(end: nat): seq<Descriptor>
    decreases end
  {
    if end <= FirstAviationYear then [] else AviationDescriptors(end - 1) + [AviationDescriptor(end - 1)]
  }

  /** The first `n` pilgrimage descriptors. */
  function PilgrimageDescriptors(n: nat): seq<Descriptor>
    requires n <= |PilgrimageVars|
  {
    if n == 0 then [] else PilgrimageDescriptors(n - 1) + [PilgrimageDescriptor(n)]
  }

  /** Every logical source, in the order the loader's discovery visits them. */
  function Descriptors(): seq<Descriptor> {
    FixedDescriptors() + AviationDescriptors(AviationYearsEnd) + PilgrimageDescriptors(|PilgrimageVars|)
  }

  /** A source takes part when it has a fixed path or its global is defined. */
  predicate Available(d: Descriptor, config: Config) {
    d.origin.Fixed? || d.origin.name in config
  }

  /** The normalised path of an available source. */
  function Located(d: Descriptor, config: Config, norm: Path -> Path): Path
    requires Available(d, config)
  {
    match d.origin
    case Fixed(p) => norm(p)
    case Global(name) => norm(config[name])
  }

  /** The source map after visiting the descriptors `ds` in order. */
  function Resolve(ds: seq<Descriptor>, config: Config, norm: Path -> Path): map<string, Path>
    decreases |ds|
  {
    if ds == [] then map[]
    else
      var acc := Resolve(ds[..|ds| - 1], config, norm);
      var d := ds[|ds| - 1];
      if Available(d, config) then acc[d.key := Located(d, config, norm)] else acc
  }

  /** The source map that discovery builds from `config`. */
  function SourcePaths(config: Config, norm: Path -> Path): map<string, Path> {
    Resolve(Descriptors(), config, norm)
  }

  // ----- Resolve: which keys it holds and where their paths come from -----

  /** Visiting one more descriptor. */
  lemma ResolveStep(ds: seq<Descriptor>, n: nat, config: Config, norm: Path -> Path)
    requires n < |ds|
    ensures Resolve(ds[..n + 1], config, norm)
         == (var acc := Resolve(ds[..n], config, norm);
             if Available(ds[n], config) then acc[ds[n].key := Located(ds[n], config, norm)] else acc)
  {
    assert ds[..n + 1][..n] == ds[..n];
  }

  /** A key is in the map exactly when some available descriptor carries it. */
  lemma {:induction false} ResolveKeys(ds: seq<Descriptor>, config: Config, norm: Path -> Path, k: string)
    ensures k in Resolve(ds, config, norm) <==> exists i :: 0 <= i < |ds| && ds[i].key == k && Available(ds[i], config)
    decreases |ds|
  {
    if ds != [] {
      var init := ds[..|ds| - 1];
      ResolveKeys(init, config, norm, k);
      assert forall i :: 0 <= i < |init| ==> init[i] == ds[i];
    }
  }

  /** An available descriptor whose key no later descriptor repeats supplies its key's path. */
  lemma {:induction false} ResolveLast(ds: seq<Descriptor>, config: Config, norm: Path -> Path, i: nat)
    requires i < |ds| && Available(ds[i], config)
    requires forall j :: i < j < |ds| ==> ds[j].key != ds[i].key
    ensures ds[i].key in Resolve(ds, config, norm)
    ensures Resolve(ds, config, norm)[ds[i].key] == Located(ds[i], config, norm)
    decreases |ds|
  {
    if i < |ds| - 1 {
      var init := ds[..|ds| - 1];
      assert init[i] == ds[i];
      ResolveLast(init, config, norm, i);
    }
  }

  // ----- the shape of the descriptor table -----

  lemma {:induction false} AviationDescriptorsShape(end: nat)
    ensures |AviationDescriptors(end)| == if end <= FirstAviationYear then 0 else end - FirstAviationYear
    ensures forall k :: 0 <= k < |AviationDescriptors(end)| ==>
      AviationDescriptors(end)[k] == AviationDescriptor(FirstAviationYear + k)
    decreases end
  {
    if end > FirstAviationYear {
      AviationDescriptorsShape(end - 1);
    }
  }

  lemma {:induction false} PilgrimageDescriptorsShape(n: nat)
    requires n <= |PilgrimageVars|
    ensures |PilgrimageDescriptors(n)| == n
    ensures forall k :: 0 <= k < n ==> PilgrimageDescriptors(n)[k] == PilgrimageDescriptor(k + 1)
  {
    if n > 0 {
      PilgrimageDescriptorsShape(n - 1);
    }
  }

  /** Positions 0-2 are the single files, 3-12 the aviation years, 13-16 the pilgrimage files. */
  lemma DescriptorsShape()
    ensures |Descriptors()| == 17
    ensures Descriptors()[..3] == FixedDescriptors()
    ensures forall i :: 3 <= i < 13 ==> Descriptors()[i] == AviationDescriptor(2007 + i)
    ensures forall i :: 13 <= i < 17 ==> Descriptors()[i] == PilgrimageDescriptor(i - 12)
  {
    AviationDescriptorsShape(AviationYearsEnd);
    PilgrimageDescriptorsShape(|PilgrimageVars|);
    var ds := Descriptors();
    var av := AviationDescriptors(AviationYearsEnd);
    var pg := PilgrimageDescriptors(|PilgrimageVars|);
    assert forall i :: 3 <= i < 13 ==> ds[i] == av[i - 3];
    assert forall i :: 13 <= i < 17 ==> ds[i] == pg[i - 13];
  }

  lemma KeyHeads(n: nat)
    ensures |AviationKey(n)| > 1 && |PilgrimageKey(n)| > 1
    ensures AviationKey(n)[0] == 'a' && PilgrimageKey(n)[0] == 'p' && PilgrimageKey(n)[1] == 'i'
  {
  }

  lemma AviationKeyInjective(a: nat, b: nat)
    requires AviationKey(a) == AviationKey(b)
    ensures a == b
  {
    AppendInjective("aviation_", DecimalString(a), DecimalString(b));
    DecimalStringInjective(a, b);
  }

  lemma PilgrimageKeyInjective(a: nat, b: nat)
    requires PilgrimageKey(a) == PilgrimageKey(b)
    ensures a == b
  {
    AppendInjective("pilgrimage_", DecimalString(a), DecimalString(b));
    DecimalStringInjective(a, b);
  }

  /** No two logical sources share a key, so none overwrites another in the map. */
  lemma KeysDistinct()
    ensures forall i, j :: 0 <= i < j < |Descriptors()| ==> Descriptors()[i].key != Descriptors()[j].key
  {
    var ds := Descriptors();
    DescriptorsShape();
    assert ds[0].key == "countries" && ds[1].key == "global_holidays" && ds[2].key == "population_census" by {
      assert ds[..3][0] == ds[0] && ds[..3][1] == ds[1] && ds[..3][2] == ds[2];
    }
    forall i, j | 0 <= i < j < |ds|
      ensures ds[i].key != ds[j].key
    {
      if j < 3 {
      } else if j < 13 {
        KeyHeads(2007 + j);
        if 3 <= i && ds[i].key == ds[j].key {
          AviationKeyInjective(2007 + i, 2007 + j);
        }
      } else {
        KeyHeads(j - 12);
        if 3 <= i < 13 {
          KeyHeads(2007 + i);
        } else if 13 <= i && ds[i].key == ds[j].key {
          PilgrimageKeyInjective(i - 12, j - 12);
        }
      }
    }
  }

  /** The descriptor at position i alone decides whether and where its key is in the source map. */
  lemma SourceOf(config: Config, norm: Path -> Path, i: nat)
    requires i < |Descriptors()|
    ensures Descriptors()[i].key in SourcePaths(config, norm) <==> Available(Descriptors()[i], config)
    ensures Available(Descriptors()[i], config) ==>
      SourcePaths(config, norm)[Descriptors()[i].key] == Located(Descriptors()[i], config, norm)
  {
    var ds := Descriptors();
    KeysDistinct();
    ResolveKeys(ds, config, norm, ds[i].key);
    if Available(ds[i], config) {
      ResolveLast(ds, config, norm, i);
    }
  }

  // ----- what discovery promises -----

  /** population_census is always a source, at the normalised fixed path. */
  lemma CensusAlwaysPresent(config: Config, norm: Path -> Path)
    ensures "population_census" in SourcePaths(config, norm)
    ensures SourcePaths(config, norm)["population_census"] == norm(CensusPath)
  {
    DescriptorsShape();
    assert Descriptors()[2] == FixedDescriptors()[2] by { assert Descriptors()[..3][2] == Descriptors()[2]; }
    SourceOf(config, norm, 2);
  }

  /** countries and global_holidays are sources exactly when their global is defined. */
  lemma SingleFileSources(config: Config, norm: Path -> Path, name: string)
    requires name == "countries" || name == "global_holidays"
    ensures name in SourcePaths(config, norm) <==> name in config
    ensures name in config ==> SourcePaths(config, norm)[name] == norm(config[name])
  {
    DescriptorsShape();
    var i := if name == "countries" then 0 else 1;
    assert Descriptors()[i] == FixedDescriptors()[i] by { assert Descriptors()[..3][i] == Descriptors()[i]; }
    SourceOf(config, norm, i);
  }

  /** aviation_<year> is a source exactly when that global is defined, for years 2010 to 2019. */
  lemma AviationSources(config: Config, norm: Path -> Path, year: nat)
    requires FirstAviationYear <= year < AviationYearsEnd
    ensures AviationKey(year) in SourcePaths(config, norm) <==> AviationKey(year) in config
    ensures AviationKey(year) in config ==> SourcePaths(config, norm)[AviationKey(year)] == norm(config[AviationKey(year)])
  {
    DescriptorsShape();
    SourceOf(config, norm, year - 2007);
  }

  /** pilgrimage_<n> is a source exactly when the n-th pilgrimage global is defined, and takes its path. */
  lemma PilgrimageSources(config: Config, norm: Path -> Path, n: nat)
    requires 1 <= n <= |PilgrimageVars|
    ensures PilgrimageKey(n) in SourcePaths(config, norm) <==> PilgrimageVars[n - 1] in config
    ensures PilgrimageVars[n - 1] in config ==> SourcePaths(config, norm)[PilgrimageKey(n)] == norm(config[PilgrimageVars[n - 1]])
  {
    DescriptorsShape();
    SourceOf(config, norm, n + 12);
  }

  /** Nothing else is ever a source. */
  lemma OnlyDescribedSources(config: Config, norm: Path -> Path, k: string)
    requires k in SourcePaths(config, norm)
    ensures || k == "countries" || k == "global_holidays" || k == "population_census"
            || (exists year :: FirstAviationYear <= year < AviationYearsEnd && k == AviationKey(year))
            || (exists n :: 1 <= n <= |PilgrimageVars| && k == PilgrimageKey(n))
  {
    var ds := Descriptors();
    DescriptorsShape();
    ResolveKeys(ds, config, norm, k);
    var i :| 0 <= i < |ds| && ds[i].key == k && Available(ds[i], config);
    if i < 3 {
      assert ds[i] == FixedDescriptors()[i] by { assert ds[..3][i] == ds[i]; }
    } else if i < 13 {
      assert k == AviationKey(2007 + i);
    } else {
      assert k == PilgrimageKey(i - 12);
    }
  }

}

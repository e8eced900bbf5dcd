/**
  The data the report is built from: the configured libraries and
  architectures, and the benchmark table (the parsed `benchmarks.json`),
  with the lookup keys the script builds by string concatenation.
*/
module Benchmarks {
  import opened Wrappers

  /** A benchmarked library: its configuration key, display name and
      project URL. The configuration lists them in column order. */
  datatype Library = Library(id: string, name: string, url: string)

  /** A platform the benchmarks ran on. */
  datatype Architecture = Architecture(id: string, name: string)

  /** The build configuration a run was made in. */
  datatype Context = Debug | Release

  function ContextName(c: Context): string {
    match c
    case Debug => "Debug"
    case Release => "Release"
  }

  /** The order in which the per-context statistics visit the contexts. */
  const Contexts: seq<Context> := [Debug, Release]

  /** One run: the medians of the used memory and of the system-measured
      memory (bytes), and the start time (milliseconds). `None` stands for a
      missing field; a start time of another type than number is `None` too. */
  datatype Sample = Sample(med: Option<int>, sysMed: Option<int>, startTime: Option<real>)

  /** What the benchmark data holds for one path: build size (bytes), build
      time (milliseconds) and the runs. */
  datatype Record = Record(buildSize: Option<int>, buildTime: Option<real>, benchmarks: Option<seq<Sample>>)

  /** `data[architecture].benchmarkData`, keyed by benchmark path. */
  type BenchmarkData = map<string, Record>

  /** The parsed benchmark file: architecture id to its benchmark data. */
  type BenchmarkTable = map<string, BenchmarkData>

  /** `../benchmark/${app}/${libraryId}`, where the build measures live. */
  function AppPath(app: string, libraryId: string): string {
    "../benchmark/" + app + "/" + libraryId
  }

  /** `../benchmark/${app}/${libraryId}/${context}`, where the runs live. */
  function ContextPath(app: string, libraryId: string, c: Context): string {
    AppPath(app, libraryId) + "/" + ContextName(c)
  }

  /** `libraryId + '/' + context`, the key of a statistic. */
  function StatKey(libraryId: string, c: Context): string {
    libraryId + "/" + ContextName(c)
  }

  /** Two statistic keys are equal only for the same library and context, so
      no statistic overwrites another one. */
  lemma StatKeyInjective(a: string, c: Context, b: string, d: Context)
    ensures StatKey(a, c) == StatKey(b, d) <==> a == b && c == d
  {
    var s, t := StatKey(a, c), StatKey(b, d);
    if s == t {
      assert s[|s| - 1] == t[|t| - 1];
      assert c == d;
      assert |a| == |b|;
      assert a == s[..|a|];
      assert b == t[..|b|];
    }
  }

  /** `Math.round(x)`: the nearest integer, halves rounded up. */
  function Round(x: real): (r: int)
    ensures x - 0.5 < r as real <= x + 0.5
  {
    (x + 0.5).Floor
  }
}

/**
  The statistics maps of one application on one architecture, keyed
  `libraryId/Context`: the build statistics (one `Release` entry per library)
  and the per-context statistics (a `Debug` and a `Release` entry per
  library, each an aggregate over the runs).
*/
module Stats {
  import opened Wrappers
  import opened Benchmarks
  import opened Aggregates

  /** A statistics map; a statistic is present when its key is there with a
      non-zero (truthy) value. */
  type StatMap = map<string, int>

  // Build statistics

  /** Which record field a build statistic reads. */
  datatype Field = BuildSize | BuildTime

  /** The field if it is truthy, formatted: the build size as it is, the
      build time rounded. A missing or zero field gives `None`. */
  function FieldValue(r: Record, field: Field): Option<int> {
    match field
    case BuildSize =>
      if r.buildSize.Some? && r.buildSize.value != 0 then Some(r.buildSize.value) else None
    case BuildTime =>
      if r.buildTime.Some? && r.buildTime.value != 0.0 then Some(Round(r.buildTime.value)) else None
  }

  /** The build statistic of one library, `None` when its record is missing
      or the field is not truthy. */
  function BuildEntry(bd: BenchmarkData, app: string, libraryId: string, field: Field): Option<int> {
    var path := AppPath(app, libraryId);
    if path in bd then FieldValue(bd[path], field) else None
  }

  function BuildStatsOf(bd: BenchmarkData, app: string, libs: seq<Library>, field: Field): StatMap {
    if libs == [] then map[]
    else
      var m := BuildStatsOf(bd, app, libs[..|libs| - 1], field);
      var id := libs[|libs| - 1].id;
      match BuildEntry(bd, app, id, field)
      case Some(v) => m[StatKey(id, Release) := v]
      case None => m
  }

  /** What `getStat` returns: nothing for an architecture the table lacks. */
  function BuildStats(table: BenchmarkTable, app: string, arch: string, libs: seq<Library>, field: Field): StatMap {
    if arch in table then BuildStatsOf(table[arch], app, libs, field) else map[]
  }

  /** `getStat`: visits the libraries in order and records the truthy field of
      each library that has a record. */
  method GetStat(table: BenchmarkTable, app: string, arch: string, libs: seq<Library>, field: Field)
    returns (stats: StatMap)
    ensures stats == BuildStats(table, app, arch, libs, field)
  {
    if arch !in table {
      return map[];
    }
    stats := map[];
    for i := 0 to |libs|
      invariant stats == BuildStatsOf(table[arch], app, libs[..i], field)
    {
      assert libs[..i + 1][..i] == libs[..i];
      var path := AppPath(app, libs[i].id);
      if path !in table[arch] {
        continue;
      }
      var value := FieldValue(table[arch][path], field);
      if value.None? {
        continue;
      }
      stats := stats[StatKey(libs[i].id, Release) := value.value];
    }
    assert libs[..|libs|] == libs;
  }

  lemma {:induction false} BuildStatsOfKeys(bd: BenchmarkData, app: string, libs: seq<Library>, field: Field)
    ensures forall k :: k in BuildStatsOf(bd, app, libs, field) <==>
      exists j :: 0 <= j < |libs| && k == StatKey(libs[j].id, Release) && BuildEntry(bd, app, libs[j].id, field).Some?
    ensures forall j :: 0 <= j < |libs| && BuildEntry(bd, app, libs[j].id, field).Some? ==>
      BuildStatsOf(bd, app, libs, field)[StatKey(libs[j].id, Release)] == BuildEntry(bd, app, libs[j].id, field).value
  {
    if libs != [] {
      var init := libs[..|libs| - 1];
      var last := libs[|libs| - 1];
      BuildStatsOfKeys(bd, app, init, field);
      assert forall j :: 0 <= j < |init| ==> init[j] == libs[j];
      forall j | 0 <= j < |libs| && BuildEntry(bd, app, libs[j].id, field).Some?
        ensures BuildStatsOf(bd, app, libs, field)[StatKey(libs[j].id, Release)] == BuildEntry(bd, app, libs[j].id, field).value
      {
        StatKeyInjective(libs[j].id, Release, last.id, Release);
      }
    }
  }

  /** The build statistics hold a `libraryId/Release` key exactly for the
      configured libraries whose record exists and whose field is truthy (a
      zero is left out), with the formatted field as its value; an
      architecture the table lacks gives the empty map. */
  lemma BuildStatsKeys(table: BenchmarkTable, app: string, arch: string, libs: seq<Library>, field: Field)
    ensures arch !in table ==> BuildStats(table, app, arch, libs, field) == map[]
    ensures forall k :: k in BuildStats(table, app, arch, libs, field) <==>
      arch in table &&
      exists j :: 0 <= j < |libs| && k == StatKey(libs[j].id, Release) &&
        AppPath(app, libs[j].id) in table[arch] && FieldValue(table[arch][AppPath(app, libs[j].id)], field).Some?
    ensures arch in table ==> forall j :: 0 <= j < |libs| && BuildEntry(table[arch], app, libs[j].id, field).Some? ==>
      BuildStats(table, app, arch, libs, field)[StatKey(libs[j].id, Release)] == BuildEntry(table[arch], app, libs[j].id, field).value
  {
    if arch in table {
      BuildStatsOfKeys(table[arch], app, libs, field);
    }
  }

  // Per-context statistics

  /** How the runs of one context are reduced to one number. */
  datatype Aggregate = MeanMemoryOf(gauge: Gauge) | MiddleStartTime

  function AggregateOf(agg: Aggregate, samples: seq<Sample>, before: (real, real) -> bool): int {
    match agg
    case MeanMemoryOf(g) => MeanMemory(samples, g)
    case MiddleStartTime => StartTimeStat(samples, before)
  }

  /** The statistic of one library in one context, `None` when its record is
      missing or has no runs. */
  function ContextEntry(bd: BenchmarkData, app: string, libraryId: string, c: Context,
                        agg: Aggregate, before: (real, real) -> bool): Option<int>
  {
    var path := ContextPath(app, libraryId, c);
    if path in bd && bd[path].benchmarks.Some? then Some(AggregateOf(agg, bd[path].benchmarks.value, before))
    else None
  }

  /** `m` with the entries of one library for the contexts `cs`, in order. */
  function WithContexts(m: StatMap, bd: BenchmarkData, app: string, libraryId: string, cs: seq<Context>,
                        agg: Aggregate, before: (real, real) -> bool): StatMap
  {
    if cs == [] then m
    else
      var m' := WithContexts(m, bd, app, libraryId, cs[..|cs| - 1], agg, before);
      var c := cs[|cs| - 1];
      match ContextEntry(bd, app, libraryId, c, agg, before)
      case Some(v) => m'[StatKey(libraryId, c) := v]
      case None => m'
  }

  function ContextStatsOf(bd: BenchmarkData, app: string, libs: seq<Library>,
                          agg: Aggregate, before: (real, real) -> bool): StatMap
  {
    if libs == [] then map[]
    else WithContexts(ContextStatsOf(bd, app, libs[..|libs| - 1], agg, before), bd, app,
                      libs[|libs| - 1].id, Contexts, agg, before)
  }

  /** What `getStatByTargets` returns: nothing for an architecture the table
      lacks. */
  function ContextStats(table: BenchmarkTable, app: string, arch: string, libs: seq<Library>,
                        agg: Aggregate, before: (real, real) -> bool): StatMap
  {
    if arch in table then ContextStatsOf(table[arch], app, libs, agg, before) else map[]
  }

  /** `getStatByTargets`: visits the libraries in order and, for each, the
      Debug then the Release context, aggregating the runs of every record
      that has them. */
  method GetStatByTargets(table: BenchmarkTable, app: string, arch: string, libs: seq<Library>,
                          agg: Aggregate, before: (real, real) -> bool)
    returns (stats: StatMap)
    ensures stats == ContextStats(table, app, arch, libs, agg, before)
  {
    if arch !in table {
      return map[];
    }
    var bd := table[arch];
    stats := map[];
    for i := 0 to |libs|
      invariant stats == ContextStatsOf(bd, app, libs[..i], agg, before)
    {
      assert libs[..i + 1][..i] == libs[..i];
      ghost var before_i := stats;
      for c := 0 to |Contexts|
        invariant stats == WithContexts(before_i, bd, app, libs[i].id, Contexts[..c], agg, before)
      {
        assert Contexts[..c + 1][..c] == Contexts[..c];
        var path := ContextPath(app, libs[i].id, Contexts[c]);
        if path !in bd || bd[path].benchmarks.None? {
          continue;
        }
        stats := stats[StatKey(libs[i].id, Contexts[c]) := AggregateOf(agg, bd[path].benchmarks.value, before)];
      }
      assert Contexts[..|Contexts|] == Contexts;
    }
    assert libs[..|libs|] == libs;
  }

  lemma {:induction false} WithContextsKeys(m: StatMap, bd: BenchmarkData, app: string, id: string, cs: seq<Context>,
                                            agg: Aggregate, before: (real, real) -> bool)
    ensures forall k :: k in WithContexts(m, bd, app, id, cs, agg, before) <==>
      k in m || exists c :: c in cs && k == StatKey(id, c) && ContextEntry(bd, app, id, c, agg, before).Some?
  {
    if cs != [] {
      var init := cs[..|cs| - 1];
      WithContextsKeys(m, bd, app, id, init, agg, before);
      assert forall c :: c in cs <==> c in init || c == cs[|cs| - 1];
    }
  }

  lemma {:induction false} WithContextsValues(m: StatMap, bd: BenchmarkData, app: string, id: string, cs: seq<Context>,
                                              agg: Aggregate, before: (real, real) -> bool)
    ensures forall c :: c in cs && ContextEntry(bd, app, id, c, agg, before).Some? ==>
      StatKey(id, c) in WithContexts(m, bd, app, id, cs, agg, before) &&
      WithContexts(m, bd, app, id, cs, agg, before)[StatKey(id, c)] == ContextEntry(bd, app, id, c, agg, before).value
  {
    if cs != [] {
      var init := cs[..|cs| - 1];
      var last := cs[|cs| - 1];
      var prev := WithContexts(m, bd, app, id, init, agg, before);
      var e := ContextEntry(bd, app, id, last, agg, before);
      var next := WithContexts(m, bd, app, id, cs, agg, before);
      assert next == if e.Some? then prev[StatKey(id, last) := e.value] else prev;
      WithContextsValues(m, bd, app, id, init, agg, before);
      forall c | c in cs && ContextEntry(bd, app, id, c, agg, before).Some?
        ensures StatKey(id, c) in next && next[StatKey(id, c)] == ContextEntry(bd, app, id, c, agg, before).value
      {
        StatKeyInjective(id, c, id, last);
        if c != last {
          assert c in init;
        }
      }
    }
  }

  lemma {:induction false} WithContextsKeeps(m: StatMap, bd: BenchmarkData, app: string, id: string, cs: seq<Context>,
                                             agg: Aggregate, before: (real, real) -> bool)
    ensures forall k :: k in m && (forall c :: c in cs ==> k != StatKey(id, c)) ==>
      k in WithContexts(m, bd, app, id, cs, agg, before) && WithContexts(m, bd, app, id, cs, agg, before)[k] == m[k]
  {
    if cs != [] {
      var init := cs[..|cs| - 1];
      WithContextsKeeps(m, bd, app, id, init, agg, before);
      WithContextsKeys(m, bd, app, id, init, agg, before);
      assert forall c :: c in init ==> c in cs;
    }
  }

  lemma AllContexts(c: Context)
    ensures c in Contexts
  {
    if c.Debug? {
      assert c == Contexts[0];
    } else {
      assert c == Contexts[1];
    }
  }

  lemma {:induction false} ContextStatsOfKeys(bd: BenchmarkData, app: string, libs: seq<Library>,
                                              agg: Aggregate, before: (real, real) -> bool)
    ensures forall k :: k in ContextStatsOf(bd, app, libs, agg, before) <==>
      exists j, c :: 0 <= j < |libs| && k == StatKey(libs[j].id, c) && ContextEntry(bd, app, libs[j].id, c, agg, before).Some?
  {
    if libs != [] {
      var init := libs[..|libs| - 1];
      var last := libs[|libs| - 1];
      var m := ContextStatsOf(bd, app, init, agg, before);
      ContextStatsOfKeys(bd, app, init, agg, before);
      WithContextsKeys(m, bd, app, last.id, Contexts, agg, before);
      assert forall j :: 0 <= j < |init| ==> init[j] == libs[j];
      forall k | k in ContextStatsOf(bd, app, libs, agg, before)
        ensures exists j, c :: 0 <= j < |libs| && k == StatKey(libs[j].id, c) && ContextEntry(bd, app, libs[j].id, c, agg, before).Some?
      {
        if k !in m {
          var c :| k == StatKey(last.id, c) && ContextEntry(bd, app, last.id, c, agg, before).Some?;
          assert libs[|libs| - 1] == last;
        }
      }
      forall k | exists j, c :: 0 <= j < |libs| && k == StatKey(libs[j].id, c) && ContextEntry(bd, app, libs[j].id, c, agg, before).Some?
        ensures k in ContextStatsOf(bd, app, libs, agg, before)
      {
        var j, c :| 0 <= j < |libs| && k == StatKey(libs[j].id, c) && ContextEntry(bd, app, libs[j].id, c, agg, before).Some?;
        if j == |libs| - 1 {
          AllContexts(c);
        }
      }
    }
  }

  lemma {:induction false} ContextStatsOfValues(bd: BenchmarkData, app: string, libs: seq<Library>,
                                                agg: Aggregate, before: (real, real) -> bool)
    ensures forall j, c :: 0 <= j < |libs| && ContextEntry(bd, app, libs[j].id, c, agg, before).Some? ==>
      StatKey(libs[j].id, c) in ContextStatsOf(bd, app, libs, agg, before) &&
      ContextStatsOf(bd, app, libs, agg, before)[StatKey(libs[j].id, c)] == ContextEntry(bd, app, libs[j].id, c, agg, before).value
  {
    ContextStatsOfKeys(bd, app, libs, agg, before);
    if libs != [] {
      var init := libs[..|libs| - 1];
      var last := libs[|libs| - 1];
      var m := ContextStatsOf(bd, app, init, agg, before);
      ContextStatsOfValues(bd, app, init, agg, before);
      ContextStatsOfKeys(bd, app, init, agg, before);
      WithContextsValues(m, bd, app, last.id, Contexts, agg, before);
      WithContextsKeeps(m, bd, app, last.id, Contexts, agg, before);
      forall j, c | 0 <= j < |libs| && ContextEntry(bd, app, libs[j].id, c, agg, before).Some?
        ensures StatKey(libs[j].id, c) in ContextStatsOf(bd, app, libs, agg, before) &&
          ContextStatsOf(bd, app, libs, agg, before)[StatKey(libs[j].id, c)] == ContextEntry(bd, app, libs[j].id, c, agg, before).value
      {
        AllContexts(c);
        if libs[j].id != last.id {
          assert j < |init| && init[j] == libs[j];
          forall c' ensures StatKey(libs[j].id, c) != StatKey(last.id, c') {
            StatKeyInjective(libs[j].id, c, last.id, c');
          }
        }
      }
    }
  }

  /** The per-context statistics hold a key exactly for the pairs of a
      configured library and a context whose record exists and has runs; the
      key is `libraryId/Debug` or `libraryId/Release` and the value aggregates
      those runs; an architecture the table lacks gives the empty map. */
  lemma ContextStatsKeys(table: BenchmarkTable, app: string, arch: string, libs: seq<Library>,
                         agg: Aggregate, before: (real, real) -> bool)
    ensures arch !in table ==> ContextStats(table, app, arch, libs, agg, before) == map[]
    ensures forall k :: k in ContextStats(table, app, arch, libs, agg, before) <==>
      arch in table &&
      exists j, c :: 0 <= j < |libs| && k == StatKey(libs[j].id, c) &&
        ContextPath(app, libs[j].id, c) in table[arch] && table[arch][ContextPath(app, libs[j].id, c)].benchmarks.Some?
    ensures arch in table ==> forall j, c ::
      (0 <= j < |libs| && ContextPath(app, libs[j].id, c) in table[arch] &&
       table[arch][ContextPath(app, libs[j].id, c)].benchmarks.Some?) ==>
      ContextStats(table, app, arch, libs, agg, before)[StatKey(libs[j].id, c)] ==
        AggregateOf(agg, table[arch][ContextPath(app, libs[j].id, c)].benchmarks.value, before)
  {
    if arch in table {
      ContextStatsOfKeys(table[arch], app, libs, agg, before);
      ContextStatsOfValues(table[arch], app, libs, agg, before);
    }
  }
}

/**
  The whole generated README: the substituted template, then for every
  application a title, five statistics tables (build size, build time,
  memory of the main process and children, system-measured memory, start
  duration) and the footnotes of its custom messages, then the closing
  template.
*/
module Report {
  import opened Wrappers
  import opened Text
  import opened Benchmarks
  import opened Aggregates
  import opened Stats
  import opened Units
  import opened Render
  import opened Template

  /** The configuration the script imports: the applications, architectures
      and libraries in order, the custom messages and the requests. */
  datatype Config = Config(apps: seq<string>, architectures: seq<Architecture>, libraries: seq<Library>,
                           custom: CustomMessages, requested: RequestedArchitectures)

  /** The five tables of an application section. */
  datatype Metric = BuildSizeTable | BuildTimeTable | MemoryTable | SystemMemoryTable | StartTimeTable

  function Heading(m: Metric): string {
    match m
    case BuildSizeTable => "\n### Build size  "
    case BuildTimeTable => "\n### Build time  "
    case MemoryTable => MemoryUsagePrefix() + "used memory for main process and children ones) "
    case SystemMemoryTable =>
      MemoryUsagePrefix() + "difference between system measured free memory before execution and during execution)"
    case StartTimeTable => "\n### Start duration  "
  }

  /** What the headings of the two memory tables share; kept apart so that
      the verifier does not unfold one long literal. */
  function MemoryUsagePrefix(): string {
    "\n### Memory Usage - (Average of runs) Median of "
  }

  function FormatterOf(m: Metric): Formatter {
    match m
    case BuildSizeTable => Bytes
    case BuildTimeTable => Millis
    case MemoryTable => Bytes
    case SystemMemoryTable => Bytes
    case StartTimeTable => Millis
  }

  /** The build tables leave Release values untagged. */
  predicate IsBuildTable(m: Metric) {
    m == BuildSizeTable || m == BuildTimeTable
  }

  function TableOf(cfg: Config, app: string, m: Metric): Table {
    Table(app, FormatterOf(m), !IsBuildTable(m), cfg.custom, cfg.requested)
  }

  /** The statistics a table shows for one architecture: `getBuildSizeStats`,
      `getBuildTimeStats`, `getMemoryStats`, `getSystemMemoryStats` or
      `getStartTimeStats`. `before` is the order the start times are sorted
      by. */
  function MetricStats(m: Metric, table: BenchmarkTable, app: string, arch: string, libs: seq<Library>,
                       before: (real, real) -> bool): StatMap
  {
    match m
    case BuildSizeTable => BuildStats(table, app, arch, libs, BuildSize)
    case BuildTimeTable => BuildStats(table, app, arch, libs, BuildTime)
    case MemoryTable => ContextStats(table, app, arch, libs, MeanMemoryOf(Med), before)
    case SystemMemoryTable => ContextStats(table, app, arch, libs, MeanMemoryOf(SysMed), before)
    case StartTimeTable => ContextStats(table, app, arch, libs, MiddleStartTime, before)
  }

  method GetMetricStats(m: Metric, table: BenchmarkTable, app: string, arch: string, libs: seq<Library>,
                        before: (real, real) -> bool)
    returns (stats: StatMap)
    ensures stats == MetricStats(m, table, app, arch, libs, before)
  {
    match m
    case BuildSizeTable => stats := GetStat(table, app, arch, libs, BuildSize);
    case BuildTimeTable => stats := GetStat(table, app, arch, libs, BuildTime);
    case MemoryTable => stats := GetStatByTargets(table, app, arch, libs, MeanMemoryOf(Med), before);
    case SystemMemoryTable => stats := GetStatByTargets(table, app, arch, libs, MeanMemoryOf(SysMed), before);
    case StartTimeTable => stats := GetStatByTargets(table, app, arch, libs, MiddleStartTime, before);
  }

  // One table

  /** The row of one architecture, or nothing when it has no statistics. */
  function RowText(cfg: Config, table: BenchmarkTable, before: (real, real) -> bool, app: string, m: Metric,
                   arch: Architecture): string
  {
    var stats := MetricStats(m, table, app, arch.id, cfg.libraries, before);
    match TableLine(TableOf(cfg, app, m), arch, stats, cfg.libraries)
    case Some(line) => line
    case None => ""
  }

  /** The rows of the architectures, in order. */
  function Rows(cfg: Config, table: BenchmarkTable, before: (real, real) -> bool, app: string, m: Metric,
                archs: seq<Architecture>): seq<string>
  {
    MapSeq(archs, arch => RowText(cfg, table, before, app, m, arch))
  }

  /** A table: its heading, the header, and the rows of the architectures. */
  function MetricSection(cfg: Config, table: BenchmarkTable, before: (real, real) -> bool, app: string, m: Metric): string {
    Heading(m) + Header(cfg.libraries) + Concat(Rows(cfg, table, before, app, m, cfg.architectures))
  }

  /** One table block of the application loop. */
  method WriteMetric(cfg: Config, table: BenchmarkTable, before: (real, real) -> bool, app: string, m: Metric)
    returns (section: string)
    ensures section == MetricSection(cfg, table, before, app, m)
  {
    section := Heading(m);
    var header := GenerateHeader(cfg.libraries);
    section := section + header;
    var rows := WriteRows(cfg, table, before, app, m, cfg.architectures);
    section := section + rows;
  }

  /** The loop over the architectures of one table block. */
  method WriteRows(cfg: Config, table: BenchmarkTable, before: (real, real) -> bool, app: string, m: Metric,
                   archs: seq<Architecture>)
    returns (rows: string)
    ensures rows == Concat(Rows(cfg, table, before, app, m, archs))
  {
    rows := "";
    for i := 0 to |archs|
      invariant rows == Concat(Rows(cfg, table, before, app, m, archs[..i]))
    {
      MapSeqSnoc(archs, i, arch => RowText(cfg, table, before, app, m, arch));
      var stats := GetMetricStats(m, table, app, archs[i].id, cfg.libraries, before);
      var line := MarkdownTableLine(TableOf(cfg, app, m), archs[i], stats, cfg.libraries);
      ConcatAppend(Rows(cfg, table, before, app, m, archs[..i]), RowText(cfg, table, before, app, m, archs[i]));
      if line.Some? {
        rows := rows + line.value;
      } else {
        assert rows + "" == rows;
      }
    }
    assert archs[..|archs|] == archs;
  }

  // Footnotes

  function FootnoteLine(msg: CustomMessage): string {
    "**<sup>" + msg.key + "</sup>**: " + msg.value + "  \n"
  }

  function FootnoteLines(msgs: AppMessages): seq<string> {
    if msgs == [] then [] else FootnoteLines(msgs[..|msgs| - 1]) + [FootnoteLine(msgs[|msgs| - 1].1)]
  }

  /** The footnotes of an application: present whenever the application has
      custom messages configured, one line per message in order. */
  function Footnotes(custom: CustomMessages, app: string): string {
    if app in custom then "\n" + Concat(FootnoteLines(custom[app])) + "\n\n" else ""
  }

  lemma FootnoteLinesSnoc(msgs: AppMessages, j: nat)
    requires j < |msgs|
    ensures FootnoteLines(msgs[..j + 1]) == FootnoteLines(msgs[..j]) + [FootnoteLine(msgs[j].1)]
  {
    assert msgs[..j + 1][..j] == msgs[..j];
  }

  /** The footnote block of the application loop. */
  method WriteFootnotes(custom: CustomMessages, app: string) returns (text: string)
    ensures text == Footnotes(custom, app)
  {
    if app !in custom {
      return "";
    }
    text := "\n";
    var lines := WriteFootnoteLines(custom[app]);
    text := text + lines;
    text := text + "\n\n";
  }

  /** The footnote loop: one line per message, in order. */
  method WriteFootnoteLines(msgs: AppMessages) returns (lines: string)
    ensures lines == Concat(FootnoteLines(msgs))
  {
    lines := "";
    for j := 0 to |msgs|
      invariant lines == Concat(FootnoteLines(msgs[..j]))
    {
      FootnoteLinesSnoc(msgs, j);
      ConcatAppend(FootnoteLines(msgs[..j]), FootnoteLine(msgs[j].1));
      lines := lines + FootnoteLine(msgs[j].1);
    }
    assert msgs[..|msgs|] == msgs;
  }

  // Application sections

  function AppTitle(app: string): string {
    "\n" + "# " + app + "\n" + "\n"
    + "See source in [benchmark/" + app
    + "](" + RepositoryUrl() + "/tree/main/benchmark/" + app + "/) folder."
    + "\n\n"
  }

  function RepositoryUrl(): string {
    "https://github.com/Elanis/web-to-desktop-framework-comparison"
  }

  /** The order of the tables in a section. */
  const TableOrder: seq<Metric> := [BuildSizeTable, BuildTimeTable, MemoryTable, SystemMemoryTable, StartTimeTable]

  function MetricSections(cfg: Config, table: BenchmarkTable, before: (real, real) -> bool, app: string,
                          ms: seq<Metric>): string
  {
    if ms == [] then ""
    else MetricSections(cfg, table, before, app, ms[..|ms| - 1]) + MetricSection(cfg, table, before, app, ms[|ms| - 1])
  }

  /** The section of one application: title, the five tables in their fixed
      order, footnotes. */
  function AppSection(cfg: Config, table: BenchmarkTable, before: (real, real) -> bool, app: string): string {
    AppTitle(app) + MetricSections(cfg, table, before, app, TableOrder) + Footnotes(cfg.custom, app)
  }

  /** The five tables, written one after the other. */
  lemma TableOrderSections(cfg: Config, table: BenchmarkTable, before: (real, real) -> bool, app: string)
    ensures MetricSections(cfg, table, before, app, TableOrder)
      == MetricSection(cfg, table, before, app, BuildSizeTable)
         + MetricSection(cfg, table, before, app, BuildTimeTable)
         + MetricSection(cfg, table, before, app, MemoryTable)
         + MetricSection(cfg, table, before, app, SystemMemoryTable)
         + MetricSection(cfg, table, before, app, StartTimeTable)
  {
    var m1 := MetricSection(cfg, table, before, app, BuildSizeTable);
    var m2 := MetricSection(cfg, table, before, app, BuildTimeTable);
    var m3 := MetricSection(cfg, table, before, app, MemoryTable);
    var m4 := MetricSection(cfg, table, before, app, SystemMemoryTable);
    var m5 := MetricSection(cfg, table, before, app, StartTimeTable);
    var t := TableOrder;
    assert t[..4] == [BuildSizeTable, BuildTimeTable, MemoryTable, SystemMemoryTable];
    assert t[..4][..3] == [BuildSizeTable, BuildTimeTable, MemoryTable];
    assert t[..4][..3][..2] == [BuildSizeTable, BuildTimeTable];
    assert t[..4][..3][..2][..1] == [BuildSizeTable];
    assert MetricSections(cfg, table, before, app, [BuildSizeTable]) == m1 by {
      assert [BuildSizeTable][..0] == [];
      assert "" + m1 == m1;
    }
    assert MetricSections(cfg, table, before, app, [BuildSizeTable, BuildTimeTable]) == m1 + m2;
    assert MetricSections(cfg, table, before, app, [BuildSizeTable, BuildTimeTable, MemoryTable]) == m1 + m2 + m3;
    assert MetricSections(cfg, table, before, app, t[..4]) == m1 + m2 + m3 + m4;
  }

  /** The body of the application loop. */
  method WriteApp(cfg: Config, table: BenchmarkTable, before: (real, real) -> bool, app: string)
    returns (section: string)
    ensures section == AppSection(cfg, table, before, app)
  {
    section := AppTitle(app);
    var tables := WriteMetric(cfg, table, before, app, BuildSizeTable);
    var buildTime := WriteMetric(cfg, table, before, app, BuildTimeTable);
    tables := tables + buildTime;
    var memory := WriteMetric(cfg, table, before, app, MemoryTable);
    tables := tables + memory;
    var systemMemory := WriteMetric(cfg, table, before, app, SystemMemoryTable);
    tables := tables + systemMemory;
    var startTime := WriteMetric(cfg, table, before, app, StartTimeTable);
    tables := tables + startTime;
    TableOrderSections(cfg, table, before, app);
    section := section + tables;
    var footnotes := WriteFootnotes(cfg.custom, app);
    section := section + footnotes;
  }

  /** The sections of the applications, in order. */
  function AppSections(cfg: Config, table: BenchmarkTable, before: (real, real) -> bool, apps: seq<string>): seq<string> {
    MapSeq(apps, app => AppSection(cfg, table, before, app))
  }

  /** The README: the substituted opening template, the application sections
      in order, the closing template; `None` when the substitution fails. */
  function Readme(cfg: Config, table: BenchmarkTable, before: (real, real) -> bool, repo: RepoTable,
                  kilo: int -> string, begin: string, end: string): Option<string>
  {
    match Substituted(begin, cfg.libraries, repo, kilo)
    case None => None
    case Some(head) => Some(head + Concat(AppSections(cfg, table, before, cfg.apps)) + end)
  }

  /** The script after its inputs are read. */
  method WriteReadme(cfg: Config, table: BenchmarkTable, before: (real, real) -> bool, repo: RepoTable,
                     kilo: int -> string, begin: string, end: string)
    returns (readme: Option<string>)
    ensures readme == Readme(cfg, table, before, repo, kilo, begin, end)
  {
    var head := SubstituteTemplate(begin, cfg.libraries, repo, kilo);
    if head.None? {
      return None;
    }
    var fileStr := head.value;
    var sections := WriteApps(cfg, table, before, cfg.apps);
    fileStr := fileStr + sections;
    fileStr := fileStr + end;
    readme := Some(fileStr);
  }

  /** The loop over the applications. */
  method WriteApps(cfg: Config, table: BenchmarkTable, before: (real, real) -> bool, apps: seq<string>)
    returns (sections: string)
    ensures sections == Concat(AppSections(cfg, table, before, apps))
  {
    sections := "";
    for i := 0 to |apps|
      invariant sections == Concat(AppSections(cfg, table, before, apps[..i]))
    {
      MapSeqSnoc(apps, i, app => AppSection(cfg, table, before, app));
      var section := WriteApp(cfg, table, before, apps[i]);
      ConcatAppend(AppSections(cfg, table, before, apps[..i]), section);
      sections := sections + section;
    }
    assert apps[..|apps|] == apps;
  }

  // Properties

  /** A table lists, in configuration order, one row for each architecture
      that has statistics for it, and nothing for the others. */
  lemma TableRows(cfg: Config, table: BenchmarkTable, before: (real, real) -> bool, app: string, m: Metric)
    ensures var archs := cfg.architectures;
      var rows := Rows(cfg, table, before, app, m, archs);
      && |rows| == |archs|
      && MetricSection(cfg, table, before, app, m) == Heading(m) + Header(cfg.libraries) + Concat(rows)
      && forall i :: 0 <= i < |archs| ==>
        (rows[i] == "" <==> |MetricStats(m, table, app, archs[i].id, cfg.libraries, before)| == 0)
  {
    var archs := cfg.architectures;
    forall i | 0 <= i < |archs|
      ensures Rows(cfg, table, before, app, m, archs)[i] == ""
        <==> |MetricStats(m, table, app, archs[i].id, cfg.libraries, before)| == 0
    {
      var stats := MetricStats(m, table, app, archs[i].id, cfg.libraries, before);
      TableLineShape(TableOf(cfg, app, m), archs[i], stats, cfg.libraries);
    }
  }

  /** In the build tables no statistic has a Debug key, so a library with a
      value and no custom message shows the bare formatted value, with no
      context tag. */
  lemma BuildCellsBare(cfg: Config, table: BenchmarkTable, before: (real, real) -> bool, app: string, m: Metric,
                       arch: Architecture, lib: Library)
    requires IsBuildTable(m)
    requires CustomMessageFor(cfg.custom, app, lib.id).None?
    requires Present(MetricStats(m, table, app, arch.id, cfg.libraries, before), StatKey(lib.id, Release))
    ensures var stats := MetricStats(m, table, app, arch.id, cfg.libraries, before);
      Cell(TableOf(cfg, app, m), arch, stats, lib) == " " + Format(FormatterOf(m), stats[StatKey(lib.id, Release)]) + " |"
  {
    var stats := MetricStats(m, table, app, arch.id, cfg.libraries, before);
    var field := if m == BuildSizeTable then BuildSize else BuildTime;
    assert stats == BuildStats(table, app, arch.id, cfg.libraries, field);
    BuildStatsKeys(table, app, arch.id, cfg.libraries, field);
    assert StatKey(lib.id, Debug) !in stats by {
      forall j | 0 <= j < |cfg.libraries|
        ensures StatKey(lib.id, Debug) != StatKey(cfg.libraries[j].id, Release)
      {
        StatKeyInjective(lib.id, Debug, cfg.libraries[j].id, Release);
      }
    }
    DataCellShown(TableOf(cfg, app, m), arch, stats, lib);
  }

  lemma {:induction false} FootnoteLinesAt(msgs: AppMessages)
    ensures |FootnoteLines(msgs)| == |msgs|
    ensures forall i :: 0 <= i < |msgs| ==> FootnoteLines(msgs)[i] == FootnoteLine(msgs[i].1)
  {
    if msgs != [] {
      var init := msgs[..|msgs| - 1];
      assert forall i :: 0 <= i < |init| ==> init[i] == msgs[i];
      FootnoteLinesAt(init);
    }
  }

  /** Every custom message a cell shows has its footnote line in the section
      of the same application: `**<sup>key</sup>**: value`. */
  lemma FootnoteForEveryMessage(custom: CustomMessages, app: string, libraryId: string)
    requires CustomMessageFor(custom, app, libraryId).Some?
    ensures app in custom
    ensures var lines := FootnoteLines(custom[app]);
      && Footnotes(custom, app) == "\n" + Concat(lines) + "\n\n"
      && exists i :: 0 <= i < |lines| && lines[i] == FootnoteLine(CustomMessageFor(custom, app, libraryId).value)
  {
    var msgs := custom[app];
    FootnoteLinesAt(msgs);
    var i :| 0 <= i < |msgs| && msgs[i] == (libraryId, CustomMessageFor(custom, app, libraryId).value);
    assert FootnoteLines(msgs)[i] == FootnoteLine(msgs[i].1);
  }

  /** An application without custom messages gets no footnotes. */
  lemma NoFootnotes(custom: CustomMessages, app: string)
    requires app !in custom
    ensures Footnotes(custom, app) == ""
    ensures forall id :: CustomMessageFor(custom, app, id).None?
  {
  }

  /** The README exists exactly when the template substitution succeeds; it
      then starts with the substituted template, holds one section per
      application in order, each opening with the application's title, and
      ends with the closing template. */
  lemma ReadmeShape(cfg: Config, table: BenchmarkTable, before: (real, real) -> bool, repo: RepoTable,
                    kilo: int -> string, begin: string, end: string)
    ensures Readme(cfg, table, before, repo, kilo, begin, end).Some?
      <==> Substituted(begin, cfg.libraries, repo, kilo).Some?
    ensures Readme(cfg, table, before, repo, kilo, begin, end).Some? ==>
      var head := Substituted(begin, cfg.libraries, repo, kilo).value;
      var sections := AppSections(cfg, table, before, cfg.apps);
      && |sections| == |cfg.apps|
      && (forall i :: 0 <= i < |cfg.apps| ==> StartsWith(sections[i], AppTitle(cfg.apps[i])))
      && Readme(cfg, table, before, repo, kilo, begin, end).value == head + Concat(sections) + end
  {
    var sections := AppSections(cfg, table, before, cfg.apps);
    forall i | 0 <= i < |cfg.apps|
      ensures StartsWith(sections[i], AppTitle(cfg.apps[i]))
    {
      var app := cfg.apps[i];
      var t := AppTitle(app);
      var tables := MetricSections(cfg, table, before, app, TableOrder);
      StartsWithSelf(t, tables);
      StartsWithMore(t + tables, t, Footnotes(cfg.custom, app));
    }
  }
}

/**
  The markdown of one statistics table: the header with one column per
  library, and one row per architecture whose cells follow a fixed
  precedence: a custom message, then the data, then a "Requested" link,
  then `?`.
*/
module Render {
  import opened Wrappers
  import opened Text
  import opened Benchmarks
  import opened Stats
  import opened Units

  /** A configured explanation that replaces a cell, shown as a footnote. */
  datatype CustomMessage = CustomMessage(key: string, value: string)

  /** The custom messages of one application: library id and message, in
      configuration order. */
  type AppMessages = seq<(string, CustomMessage)>

  /** `customMessages`: application to its messages. */
  type CustomMessages = map<string, AppMessages>

  /** `requestedArchitectures`: architecture id to library id to the URL of
      the request. */
  type RequestedArchitectures = map<string, map<string, string>>

  /** The message configured for a library, the first one listed. */
  function FindMessage(msgs: AppMessages, libraryId: string): (r: Option<CustomMessage>)
    ensures r.Some? <==> exists i :: 0 <= i < |msgs| && msgs[i].0 == libraryId
    ensures r.Some? ==> exists i :: 0 <= i < |msgs| && msgs[i] == (libraryId, r.value)
  {
    if msgs == [] then None
    else if msgs[0].0 == libraryId then Some(msgs[0].1)
    else
      var r := FindMessage(msgs[1..], libraryId);
      assert forall i :: 0 <= i < |msgs| - 1 ==> msgs[1..][i] == msgs[i + 1];
      r
  }

  /** `customMessages[app] && customMessages[app][libraryId]` */
  function CustomMessageFor(custom: CustomMessages, app: string, libraryId: string): Option<CustomMessage> {
    if app in custom then FindMessage(custom[app], libraryId) else None
  }

  /** `requestedArchitectures[arch] && requestedArchitectures[arch][libraryId]`:
      an empty URL is falsy and counts as no request. */
  function RequestedUrl(requested: RequestedArchitectures, arch: string, libraryId: string): Option<string> {
    if arch in requested && libraryId in requested[arch] && requested[arch][libraryId] != ""
    then Some(requested[arch][libraryId])
    else None
  }

  /** A statistic is present when its key holds a truthy (non-zero) value. */
  predicate Present(stats: StatMap, key: string) {
    key in stats && stats[key] != 0
  }

  /** The formatter a table applies to its values. */
  datatype Formatter = Bytes | Millis

  function Format(f: Formatter, v: int): (text: string)
    ensures |text| > 0
  {
    match f
    case Bytes => MemoryText(v)
    case Millis => FormatTime(v)
  }

  /** `formatStat(value)` */
  method FormatStat(f: Formatter, v: int) returns (text: string)
    ensures text == Format(f, v)
  {
    match f
    case Bytes =>
      text := GetUnitFromMemory(v);
    case Millis =>
      text := FormatTime(v);
  }

  /** What stays fixed while the rows of one table are written: the
      application, its formatter, whether Release values are tagged, and
      the configured custom messages and requests. */
  datatype Table = Table(app: string, format: Formatter, showReleaseTag: bool,
                         custom: CustomMessages, requested: RequestedArchitectures)

  /** The data of a cell whose library has a Debug or a Release value: both
      as `debug => release` when both are present, else the one that is.
      Debug is always tagged; Release only when the table shows the tag. */
  function DataText(stats: StatMap, libraryId: string, f: Formatter, showReleaseTag: bool): string
    requires Present(stats, StatKey(libraryId, Debug)) || Present(stats, StatKey(libraryId, Release))
  {
    var d, r := StatKey(libraryId, Debug), StatKey(libraryId, Release);
    var debug := if Present(stats, d) then Format(f, stats[d]) + " (Debug)" else "";
    var release := if Present(stats, r) then Format(f, stats[r]) + (if showReleaseTag then " (Release)" else "") else "";
    if Present(stats, d) && Present(stats, r) then debug + " => " + release
    else if Present(stats, d) then debug
    else release
  }

  function MessageCell(key: string): string {
    " N/A<sup>" + key + "</sup>|"
  }

  function DataCell(text: string): string {
    " " + text + " |"
  }

  function RequestedCell(url: string): string {
    " [Requested](" + url + ") |"
  }

  const UnknownCell: string := " ? |"

  /** The cell of one library in the row of one architecture. */
  function Cell(t: Table, arch: Architecture, stats: StatMap, lib: Library): (cell: string)
    ensures |cell| >= 3 && cell[0] == ' ' && cell[|cell| - 1] == '|'
  {
    var d, r := StatKey(lib.id, Debug), StatKey(lib.id, Release);
    match CustomMessageFor(t.custom, t.app, lib.id)
    case Some(m) => MessageCell(m.key)
    case None =>
      if Present(stats, d) || Present(stats, r) then DataCell(DataText(stats, lib.id, t.format, t.showReleaseTag))
      else
        match RequestedUrl(t.requested, arch.id, lib.id)
        case Some(url) => RequestedCell(url)
        case None => UnknownCell
  }

  /** The loop body of `getMarkdownTableLine` for one library. */
  method CellOf(t: Table, arch: Architecture, stats: StatMap, lib: Library)
    returns (cell: string)
    ensures cell == Cell(t, arch, stats, lib)
  {
    var message := CustomMessageFor(t.custom, t.app, lib.id);
    if message.Some? {
      return MessageCell(message.value.key);
    }
    var d, r := StatKey(lib.id, Debug), StatKey(lib.id, Release);
    var url := RequestedUrl(t.requested, arch.id, lib.id);
    if Present(stats, d) || Present(stats, r) {
      // "" stands for the falsy raw value the JavaScript variable keeps
      // when the statistic is absent.
      var debug := "";
      if Present(stats, d) {
        var text := FormatStat(t.format, stats[d]);
        debug := text + " (Debug)";
      }
      var release := "";
      if Present(stats, r) && t.showReleaseTag {
        var text := FormatStat(t.format, stats[r]);
        release := text + " (Release)";
      } else if Present(stats, r) {
        release := FormatStat(t.format, stats[r]);
      }
      cell := "";
      if debug != "" && release != "" {
        cell := DataCell(debug + " => " + release);
      } else if debug != "" {
        cell := DataCell(debug);
      } else if release != "" {
        cell := DataCell(release);
      }
    } else if url.Some? {
      cell := RequestedCell(url.value);
    } else {
      cell := UnknownCell;
    }
  }

  /** The cells of the libraries, in configuration order. */
  function Cells(t: Table, arch: Architecture, stats: StatMap, libs: seq<Library>): (cells: seq<string>)
  {
    seq(|libs|, k requires 0 <= k < |libs| => Cell(t, arch, stats, libs[k]))
  }

  /** The row `getMarkdownTableLine` returns: none for an empty statistics
      map, else the architecture's name and the cells of the libraries. */
  function TableLine(t: Table, arch: Architecture, stats: StatMap, libs: seq<Library>): Option<string>
  {
    if |stats| == 0 then None
    else Some(RowHead(arch) + Concat(Cells(t, arch, stats, libs)) + "\n")
  }

  function RowHead(arch: Architecture): string {
    "| ***" + arch.name + "*** |"
  }

  /** `getMarkdownTableLine`, on the statistics map its caller computed. */
  method MarkdownTableLine(t: Table, arch: Architecture, stats: StatMap, libs: seq<Library>)
    returns (line: Option<string>)
    ensures line == TableLine(t, arch, stats, libs)
  {
    if |stats| == 0 {
      return None;
    }
    var output := RowHead(arch);
    var cells := RowCells(t, arch, stats, libs);
    output := output + cells;
    output := output + "\n";
    line := Some(output);
  }

  /** The loop of `getMarkdownTableLine`: the cell of each library, in
      configuration order. */
  method RowCells(t: Table, arch: Architecture, stats: StatMap, libs: seq<Library>)
    returns (output: string)
    ensures output == Concat(Cells(t, arch, stats, libs))
  {
    output := "";
    for i := 0 to |libs|
      invariant output == Concat(Cells(t, arch, stats, libs[..i]))
    {
      var cell := CellOf(t, arch, stats, libs[i]);
      CellsSnoc(t, arch, stats, libs, i);
      ConcatAppend(Cells(t, arch, stats, libs[..i]), cell);
      output := output + cell;
    }
    assert libs[..|libs|] == libs;
  }

  lemma CellsSnoc(t: Table, arch: Architecture, stats: StatMap, libs: seq<Library>, i: nat)
    requires i < |libs|
    ensures Cells(t, arch, stats, libs[..i + 1])
      == Cells(t, arch, stats, libs[..i])
         + [Cell(t, arch, stats, libs[i])]
  {
    assert libs[..i + 1][..i] == libs[..i];
  }

  /** An architecture gets a row exactly when its statistics map is not
      empty; the row is the name cell, then exactly one cell per library in
      configuration order, then a newline. */
  lemma TableLineShape(t: Table, arch: Architecture, stats: StatMap, libs: seq<Library>)
    ensures TableLine(t, arch, stats, libs).None? <==> |stats| == 0
    ensures |stats| > 0 ==> exists cells: seq<string> ::
      && |cells| == |libs|
      && (forall i :: 0 <= i < |libs| ==> cells[i] == Cell(t, arch, stats, libs[i]))
      && TableLine(t, arch, stats, libs)
         == Some("| ***" + arch.name + "*** |" + Concat(cells) + "\n")
  {
  }

  /** A custom message wins over everything, even over data. */
  lemma CustomMessageWins(t: Table, arch: Architecture, stats: StatMap, lib: Library)
    requires CustomMessageFor(t.custom, t.app, lib.id).Some?
    ensures Cell(t, arch, stats, lib)
      == " N/A<sup>" + CustomMessageFor(t.custom, t.app, lib.id).value.key + "</sup>|"
  {
  }

  /** Without a custom message, the data of a library with a Debug or Release
      value fills its cell: `debug => release` when both are present, else
      the one that is; Debug is always tagged, Release when the table says so. */
  lemma DataCellShown(t: Table, arch: Architecture, stats: StatMap, lib: Library)
    requires CustomMessageFor(t.custom, t.app, lib.id).None?
    requires Present(stats, StatKey(lib.id, Debug)) || Present(stats, StatKey(lib.id, Release))
    ensures var d, r := StatKey(lib.id, Debug), StatKey(lib.id, Release);
      var tag := if t.showReleaseTag then " (Release)" else "";
      var debug := if d in stats then Format(t.format, stats[d]) + " (Debug)" else "";
      var release := if r in stats then Format(t.format, stats[r]) + tag else "";
      && (Present(stats, d) && Present(stats, r) ==> Cell(t, arch, stats, lib) == DataCell(debug + " => " + release))
      && (Present(stats, d) && !Present(stats, r) ==> Cell(t, arch, stats, lib) == DataCell(debug))
      && (!Present(stats, d) && Present(stats, r) ==> Cell(t, arch, stats, lib) == DataCell(release))
  {
  }

  /** Without a custom message or data, a request link or else `?`. */
  lemma NoDataCell(t: Table, arch: Architecture, stats: StatMap, lib: Library)
    requires CustomMessageFor(t.custom, t.app, lib.id).None?
    requires !Present(stats, StatKey(lib.id, Debug)) && !Present(stats, StatKey(lib.id, Release))
    ensures Cell(t, arch, stats, lib)
      == match RequestedUrl(t.requested, arch.id, lib.id)
         case Some(url) => " [Requested](" + url + ") |"
         case None => " ? |"
  {
  }

  // The header

  function HeaderCell(lib: Library): string {
    " [" + lib.name + "](" + lib.url + ") |"
  }

  function HeaderCells(libs: seq<Library>): seq<string> {
    if libs == [] then [] else HeaderCells(libs[..|libs| - 1]) + [HeaderCell(libs[|libs| - 1])]
  }

  /** The centred column marker of the separator row. */
  const Marker: string := ":---:|"

  function HeaderHead(): string {
    "\n\n|  |"
  }

  /** The header of a table: a blank line, the row of library links after an
      empty corner cell, and the separator row with one column marker for the
      corner and one per library. */
  function Header(libs: seq<Library>): string {
    HeaderHead() + Concat(HeaderCells(libs)) + "\n" + ("|" + Repeat(Marker, |libs| + 1)) + "\n"
  }

  /** `generateHeader`: appends a link cell and a column marker per library. */
  method GenerateHeader(libs: seq<Library>) returns (header: string)
    ensures header == Header(libs)
  {
    var cells := "";
    var separator := "|:---:|";
    assert separator == "|" + Repeat(Marker, 1);
    for i := 0 to |libs|
      invariant cells == Concat(HeaderCells(libs[..i]))
      invariant separator == "|" + Repeat(Marker, i + 1)
    {
      HeaderCellsSnoc(libs, i);
      ConcatAppend(HeaderCells(libs[..i]), HeaderCell(libs[i]));
      cells := cells + HeaderCell(libs[i]);
      separator := separator + Marker;
    }
    assert libs[..|libs|] == libs;
    header := HeaderHead() + cells;
    header := header + "\n";
    header := header + separator + "\n";
  }

  lemma HeaderCellsSnoc(libs: seq<Library>, i: nat)
    requires i < |libs|
    ensures HeaderCells(libs[..i + 1]) == HeaderCells(libs[..i]) + [HeaderCell(libs[i])]
  {
    assert libs[..i + 1][..i] == libs[..i];
  }

  lemma {:induction false} HeaderCellsAt(libs: seq<Library>)
    ensures |HeaderCells(libs)| == |libs|
    ensures forall i :: 0 <= i < |libs| ==> HeaderCells(libs)[i] == HeaderCell(libs[i])
  {
    if libs != [] {
      var init := libs[..|libs| - 1];
      HeaderCellsAt(init);
      var done := HeaderCells(init);
      forall i | 0 <= i < |libs|
        ensures HeaderCells(libs)[i] == HeaderCell(libs[i])
      {
        if i < |init| {
          assert HeaderCells(libs)[i] == done[i] && init[i] == libs[i];
        }
      }
    }
  }

  /** The header is the corner cell, exactly one link cell per library in
      configuration order, and a separator row with |libs| + 1 column
      markers. */
  lemma HeaderShape(libs: seq<Library>)
    ensures exists cells: seq<string> ::
      && |cells| == |libs|
      && (forall i :: 0 <= i < |libs| ==> cells[i] == " [" + libs[i].name + "](" + libs[i].url + ") |")
      && Header(libs) == "\n\n|  |" + Concat(cells) + "\n" + ("|" + Repeat(":---:|", |libs| + 1)) + "\n"
  {
    HeaderCellsAt(libs);
    var cells := HeaderCells(libs);
    assert Header(libs) == "\n\n|  |" + Concat(cells) + "\n" + ("|" + Repeat(":---:|", |libs| + 1)) + "\n";
  }
}

/**
  The first part of the generated README: the template text, line by line,
  with the three repository-statistics rows (stars, forks, last update)
  rebuilt from the per-library repository statistics and every other line
  copied with its newline.
*/
module Template {
  import opened Wrappers
  import opened Text
  import opened Benchmarks

  /** One entry of the repository statistics: star count, fork count and the
      date of the last update, as text. */
  datatype RepoStats = RepoStats(stars: int, forks: int, lastUpdate: string)

  /** Library id to its repository statistics. */
  type RepoTable = map<string, RepoStats>

  /** The three template rows that are rebuilt. */
  datatype Marker = Stars | Forks | LastUpdate

  /** What a template line must start with to be rebuilt. */
  function MarkerPrefix(m: Marker): string {
    match m
    case Stars => "| **Github stars** |"
    case Forks => "| **Forks** |"
    case LastUpdate => "| **Last Update** |"
  }

  /** The label cell a rebuilt row starts with. */
  function RowLabel(m: Marker): string {
    match m
    case Stars => "| **Github stars** "
    case Forks => "| **Forks** "
    case LastUpdate => "| **Last Update** "
  }

  /** The marker a line starts with, tested in the order stars, forks, last
      update. */
  function MarkerOf(line: string): (r: Option<Marker>)
    ensures r.Some? ==> StartsWith(line, MarkerPrefix(r.value))
    ensures r.None? <==> forall m: Marker :: !StartsWith(line, MarkerPrefix(m))
  {
    if StartsWith(line, MarkerPrefix(Stars)) then Some(Stars)
    else if StartsWith(line, MarkerPrefix(Forks)) then Some(Forks)
    else if StartsWith(line, MarkerPrefix(LastUpdate)) then Some(LastUpdate)
    else None
  }

  /** The cell of one library in a rebuilt row. Stars and forks are shown in
      thousands; `kilo` is the number-to-text conversion of
      `Math.round(n / 100) / 10`, which the model leaves abstract. */
  function RepoCell(m: Marker, r: RepoStats, kilo: int -> string): string {
    match m
    case Stars => "| " + kilo(r.stars) + "k "
    case Forks => "| " + kilo(r.forks) + "k "
    case LastUpdate => "| " + r.lastUpdate + " "
  }

  /** Every library has repository statistics. */
  predicate AllListed(libs: seq<Library>, repo: RepoTable) {
    forall i :: 0 <= i < |libs| ==> libs[i].id in repo
  }

  function RepoCells(m: Marker, libs: seq<Library>, repo: RepoTable, kilo: int -> string): seq<string>
    requires AllListed(libs, repo)
  {
    if libs == [] then []
    else RepoCells(m, libs[..|libs| - 1], repo, kilo) + [RepoCell(m, repo[libs[|libs| - 1].id], kilo)]
  }

  /** The rebuilt row; `None` when a library has no statistics, where the
      script stops with a type error and writes nothing. */
  function MarkerRowText(m: Marker, libs: seq<Library>, repo: RepoTable, kilo: int -> string): Option<string> {
    if AllListed(libs, repo) then Some(RowLabel(m) + Concat(RepoCells(m, libs, repo, kilo)) + "|\n")
    else None
  }

  /** What one template line becomes. */
  function LineText(line: string, libs: seq<Library>, repo: RepoTable, kilo: int -> string): Option<string> {
    match MarkerOf(line)
    case Some(m) => MarkerRowText(m, libs, repo, kilo)
    case None => Some(line + "\n")
  }

  /** What the lines become, in order; `None` as soon as one line fails. */
  function LineTexts(lines: seq<string>, libs: seq<Library>, repo: RepoTable, kilo: int -> string): Option<seq<string>> {
    if lines == [] then Some([])
    else
      match LineTexts(lines[..|lines| - 1], libs, repo, kilo)
      case None => None
      case Some(done) =>
        match LineText(lines[|lines| - 1], libs, repo, kilo)
        case None => None
        case Some(text) => Some(done + [text])
  }

  /** The template after substitution. */
  function Substituted(begin: string, libs: seq<Library>, repo: RepoTable, kilo: int -> string): Option<string> {
    match LineTexts(Split(begin), libs, repo, kilo)
    case None => None
    case Some(texts) => Some(Concat(texts))
  }

  /** The loop over the libraries in a marker row. */
  method MarkerRow(m: Marker, libs: seq<Library>, repo: RepoTable, kilo: int -> string)
    returns (row: Option<string>)
    ensures row == MarkerRowText(m, libs, repo, kilo)
  {
    var cells := "";
    for j := 0 to |libs|
      invariant AllListed(libs[..j], repo)
      invariant cells == Concat(RepoCells(m, libs[..j], repo, kilo))
    {
      if libs[j].id !in repo {
        return None;
      }
      var cell := RepoCell(m, repo[libs[j].id], kilo);
      RepoCellsSnoc(m, libs, j, repo, kilo);
      ConcatAppend(RepoCells(m, libs[..j], repo, kilo), cell);
      cells := cells + cell;
    }
    assert libs[..|libs|] == libs;
    var text := RowLabel(m);
    text := text + cells;
    text := text + "|\n";
    row := Some(text);
  }

  /** What one template line becomes, as the loop body computes it. */
  method LineOf(line: string, libs: seq<Library>, repo: RepoTable, kilo: int -> string)
    returns (piece: Option<string>)
    ensures piece == LineText(line, libs, repo, kilo)
  {
    var marker := MarkerOf(line);
    if marker.Some? {
      piece := MarkerRow(marker.value, libs, repo, kilo);
    } else {
      piece := Some(line + "\n");
    }
  }

  /** The loop over the template lines: a marker line is replaced by its
      rebuilt row, every other line is copied with a newline. */
  method SubstituteTemplate(begin: string, libs: seq<Library>, repo: RepoTable, kilo: int -> string)
    returns (text: Option<string>)
    ensures text == Substituted(begin, libs, repo, kilo)
  {
    var lines := Split(begin);
    var fileStr := "";
    for i := 0 to |lines|
      invariant LineTexts(lines[..i], libs, repo, kilo).Some?
      invariant fileStr == Concat(LineTexts(lines[..i], libs, repo, kilo).value)
    {
      var piece := LineOf(lines[i], libs, repo, kilo);
      if piece.None? {
        LineTextsFails(lines, i, libs, repo, kilo);
        return None;
      }
      LineTextsSnoc(lines, i, libs, repo, kilo);
      ConcatAppend(LineTexts(lines[..i], libs, repo, kilo).value, piece.value);
      fileStr := fileStr + piece.value;
    }
    assert lines[..|lines|] == lines;
    text := Some(fileStr);
  }

  // Properties

  lemma RepoCellsSnoc(m: Marker, libs: seq<Library>, j: nat, repo: RepoTable, kilo: int -> string)
    requires j < |libs| && AllListed(libs[..j], repo) && libs[j].id in repo
    ensures AllListed(libs[..j + 1], repo)
    ensures RepoCells(m, libs[..j + 1], repo, kilo) ==
      RepoCells(m, libs[..j], repo, kilo) + [RepoCell(m, repo[libs[j].id], kilo)]
  {
    assert libs[..j + 1][..j] == libs[..j];
  }

  lemma {:induction false} RepoCellsAt(m: Marker, libs: seq<Library>, repo: RepoTable, kilo: int -> string)
    requires AllListed(libs, repo)
    ensures |RepoCells(m, libs, repo, kilo)| == |libs|
    ensures forall i :: 0 <= i < |libs| ==> RepoCells(m, libs, repo, kilo)[i] == RepoCell(m, repo[libs[i].id], kilo)
  {
    if libs != [] {
      var init := libs[..|libs| - 1];
      assert forall i :: 0 <= i < |init| ==> init[i] == libs[i];
      RepoCellsAt(m, init, repo, kilo);
    }
  }

  /** A rebuilt row is its label, exactly one cell per library in order, and
      the closing `|` with a newline; it exists exactly when every library
      has statistics. */
  lemma MarkerRowShape(m: Marker, libs: seq<Library>, repo: RepoTable, kilo: int -> string)
    ensures MarkerRowText(m, libs, repo, kilo).Some? <==> forall i :: 0 <= i < |libs| ==> libs[i].id in repo
    ensures MarkerRowText(m, libs, repo, kilo).Some? ==> exists cells: seq<string> ::
      && |cells| == |libs|
      && (forall i :: 0 <= i < |libs| ==> cells[i] == RepoCell(m, repo[libs[i].id], kilo))
      && MarkerRowText(m, libs, repo, kilo).value == RowLabel(m) + Concat(cells) + "|\n"
  {
    if AllListed(libs, repo) {
      RepoCellsAt(m, libs, repo, kilo);
    }
  }

  /** Some line starts with a marker. */
  predicate HasMarker(lines: seq<string>) {
    lines != [] && (HasMarker(lines[..|lines| - 1]) || MarkerOf(lines[|lines| - 1]).Some?)
  }

  lemma {:induction false} HasMarkerAt(lines: seq<string>, i: nat)
    requires i < |lines| && MarkerOf(lines[i]).Some?
    ensures HasMarker(lines)
  {
    if i < |lines| - 1 {
      var init := lines[..|lines| - 1];
      assert init[i] == lines[i];
      HasMarkerAt(init, i);
    }
  }

  lemma {:induction false} NoMarker(lines: seq<string>)
    requires forall i :: 0 <= i < |lines| ==> MarkerOf(lines[i]).None?
    ensures !HasMarker(lines)
  {
    if lines != [] {
      var init := lines[..|lines| - 1];
      assert forall i :: 0 <= i < |init| ==> init[i] == lines[i];
      NoMarker(init);
    }
  }

  /** The lines have texts exactly when no marker line meets a library
      without statistics. */
  lemma {:induction false} LineTextsDefined(lines: seq<string>, libs: seq<Library>, repo: RepoTable, kilo: int -> string)
    ensures LineTexts(lines, libs, repo, kilo).None? <==> !AllListed(libs, repo) && HasMarker(lines)
  {
    if lines != [] {
      LineTextsDefined(lines[..|lines| - 1], libs, repo, kilo);
    }
  }

  /** One more line extends the texts by its own. */
  lemma LineTextsSnoc(lines: seq<string>, i: nat, libs: seq<Library>, repo: RepoTable, kilo: int -> string)
    requires i < |lines|
    requires LineTexts(lines[..i], libs, repo, kilo).Some? && LineText(lines[i], libs, repo, kilo).Some?
    ensures LineTexts(lines[..i + 1], libs, repo, kilo) ==
      Some(LineTexts(lines[..i], libs, repo, kilo).value + [LineText(lines[i], libs, repo, kilo).value])
  {
    assert lines[..i + 1][..i] == lines[..i];
  }

  /** One line that cannot be rebuilt makes the whole substitution fail. */
  lemma LineTextsFails(lines: seq<string>, i: nat, libs: seq<Library>, repo: RepoTable, kilo: int -> string)
    requires i < |lines| && LineText(lines[i], libs, repo, kilo).None?
    ensures LineTexts(lines, libs, repo, kilo).None?
  {
    HasMarkerAt(lines, i);
    LineTextsDefined(lines, libs, repo, kilo);
  }

  /** One text per line, in order: the line with a newline when it starts
      with no marker, its rebuilt row when it does. */
  lemma {:induction false} LineTextsAt(lines: seq<string>, libs: seq<Library>, repo: RepoTable, kilo: int -> string)
    requires LineTexts(lines, libs, repo, kilo).Some?
    ensures |LineTexts(lines, libs, repo, kilo).value| == |lines|
    ensures forall i :: 0 <= i < |lines| ==>
      Some(LineTexts(lines, libs, repo, kilo).value[i]) == LineText(lines[i], libs, repo, kilo)
  {
    if lines != [] {
      var init := lines[..|lines| - 1];
      LineTextsAt(init, libs, repo, kilo);
      var done := LineTexts(init, libs, repo, kilo).value;
      var texts := LineTexts(lines, libs, repo, kilo).value;
      assert texts == done + [LineText(lines[|lines| - 1], libs, repo, kilo).value];
      forall i | 0 <= i < |lines|
        ensures Some(texts[i]) == LineText(lines[i], libs, repo, kilo)
      {
        if i < |init| {
          assert texts[i] == done[i] && init[i] == lines[i];
        }
      }
    }
  }

  /** A template without marker lines is copied as it is, with one newline
      added at its end (every line of the split gets one, the last too). */
  lemma PassThrough(begin: string, libs: seq<Library>, repo: RepoTable, kilo: int -> string)
    requires forall i :: 0 <= i < |Split(begin)| ==> MarkerOf(Split(begin)[i]).None?
    ensures Substituted(begin, libs, repo, kilo) == Some(begin + "\n")
  {
    var lines := Split(begin);
    NoMarker(lines);
    LineTextsDefined(lines, libs, repo, kilo);
    LineTextsAt(lines, libs, repo, kilo);
    var texts := LineTexts(lines, libs, repo, kilo).value;
    assert forall i :: 0 <= i < |lines| ==> texts[i] == lines[i] + "\n" by {
      forall i | 0 <= i < |lines| ensures texts[i] == lines[i] + "\n" {
        assert LineText(lines[i], libs, repo, kilo) == Some(lines[i] + "\n");
      }
    }
    assert texts == Terminated(lines);
    ConcatTerminated(lines);
    JoinSplit(begin);
  }
}

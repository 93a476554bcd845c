// The interactive front end of the graph service: the results table it prints, the
// split of an input line into a command and its arguments, the read loop that
// dispatches them, and the argument handling of `/person` and `/persons`. What is
// printed becomes a list of lines, without the terminal colour codes; the SPARQL
// server is an oracle from query text to result rows.
module Cli {
  import opened Base
  import opened Strings
  import opened Seqs
  import opened SparqlTypes
  import Helpers
  import QueryBuilder

  // ---------------------------------------------------------------------------
  // `format_results_table`
  // ---------------------------------------------------------------------------

  const MaxRows := 20
  const MaxWidth := 35
  const Indent := "  "
  const ColumnGap := " | "
  const RuleJoint := "-+-"
  const NoResultsLine := "  No results found."

  /** The keys of a row in the order its dictionary yields them. */
  type KeyOrder = Row -> seq<string>

  /** The keys of the first `n` rows, row after row. */
  function SeenKeys(results: seq<Row>, keyOrder: KeyOrder, n: nat): seq<string>
    requires n <= |results|
  {
    if n == 0 then [] else SeenKeys(results, keyOrder, n - 1) + keyOrder(results[n - 1])
  }

  /** The table's columns: every key of every row, at its first occurrence. */
  function Columns(results: seq<Row>, keyOrder: KeyOrder): seq<string> {
    Dedup(SeenKeys(results, keyOrder, |results|))
  }

  /** `row.get(k, {})` and then its `"value"`: a missing key shows as empty text. */
  function CellValue(row: Row, k: string): string {
    if k in row then row[k].value else ""
  }

  /** A URI is cut to its last `/` segment and then its last `#` segment; a value that
      then starts with `mailto:` loses every `mailto:` in it. */
  function Shorten(v: string): string {
    var a := if StartsWith(v, "http://") then LastSegment(LastSegment(v, '/'), '#') else v;
    if StartsWith(a, "mailto:") then ReplaceAll(a, "mailto:", "") else a
  }

  /** The cells of one row, one per column. */
  function Cells(row: Row, keys: seq<string>): (cells: seq<string>)
    ensures |cells| == |keys|
    ensures forall i :: 0 <= i < |keys| ==> cells[i] == Shorten(CellValue(row, keys[i]))
  {
    seq(|keys|, i requires 0 <= i < |keys| => Shorten(CellValue(row, keys[i])))
  }

  predicate Rectangular(rows: seq<seq<string>>, width: nat) {
    forall r :: 0 <= r < |rows| ==> |rows[r]| == width
  }

  /** The cells of the rows shown: the first `maxRows` of them. */
  function CellRows(results: seq<Row>, keys: seq<string>, maxRows: nat): (rows: seq<seq<string>>)
    ensures |rows| == Min(maxRows, |results|)
    ensures Rectangular(rows, |keys|)
    ensures forall r :: 0 <= r < |rows| ==> rows[r] == Cells(results[r], keys)
  {
    var shown := Min(maxRows, |results|);
    seq(shown, r requires 0 <= r < shown => Cells(results[r], keys))
  }

  /** The longest of `base` and the `i`-th cells of the first `n` rows. */
  function Widest(rows: seq<seq<string>>, i: nat, base: nat, n: nat): (w: nat)
    requires n <= |rows| && forall r :: 0 <= r < |rows| ==> i < |rows[r]|
    ensures w >= base && forall r :: 0 <= r < n ==> w >= |rows[r][i]|
    ensures w == base || exists r :: 0 <= r < n && w == |rows[r][i]|
  {
    if n == 0 then base else Max(Widest(rows, i, base, n - 1), |rows[n - 1][i]|)
  }

  /** Each column is as wide as its key and its longest shown cell, but at most 35. */
  function ColumnWidths(keys: seq<string>, rows: seq<seq<string>>): (widths: seq<nat>)
    requires Rectangular(rows, |keys|)
    ensures |widths| == |keys|
    ensures forall i :: 0 <= i < |keys| ==> widths[i] <= MaxWidth
    ensures forall i :: 0 <= i < |keys| ==> widths[i] >= Min(MaxWidth, |keys[i]|)
    ensures forall i, r :: 0 <= i < |keys| && 0 <= r < |rows| ==> widths[i] >= Min(MaxWidth, |rows[r][i]|)
    ensures forall i :: 0 <= i < |keys| && widths[i] < MaxWidth ==>
      widths[i] == |keys[i]| || exists r :: 0 <= r < |rows| && widths[i] == |rows[r][i]|
  {
    seq(|keys|, i requires 0 <= i < |keys| => Min(MaxWidth, Widest(rows, i, |keys[i]|, |rows|)))
  }

  /** `str(v)[:w].ljust(w)`: cut to the width, then padded to it. */
  function Fit(v: string, w: nat): (r: string)
    ensures |r| == w
    ensures |v| >= w ==> r == v[..w]
    ensures |v| < w ==> StartsWith(r, v) && forall j :: |v| <= j < w ==> r[j] == ' '
  {
    PadRight(Take(v, w), w)
  }

  /** The keys, each padded to its column's width (and not cut). */
  function PaddedKeys(keys: seq<string>, widths: seq<nat>): (r: seq<string>)
    requires |widths| == |keys|
    ensures |r| == |keys| && forall i :: 0 <= i < |keys| ==> r[i] == PadRight(keys[i], widths[i])
  {
    seq(|keys|, i requires 0 <= i < |keys| => PadRight(keys[i], widths[i]))
  }

  function Dashes(widths: seq<nat>): (r: seq<string>)
    ensures |r| == |widths| && forall i :: 0 <= i < |widths| ==> r[i] == Repeat('-', widths[i])
  {
    seq(|widths|, i requires 0 <= i < |widths| => Repeat('-', widths[i]))
  }

  function FittedCells(cells: seq<string>, widths: seq<nat>): (r: seq<string>)
    requires |cells| == |widths|
    ensures |r| == |cells| && forall i :: 0 <= i < |cells| ==> r[i] == Fit(cells[i], widths[i])
  {
    seq(|cells|, i requires 0 <= i < |cells| => Fit(cells[i], widths[i]))
  }

  function HeaderLine(keys: seq<string>, widths: seq<nat>): string
    requires |widths| == |keys|
  {
    Indent + Join(PaddedKeys(keys, widths), ColumnGap)
  }

  function RuleLine(widths: seq<nat>): string {
    Indent + Join(Dashes(widths), RuleJoint)
  }

  function RowLine(cells: seq<string>, widths: seq<nat>): string
    requires |cells| == |widths|
  {
    Indent + Join(FittedCells(cells, widths), ColumnGap)
  }

  /** One line per shown row. */
  function RowLinesOf(rows: seq<seq<string>>, widths: seq<nat>): (lines: seq<string>)
    requires Rectangular(rows, |widths|)
    ensures |lines| == |rows| && forall r :: 0 <= r < |rows| ==> lines[r] == RowLine(rows[r], widths)
  {
    seq(|rows|, r requires 0 <= r < |rows| => RowLine(rows[r], widths))
  }

  function MoreRowsLine(hidden: nat): string {
    "  ... and " + NatToString(hidden) + " more rows"
  }

  function TotalLine(total: nat): string {
    "  Total: " + NatToString(total) + " result(s)"
  }

  /** The notice of rows not shown, then the total, each after an empty line. */
  function Footer(total: nat, maxRows: nat): seq<string> {
    (if total > maxRows then ["", MoreRowsLine(total - maxRows)] else []) + ["", TotalLine(total)]
  }

  /** The header, the rule, the row lines and the footer of a non-empty table. */
  function Table(keys: seq<string>, rows: seq<seq<string>>, total: nat, maxRows: nat): seq<string>
    requires Rectangular(rows, |keys|)
  {
    var widths := ColumnWidths(keys, rows);
    [HeaderLine(keys, widths), RuleLine(widths)] + RowLinesOf(rows, widths) + Footer(total, maxRows)
  }

  /** The printed table; an empty result prints only a notice. */
  function TableLines(results: seq<Row>, keyOrder: KeyOrder, maxRows: nat): seq<string> {
    if results == [] then [NoResultsLine]
    else
      var keys := Columns(results, keyOrder);
      Table(keys, CellRows(results, keys, maxRows), |results|, maxRows)
  }

  /** The nested loops collecting the keys, each new one appended once. */
  method CollectKeys(results: seq<Row>, keyOrder: KeyOrder) returns (keys: seq<string>)
    ensures keys == Columns(results, keyOrder)
  {
    keys := [];
    for n := 0 to |results|
      invariant keys == Dedup(SeenKeys(results, keyOrder, n))
    {
      var rowKeys := keyOrder(results[n]);
      ghost var seen := SeenKeys(results, keyOrder, n);
      KeysStart(seen, rowKeys);
      for j := 0 to |rowKeys|
        invariant keys == Dedup(seen + rowKeys[..j])
      {
        KeysStep(seen, rowKeys, j);
        if rowKeys[j] !in keys {
          keys := keys + [rowKeys[j]];
        }
      }
      KeysDone(results, keyOrder, n);
    }
  }

  lemma KeysStart(seen: seq<string>, rowKeys: seq<string>)
    ensures Dedup(seen + rowKeys[..0]) == Dedup(seen)
  {
    assert seen + rowKeys[..0] == seen;
  }

  /** One more key of the row: appended exactly when it was not seen yet. */
  lemma KeysStep(seen: seq<string>, rowKeys: seq<string>, j: nat)
    requires j < |rowKeys|
    ensures var before := Dedup(seen + rowKeys[..j]);
      Dedup(seen + rowKeys[..j + 1]) == if rowKeys[j] in before then before else before + [rowKeys[j]]
  {
    assert seen + rowKeys[..j + 1] == (seen + rowKeys[..j]) + [rowKeys[j]];
    DedupSnoc(seen + rowKeys[..j], rowKeys[j]);
  }

  lemma KeysDone(results: seq<Row>, keyOrder: KeyOrder, n: nat)
    requires n < |results|
    ensures var rowKeys := keyOrder(results[n]);
      Dedup(SeenKeys(results, keyOrder, n) + rowKeys[..|rowKeys|]) == Dedup(SeenKeys(results, keyOrder, n + 1))
  {
    var rowKeys := keyOrder(results[n]);
    assert rowKeys[..|rowKeys|] == rowKeys;
  }

  /** The two shortenings applied to one cell value, in the order of the source. */
  method ShortenCell(value: string) returns (v: string)
    ensures v == Shorten(value)
  {
    v := value;
    if StartsWith(v, "http://") {
      v := LastSegment(LastSegment(v, '/'), '#');
    }
    if StartsWith(v, "mailto:") {
      v := ReplaceAll(v, "mailto:", "");
    }
  }

  /** The nested loops extracting the shortened cell values of the shown rows. */
  method ExtractRows(results: seq<Row>, keys: seq<string>, maxRows: nat) returns (rows: seq<seq<string>>)
    ensures rows == CellRows(results, keys, maxRows)
  {
    rows := [];
    for r := 0 to Min(maxRows, |results|)
      invariant |rows| == r
      invariant forall k :: 0 <= k < r ==> rows[k] == Cells(results[k], keys)
    {
      var vals := ExtractCells(results[r], keys);
      rows := rows + [vals];
    }
  }

  /** The inner loop: one shortened value per column. */
  method ExtractCells(row: Row, keys: seq<string>) returns (vals: seq<string>)
    ensures vals == Cells(row, keys)
  {
    vals := [];
    for i := 0 to |keys|
      invariant |vals| == i
      invariant forall c :: 0 <= c < i ==> vals[c] == Shorten(CellValue(row, keys[c]))
    {
      var v := ShortenCell(CellValue(row, keys[i]));
      vals := vals + [v];
    }
  }

  /** The widths start at the key lengths and grow cell by cell; the cap comes last. */
  method ComputeWidths(keys: seq<string>, rows: seq<seq<string>>) returns (widths: seq<nat>)
    requires Rectangular(rows, |keys|)
    ensures widths == ColumnWidths(keys, rows)
  {
    widths := seq(|keys|, i requires 0 <= i < |keys| => |keys[i]|);
    for r := 0 to |rows|
      invariant |widths| == |keys|
      invariant forall i :: 0 <= i < |keys| ==> widths[i] == Widest(rows, i, |keys[i]|, r)
    {
      widths := WidenRow(keys, rows, r, widths);
    }
    widths := seq(|widths|, i requires 0 <= i < |widths| => Min(widths[i], MaxWidth));
  }

  /** One row's pass: each width grows to that row's cell when the cell is longer. */
  method WidenRow(keys: seq<string>, rows: seq<seq<string>>, r: nat, widths0: seq<nat>) returns (widths: seq<nat>)
    requires Rectangular(rows, |keys|) && r < |rows| && |widths0| == |keys|
    requires forall c :: 0 <= c < |keys| ==> widths0[c] == Widest(rows, c, |keys[c]|, r)
    ensures |widths| == |keys|
    ensures forall c :: 0 <= c < |keys| ==> widths[c] == Widest(rows, c, |keys[c]|, r + 1)
  {
    var row := rows[r];
    widths := widths0;
    for i := 0 to |row|
      invariant |widths| == |keys|
      invariant forall c :: 0 <= c < i ==> widths[c] == Max(widths0[c], |row[c]|)
      invariant forall c :: i <= c < |keys| ==> widths[c] == widths0[c]
    {
      widths := widths[i := Max(widths[i], |row[i]|)];
    }
  }

  /** The loop printing one line per shown row. */
  method RenderRows(rows: seq<seq<string>>, widths: seq<nat>) returns (body: seq<string>)
    requires Rectangular(rows, |widths|)
    ensures body == RowLinesOf(rows, widths)
  {
    body := [];
    for r := 0 to |rows|
      invariant |body| == r
      invariant forall k :: 0 <= k < r ==> body[k] == RowLine(rows[k], widths)
    {
      body := body + [RowLine(rows[r], widths)];
    }
  }

  /** The optional notice of hidden rows and the total. */
  method RenderFooter(total: nat, maxRows: nat) returns (footer: seq<string>)
    ensures footer == Footer(total, maxRows)
  {
    footer := [];
    if total > maxRows {
      footer := ["", MoreRowsLine(total - maxRows)];
    }
    footer := footer + ["", TotalLine(total)];
  }

  method FormatResultsTable(results: seq<Row>, keyOrder: KeyOrder, maxRows: nat) returns (lines: seq<string>)
    ensures lines == TableLines(results, keyOrder, maxRows)
  {
    if results == [] {
      return [NoResultsLine];
    }
    var keys := CollectKeys(results, keyOrder);
    var rows := ExtractRows(results, keys, maxRows);
    var widths := ComputeWidths(keys, rows);
    var body := RenderRows(rows, widths);
    var footer := RenderFooter(|results|, maxRows);
    lines := [HeaderLine(keys, widths), RuleLine(widths)] + body + footer;
  }

  // ---------------------------------------------------------------------------
  // Properties of the table
  // ---------------------------------------------------------------------------

  lemma {:induction false} SeenKeysMembers(results: seq<Row>, keyOrder: KeyOrder, n: nat, k: string)
    requires n <= |results|
    ensures k in SeenKeys(results, keyOrder, n) <==> exists r :: 0 <= r < n && k in keyOrder(results[r])
  {
    if n > 0 {
      SeenKeysMembers(results, keyOrder, n - 1, k);
    }
  }

  /** The columns are the keys of all rows, none twice, in the order they are first
      seen. */
  lemma ColumnsShape(results: seq<Row>, keyOrder: KeyOrder)
    ensures var keys := Columns(results, keyOrder);
      && NoDuplicates(keys)
      && (forall k :: k in keys <==> exists r :: 0 <= r < |results| && k in keyOrder(results[r]))
      && FirstOccurrenceOrder(SeenKeys(results, keyOrder, |results|), keys)
  {
    forall k
      ensures k in Columns(results, keyOrder) <==> exists r :: 0 <= r < |results| && k in keyOrder(results[r])
    {
      SeenKeysMembers(results, keyOrder, |results|, k);
    }
    DedupFirstOccurrence(SeenKeys(results, keyOrder, |results|));
  }

  /** Parts no longer than their counterparts, joined by separators of one length,
      give text no longer. */
  lemma {:induction false} JoinNoLonger(a: seq<string>, b: seq<string>, sepA: string, sepB: string)
    requires |a| == |b| && |sepA| == |sepB|
    requires forall i :: 0 <= i < |a| ==> |a[i]| <= |b[i]|
    ensures |Join(a, sepA)| <= |Join(b, sepB)|
  {
    if |a| > 1 {
      JoinNoLonger(a[..|a| - 1], b[..|b| - 1], sepA, sepB);
    }
  }

  /** Every row line is exactly as long as the rule under the header, and the header
      is at least that long (a key wider than its column is not cut). */
  lemma Aligned(cells: seq<string>, keys: seq<string>, widths: seq<nat>)
    requires |cells| == |widths| == |keys|
    ensures |RowLine(cells, widths)| == |RuleLine(widths)| <= |HeaderLine(keys, widths)|
  {
    JoinNoLonger(FittedCells(cells, widths), Dashes(widths), ColumnGap, RuleJoint);
    JoinNoLonger(Dashes(widths), FittedCells(cells, widths), RuleJoint, ColumnGap);
    JoinNoLonger(Dashes(widths), PaddedKeys(keys, widths), RuleJoint, ColumnGap);
  }

  /** Below the rows, the count of hidden rows exactly when there are more rows than
      shown, and the total last. */
  lemma FooterShape(total: nat, maxRows: nat)
    ensures var f := Footer(total, maxRows);
      && |f| == (if total > maxRows then 4 else 2)
      && f[|f| - 1] == TotalLine(total) && f[|f| - 2] == ""
      && (total > maxRows ==> f[0] == "" && f[1] == MoreRowsLine(total - maxRows))
  {
  }

  /** An empty result prints only the notice; otherwise the header and the rule, a
      line per row up to `maxRows`, the count of hidden rows exactly when there are
      more, and the total. */
  lemma TableShape(results: seq<Row>, keyOrder: KeyOrder, maxRows: nat)
    ensures var lines := TableLines(results, keyOrder, maxRows);
      && (results == [] ==> lines == [NoResultsLine])
      && (results != [] ==>
            && |lines| == 2 + Min(maxRows, |results|) + (if |results| > maxRows then 4 else 2)
            && lines[|lines| - 1] == TotalLine(|results|)
            && lines[|lines| - 2] == ""
            && (|results| > maxRows ==> lines[|lines| - 3] == MoreRowsLine(|results| - maxRows)))
  {
    if results != [] {
      var keys := Columns(results, keyOrder);
      var rows := CellRows(results, keys, maxRows);
      var widths := ColumnWidths(keys, rows);
      var f := Footer(|results|, maxRows);
      FooterShape(|results|, maxRows);
      var lines := [HeaderLine(keys, widths), RuleLine(widths)] + RowLinesOf(rows, widths) + f;
      assert lines == TableLines(results, keyOrder, maxRows);
      assert lines[|lines| - 1] == f[|f| - 1];
      assert lines[|lines| - 2] == f[|f| - 2];
      if |results| > maxRows {
        assert lines[|lines| - 3] == f[1];
      }
    }
  }

  /** Each line of a table body is printed from its row's cells and lines up with the
      rule. */
  lemma TableRow(keys: seq<string>, rows: seq<seq<string>>, total: nat, maxRows: nat, r: nat)
    requires Rectangular(rows, |keys|) && r < |rows|
    ensures var lines := Table(keys, rows, total, maxRows);
      && lines[r + 2] == RowLine(rows[r], ColumnWidths(keys, rows))
      && |lines[r + 2]| == |lines[1]| <= |lines[0]|
  {
    Aligned(rows[r], keys, ColumnWidths(keys, rows));
  }

  /** Each shown row is printed from its own cells, cut and padded to the column
      widths, and every such line lines up with the rule. */
  lemma RowLines(results: seq<Row>, keyOrder: KeyOrder, maxRows: nat, r: nat)
    requires results != [] && r < Min(maxRows, |results|)
    ensures var keys := Columns(results, keyOrder);
      var widths := ColumnWidths(keys, CellRows(results, keys, maxRows));
      var lines := TableLines(results, keyOrder, maxRows);
      && lines[r + 2] == RowLine(Cells(results[r], keys), widths)
      && |lines[r + 2]| == |lines[1]| <= |lines[0]|
  {
    var keys := Columns(results, keyOrder);
    TableRow(keys, CellRows(results, keys, maxRows), |results|, maxRows, r);
  }

  /** The cell shown for a key the row lacks is empty. */
  lemma MissingCell(row: Row, k: string)
    requires k !in row
    ensures Shorten(CellValue(row, k)) == ""
  {
    assert !StartsWith("", "http://") && !StartsWith("", "mailto:");
  }

  /** A URI is shown by its local name. */
  lemma ShortenUri(base: string, local: string)
    requires StartsWith(base, "http://") && '/' !in local && '#' !in local
    requires !StartsWith(local, "mailto:")
    ensures Shorten(base + "/" + local) == local
  {
    var v := base + "/" + local;
    assert v[..7] == base[..7];
    LastSegmentAfter(base, '/', local);
    LastSegmentWhole(local, '#');
  }

  /** A mail address is shown without its scheme. */
  lemma ShortenMailto(address: string)
    requires !Contains(address, "mailto:")
    ensures Shorten("mailto:" + address) == address
  {
    var v := "mailto:" + address;
    assert v[0] == 'm';
    assert v[..7] == "mailto:";
    assert v[7..] == address;
  }

  // ---------------------------------------------------------------------------
  // The read loop in `main`
  // ---------------------------------------------------------------------------

  const QuitWords := ["/quit", "/exit", "/q", "quit", "exit"]
  const Commands := ["/persons", "/person", "/search", "/friends", "/add-person", "/add-rel",
                     "/stats", "/schema", "/sparql", "/help"]

  /** What the loop does with one line read. */
  datatype Action = Skip | Quit | Run(command: string, args: string) | Ask(text: string)

  /** Where the first whitespace is, or the length when there is none. */
  function FirstSpace(s: string): (k: nat)
    ensures k <= |s|
    ensures forall j :: 0 <= j < k ==> !IsSpace(s[j])
    ensures k < |s| ==> IsSpace(s[k])
  {
    if s == [] || IsSpace(s[0]) then 0 else 1 + FirstSpace(s[1..])
  }

  /** `split(None, 1)` of stripped text: the first word, and the rest after the
      whitespace that follows it (empty when there is no second part). */
  function SplitFirst(s: string): (string, string) {
    var k := FirstSpace(s);
    (s[..k], LStrip(s[k..]))
  }

  /** A blank line is skipped, a quit word (in any case) ends the loop, a known
      command (in any case) is run with the rest of the line, and anything else goes
      to the agent as it was typed, stripped. */
  function ActionOf(line: string): (a: Action)
    ensures a == Skip <==> Strip(line) == ""
    ensures a == Quit <==> Strip(line) != "" && Lower(Strip(line)) in QuitWords
    ensures a.Run? ==> a.command in Commands
    ensures a.Ask? ==> a.text == Strip(line) && a.text != ""
  {
    var input := Strip(line);
    if input == "" then Skip
    else if Lower(input) in QuitWords then Quit
    else
      var (head, args) := SplitFirst(input);
      var cmd := Lower(head);
      if cmd in Commands then Run(cmd, args) else Ask(input)
  }

  /** The actions dispatched for the lines read, until a quit word or the end of
      the input. */
  function Dispatched(inputs: seq<string>): seq<Action> {
    if inputs == [] then []
    else
      match ActionOf(inputs[0])
      case Skip => Dispatched(inputs[1..])
      case Quit => []
      case a => [a] + Dispatched(inputs[1..])
  }

  /** The `while True` loop; the input ending is the `EOFError` that stops it. */
  method Repl(inputs: seq<string>) returns (dispatched: seq<Action>)
    ensures dispatched == Dispatched(inputs)
  {
    dispatched := [];
    var i := 0;
    while i < |inputs|
      invariant 0 <= i <= |inputs|
      invariant dispatched + Dispatched(inputs[i..]) == Dispatched(inputs)
    {
      var action := ActionOf(inputs[i]);
      if action == Quit {
        assert dispatched + [] == dispatched;
        return;
      }
      assert inputs[i..][1..] == inputs[i + 1..];
      if action != Skip {
        dispatched := dispatched + [action];
      }
      i := i + 1;
    }
    assert dispatched + [] == dispatched;
  }

  /** Only commands and questions are dispatched. */
  lemma {:induction false} DispatchedKinds(inputs: seq<string>)
    ensures forall a :: a in Dispatched(inputs) ==> a.Run? || a.Ask?
  {
    if inputs != [] {
      DispatchedKinds(inputs[1..]);
    }
  }

  /** Nothing after a quit word is read. */
  lemma {:induction false} QuitStops(before: seq<string>, quit: string, after: seq<string>)
    requires ActionOf(quit) == Quit
    ensures Dispatched(before + [quit] + after) == Dispatched(before)
  {
    if before == [] {
      assert (before + [quit] + after)[0] == quit;
    } else {
      assert (before + [quit] + after)[1..] == before[1..] + [quit] + after;
      QuitStops(before[1..], quit, after);
    }
  }

  /** Text longer than five characters is no quit word. */
  lemma LongNotQuit(t: string)
    requires |t| > 5
    ensures t !in QuitWords
  {
  }

  /** A first word followed by whitespace splits there. */
  lemma SplitFirstAt(head: string, rest: string)
    requires forall j :: 0 <= j < |head| ==> !IsSpace(head[j])
    requires rest != [] && IsSpace(rest[0])
    ensures SplitFirst(head + rest) == (head, LStrip(rest))
  {
    var s := head + rest;
    FirstSpaceAt(s, |head|);
    assert s[..|head|] == head;
    assert s[|head|..] == rest;
  }

  lemma FirstSpaceAt(s: string, k: nat)
    requires k < |s| && IsSpace(s[k]) && forall j :: 0 <= j < k ==> !IsSpace(s[j])
    ensures FirstSpace(s) == k
  {
  }

  /** A lower-case word of five or more characters, a space and stripped arguments:
      a known command runs with exactly those arguments, anything else goes to the
      agent whole. */
  lemma WordThenArgs(word: string, args: string)
    requires |word| >= 5
    requires forall j :: 0 <= j < |word| ==> !IsSpace(word[j]) && LowerChar(word[j]) == word[j]
    requires args != [] && IsStripped(args)
    ensures ActionOf(word + [' '] + args)
         == if word in Commands then Run(word, args) else Ask(word + [' '] + args)
  {
    var rest := [' '] + args;
    var line := word + rest;
    assert word + [' '] + args == line;
    assert line[0] == word[0] && line[|line| - 1] == args[|args| - 1];
    StrippedWhole(line);
    LongNotQuit(Lower(line));
    SplitFirstAt(word, rest);
    SpaceThenStripped(args);
    LowerWhole(word);
    ActionOfParts(line, word, args);
  }

  lemma StrippedWhole(s: string)
    requires s != [] && !IsSpace(s[0]) && !IsSpace(s[|s| - 1])
    ensures Strip(s) == s
  {
  }

  lemma SpaceThenStripped(args: string)
    requires args != [] && IsStripped(args)
    ensures LStrip([' '] + args) == args
  {
    var rest := [' '] + args;
    assert rest[1..] == args;
    assert LeadingSpaces(rest) == 1;
  }

  lemma LowerWhole(word: string)
    requires forall j :: 0 <= j < |word| ==> LowerChar(word[j]) == word[j]
    ensures Lower(word) == word
  {
  }

  /** How a stripped line that is no quit word is taken apart. */
  lemma ActionOfParts(line: string, word: string, args: string)
    requires line != [] && Strip(line) == line && Lower(line) !in QuitWords
    requires SplitFirst(line) == (word, args) && Lower(word) == word
    ensures ActionOf(line) == if word in Commands then Run(word, args) else Ask(line)
  {
  }

  /** Each command word followed by a space and stripped arguments runs that command
      with exactly those arguments. */
  lemma CommandLine(cmd: string, args: string)
    requires cmd in Commands
    requires args != [] && IsStripped(args)
    ensures ActionOf(cmd + [' '] + args) == Run(cmd, args)
  {
    CommandWords(cmd);
    WordThenArgs(cmd, args);
  }

  lemma CommandWords(cmd: string)
    requires cmd in Commands
    ensures |cmd| >= 5
    ensures forall j :: 0 <= j < |cmd| ==> !IsSpace(cmd[j]) && LowerChar(cmd[j]) == cmd[j]
  {
  }

  // ---------------------------------------------------------------------------
  // `cmd_person` and `cmd_persons`
  // ---------------------------------------------------------------------------

  const DefaultLimit := 10

  /** `/person`'s argument: a usage notice when blank, else the id and its URI. */
  datatype PersonArg = Usage | Lookup(id: string, uri: string)

  function PersonLookup(args: string): PersonArg {
    var id := Strip(args);
    if id == "" then Usage else Lookup(id, Helpers.IdToUri(id, Helpers.DefaultNamespace))
  }

  /** A blank argument asks for usage; an id that does not start with `http` is put
      in the data namespace, from which its id is read back; a URI is used as given. */
  lemma PersonLookupShape(args: string)
    ensures var p := PersonLookup(args);
      && (p == Usage <==> Strip(args) == "")
      && (p.Lookup? ==> p.id == Strip(args) && StartsWith(p.uri, "http"))
      && (p.Lookup? && StartsWith(p.id, "http") ==> p.uri == p.id)
      && (p.Lookup? && !StartsWith(p.id, "http") && '/' !in p.id ==>
            p.uri == Helpers.DefaultNamespace + p.id && Helpers.UriToId(p.uri) == p.id)
  {
    var p := PersonLookup(args);
    if p.Lookup? {
      if !StartsWith(p.id, "http") {
        assert (Helpers.DefaultNamespace + p.id)[..4] == Helpers.DefaultNamespace[..4];
        if '/' !in p.id {
          Helpers.IdRoundTrip(p.id);
        }
      }
    }
  }

  /** The query `/person` sends for a non-blank argument: every predicate and value of the
      looked-up URI in the data graph; a blank argument sends nothing. */
  function PersonQuery(args: string): (q: Option<string>)
    ensures q.None? <==> Strip(args) == ""
    ensures q.Some? ==>
      && PersonLookup(args).Lookup?
      && Contains(q.value, QueryBuilder.GraphClause(QueryBuilder.DataGraph))
      && Contains(q.value, QueryBuilder.Iri(PersonLookup(args).uri) + " ?predicate ?value")
  {
    match PersonLookup(args)
    case Usage => None
    case Lookup(_, uri) => Some(QueryBuilder.PersonDetails(QueryBuilder.DataGraph, uri))
  }

  /** The limit of `/persons`: 10 unless the argument reads as an integer. */
  function PersonsLimit(args: string): int {
    var text := Strip(args);
    if text == "" then DefaultLimit
    else match ParseInt(text)
      case Some(n) => n
      case None => DefaultLimit
  }

  /** A printed integer is the limit it names; text that is not one leaves 10. */
  lemma PersonsLimitShape(args: string, n: int)
    ensures ParseInt(args).None? ==> PersonsLimit(args) == DefaultLimit
    ensures PersonsLimit(IntToString(n)) == n
  {
    ParseIntRoundTrip(n);
    var s := IntToString(n);
    assert s != "" && IsStripped(s) by {
      if n < 0 {
        assert s[0] == '-' && s[|s| - 1] == NatToString(-n)[|NatToString(-n)| - 1];
      }
    }
    if ParseInt(args).None? && Strip(args) != "" {
      StripIdempotent(args);
    }
  }

  lemma StripIdempotent(s: string)
    ensures Strip(Strip(s)) == Strip(s)
  {
  }

  /** The query `/persons` sends: persons of the data graph, at most the limit. */
  function PersonsQuery(args: string): (q: string)
    ensures Contains(q, "LIMIT " + IntToString(PersonsLimit(args)))
  {
    QueryBuilder.AllPersons(QueryBuilder.DataGraph, PersonsLimit(args))
  }

}

/**
 * The fixed-width tables every listing prints: each cell but the last is
 * `str(x).ljust(25)`, the cells are joined with `''`, and the last is left as is.
 */
module Table {
  import opened Wrappers
  import opened Text
  import opened Aws

  const Width: nat := 25

  /** `''.join((c.ljust(25) for c in cells)) + last`. */
  function Line(cells: seq<string>, last: string): (r: string)
    ensures |r| >= Width * |cells| + |last|
    ensures cells != [] ==> cells[0] <= r
  {
    if cells == [] then last
    else
      var cell := LJust(cells[0], Width);
      cell + Line(cells[1..], last)
  }

  /** The width a padded cell takes: 25, or the cell's own length when it is longer. */
  function ColumnWidth(s: string): nat {
    if |s| < Width then Width else |s|
  }

  /** Where cell `k` starts: the sum of the widths of the cells before it. */
  function CellStart(cells: seq<string>, k: nat): nat
    requires k <= |cells|
  {
    if k == 0 then 0 else ColumnWidth(cells[0]) + CellStart(cells[1..], k - 1)
  }

  lemma {:induction false} CellStartNext(cells: seq<string>, k: nat)
    requires k < |cells|
    ensures CellStart(cells, k + 1) == CellStart(cells, k) + ColumnWidth(cells[k])
  {
    if k > 0 {
      CellStartNext(cells[1..], k - 1);
      assert cells[1..][k - 1] == cells[k];
    }
  }

  /** When no cell is wider than a column, cell `k` starts at `25 * k`. */
  lemma {:induction false} CellStartFit(cells: seq<string>, k: nat)
    requires forall j :: 0 <= j < |cells| ==> |cells[j]| <= Width
    requires k <= |cells|
    ensures CellStart(cells, k) == Width * k
  {
    if k > 0 {
      CellStartFit(cells[1..], k - 1);
    }
  }

  /** Past the first `k` cells, the line goes on as the line of the remaining cells. */
  lemma {:induction false} LineDrop(cells: seq<string>, last: string, k: nat)
    requires k <= |cells|
    ensures |Line(cells, last)| == CellStart(cells, k) + |Line(cells[k..], last)|
    ensures Line(cells, last)[CellStart(cells, k) ..] == Line(cells[k..], last)
  {
    if k > 0 {
      var cell := LJust(cells[0], Width);
      var rest := Line(cells[1..], last);
      var w := |cell|;
      var before := CellStart(cells[1..], k - 1);
      assert Line(cells, last) == cell + rest;
      assert w == ColumnWidth(cells[0]);
      assert CellStart(cells, k) == w + before;
      LineDrop(cells[1..], last, k - 1);
      assert cells[1..][k - 1..] == cells[k..];
      assert (cell + rest)[w + before ..] == rest[before ..];
    }
  }

  /** A line is as long as its padded cells plus the last cell, and ends with the last cell. */
  lemma LineEnds(cells: seq<string>, last: string)
    ensures |Line(cells, last)| == CellStart(cells, |cells|) + |last|
    ensures Line(cells, last)[CellStart(cells, |cells|) ..] == last
  {
    LineDrop(cells, last, |cells|);
    assert cells[|cells|..] == [];
  }

  /**
   * Whatever the cells' lengths (`ljust` never truncates), cell `k` starts where
   * the cells before it end and is followed by spaces up to the start of the next.
   */
  lemma LineLayout(cells: seq<string>, last: string, k: nat)
    requires k < |cells|
    ensures CellStart(cells, k + 1) == CellStart(cells, k) + ColumnWidth(cells[k])
    ensures CellStart(cells, k + 1) <= |Line(cells, last)|
    ensures Line(cells, last)[CellStart(cells, k) .. CellStart(cells, k) + |cells[k]|] == cells[k]
    ensures forall c :: CellStart(cells, k) + |cells[k]| <= c < CellStart(cells, k + 1) ==> Line(cells, last)[c] == ' '
  {
    var line := Line(cells, last);
    var start := CellStart(cells, k);
    LineDrop(cells, last, k);
    LineDrop(cells, last, k + 1);
    CellStartNext(cells, k);
    var from := Line(cells[k..], last);
    var cell := LJust(cells[k], Width);
    assert from == cell + Line(cells[k + 1..], last) by {
      assert cells[k..][0] == cells[k] && cells[k..][1..] == cells[k + 1..];
    }
    assert line[start ..] == from;
    forall c | start <= c < start + |cell|
      ensures line[c] == cell[c - start]
    {
      assert line[c] == line[start ..][c - start];
    }
    assert line[start .. start + |cells[k]|] == cell[..|cells[k]|];
  }

  /**
   * When no cell is wider than a column, cell `k` starts at column `25 * k`, is
   * followed by spaces up to the next column, and the last cell starts at
   * `25 * |cells|`.
   */
  lemma LineColumns(cells: seq<string>, last: string, k: nat)
    requires forall j :: 0 <= j < |cells| ==> |cells[j]| <= Width
    requires k < |cells|
    ensures |Line(cells, last)| == Width * |cells| + |last|
    ensures Line(cells, last)[Width * k .. Width * k + |cells[k]|] == cells[k]
    ensures forall c :: Width * k + |cells[k]| <= c < Width * (k + 1) ==> Line(cells, last)[c] == ' '
    ensures Line(cells, last)[Width * |cells| ..] == last
  {
    LineEnds(cells, last);
    LineLayout(cells, last, k);
    CellStartFit(cells, k);
    CellStartFit(cells, k + 1);
    CellStartFit(cells, |cells|);
  }

  /** `f'{t["Key"]}={t["Value"]}'`: the key, one `=`, then the value. */
  function TagText(t: Tag): (r: string)
    ensures |r| == |t.key| + 1 + |t.value|
    ensures r[..|t.key|] == t.key && r[|t.key|] == '=' && r[|t.key| + 1 ..] == t.value
  {
    t.key + "=" + t.value
  }

  /** A tag whose key and value hold no `=` renders as text that splits back into them. */
  lemma TagTextSplits(t: Tag)
    requires '=' !in t.key && '=' !in t.value
    ensures Split(TagText(t), '=') == [t.key, t.value]
  {
    var parts := [t.key, t.value];
    assert JoinWith(['='], parts) == TagText(t) by {
      assert parts[1..] == [t.value];
    }
    SplitJoin(parts, '=');
  }

  function TagTexts(tags: seq<Tag>): (r: seq<string>)
    ensures |r| == |tags|
    ensures forall i :: 0 <= i < |tags| ==> r[i] == TagText(tags[i])
  {
    seq(|tags|, i requires 0 <= i < |tags| => TagText(tags[i]))
  }

  /** `', '.join(...)` of the tags: empty exactly when there are no tags, one tag as itself. */
  function TagsColumn(tags: seq<Tag>): (r: string)
    ensures r == [] <==> tags == []
    ensures |tags| == 1 ==> r == TagText(tags[0])
    ensures tags != [] ==> TagText(tags[0]) <= r
  {
    if tags == [] then []
    else
      JoinWithPrefix(", ", TagTexts(tags));
      JoinWith(", ", TagTexts(tags))
  }

  /** The column of two runs of tags is each run's column with `, ` between them. */
  lemma TagsColumnAppend(a: seq<Tag>, b: seq<Tag>)
    requires a != [] && b != []
    ensures TagsColumn(a + b) == TagsColumn(a) + ", " + TagsColumn(b)
  {
    assert TagTexts(a + b) == TagTexts(a) + TagTexts(b);
    JoinWithAppend(", ", TagTexts(a), TagTexts(b));
  }

  /** `tags = i.tags if i.tags else []`: `None` and an empty list both give an empty column. */
  function OptionalTagsColumn(tags: Option<seq<Tag>>): (r: string)
    ensures r == [] <==> tags == None || tags == Some([])
    ensures tags.Some? ==> r == TagsColumn(tags.value)
  {
    TagsColumn(tags.GetOr([]))
  }

  /**
   * The header line, then the SDK requests `fetch` that iterating a lazy collection
   * sends, then one line per row until the first row whose rendering raised; that
   * exception ends the listing.
   */
  function Listing(header: string, fetch: seq<Effect>, rows: seq<Result<string, Failure>>): (r: Run)
    ensures |r.effects| >= 1 + |fetch| && r.effects[..1 + |fetch|] == [Print(header)] + fetch
    ensures |r.effects| <= 1 + |fetch| + |rows|
    ensures r.failure.None? <==> forall i :: 0 <= i < |rows| ==> rows[i].Ok?
  {
    Then(Run([Print(header)] + fetch, None), RowsRun(rows))
  }

  function RowsRun(rows: seq<Result<string, Failure>>): (r: Run)
    ensures |r.effects| <= |rows|
    ensures r.failure.None? <==> forall i :: 0 <= i < |rows| ==> rows[i].Ok?
  {
    if rows == [] then Run([], None)
    else match rows[0]
      case Err(e) => Run([], Some(e))
      case Ok(line) => Then(Run([Print(line)], None), RowsRun(rows[1..]))
  }

  function Lines(rows: seq<Result<string, Failure>>): (r: seq<Effect>)
    requires forall i :: 0 <= i < |rows| ==> rows[i].Ok?
    ensures |r| == |rows|
    ensures forall i :: 0 <= i < |rows| ==> r[i] == Print(rows[i].value)
  {
    seq(|rows|, i requires 0 <= i < |rows| => Print(rows[i].value))
  }

  /** Every row printed, in order, when none raises. */
  lemma {:induction false} ListingAllRows(header: string, fetch: seq<Effect>, rows: seq<Result<string, Failure>>)
    requires forall i :: 0 <= i < |rows| ==> rows[i].Ok?
    ensures Listing(header, fetch, rows) == Run([Print(header)] + fetch + Lines(rows), None)
  {
    RowsRunAllOk(rows);
  }

  /** A listing after some earlier effects: where each printed row ends up. */
  lemma ListingAfter(before: seq<Effect>, header: string, fetch: seq<Effect>, rows: seq<Result<string, Failure>>)
    requires forall i :: 0 <= i < |rows| ==> rows[i].Ok?
    ensures var run := Then(Run(before, None), Listing(header, fetch, rows));
      && run.failure.None?
      && |run.effects| == |before| + 1 + |fetch| + |rows|
      && run.effects[..|before| + 1 + |fetch|] == before + [Print(header)] + fetch
      && forall i :: 0 <= i < |rows| ==> run.effects[|before| + 1 + |fetch| + i] == Print(rows[i].value)
  {
    ListingAllRows(header, fetch, rows);
    var lines := Lines(rows);
    var run := Then(Run(before, None), Listing(header, fetch, rows));
    assert run.effects == (before + [Print(header)] + fetch) + lines;
  }

  /** A listing after one SDK call, with nothing fetched inside it: the call, the header, then the rows. */
  lemma ListingAfterCall(call: Effect, header: string, rows: seq<Result<string, Failure>>)
    requires forall i :: 0 <= i < |rows| ==> rows[i].Ok?
    ensures var run := Then(Run([call], None), Listing(header, [], rows));
      && run.failure.None?
      && |run.effects| == 2 + |rows|
      && run.effects[..2] == [call, Print(header)]
      && forall i :: 0 <= i < |rows| ==> run.effects[2 + i] == Print(rows[i].value)
  {
    ListingAfter([call], header, [], rows);
    assert [call] + [Print(header)] + [] == [call, Print(header)];
  }

  /** A listing after one printed line, fetching with one SDK call: the line, the header, the call, then the rows. */
  lemma ListingAfterPrint(message: string, header: string, call: Effect, rows: seq<Result<string, Failure>>)
    requires forall i :: 0 <= i < |rows| ==> rows[i].Ok?
    ensures var run := Then(Run([Print(message)], None), Listing(header, [call], rows));
      && run.failure.None?
      && |run.effects| == 3 + |rows|
      && run.effects[..3] == [Print(message), Print(header), call]
      && forall i :: 0 <= i < |rows| ==> run.effects[3 + i] == Print(rows[i].value)
  {
    ListingAfter([Print(message)], header, [call], rows);
    assert [Print(message)] + [Print(header)] + [call] == [Print(message), Print(header), call];
  }

  /** Otherwise the rows before the first failing one are printed, and that row's exception ends it. */
  lemma {:induction false} ListingStopsAt(header: string, fetch: seq<Effect>, rows: seq<Result<string, Failure>>, k: nat)
    requires k < |rows| && rows[k].Err?
    requires forall i :: 0 <= i < k ==> rows[i].Ok?
    ensures Listing(header, fetch, rows) == Run([Print(header)] + fetch + Lines(rows[..k]), Some(rows[k].error))
  {
    RowsRunStopsAt(rows, k);
  }

  lemma {:induction false} RowsRunAllOk(rows: seq<Result<string, Failure>>)
    requires forall i :: 0 <= i < |rows| ==> rows[i].Ok?
    ensures RowsRun(rows) == Run(Lines(rows), None)
  {
    if rows != [] {
      RowsRunAllOk(rows[1..]);
      assert Lines(rows) == [Print(rows[0].value)] + Lines(rows[1..]);
    }
  }

  lemma {:induction false} RowsRunStopsAt(rows: seq<Result<string, Failure>>, k: nat)
    requires k < |rows| && rows[k].Err?
    requires forall i :: 0 <= i < k ==> rows[i].Ok?
    ensures RowsRun(rows) == Run(Lines(rows[..k]), Some(rows[k].error))
  {
    if k > 0 {
      RowsRunStopsAt(rows[1..], k - 1);
      assert rows[1..][..k - 1] == rows[1..k];
      assert Lines(rows[..k]) == [Print(rows[0].value)] + Lines(rows[1..k]);
    }
  }

  /** `_list_details`: prints the header, then renders and prints each row in turn. */
  method PrintListing(header: string, fetch: seq<Effect>, rows: seq<Result<string, Failure>>) returns (run: Run)
    ensures run == Listing(header, fetch, rows)
  {
    var effects := [Print(header)] + fetch;
    var i := 0;
    while i < |rows|
      invariant 0 <= i <= |rows|
      invariant Listing(header, fetch, rows) == Then(Run(effects, None), RowsRun(rows[i..]))
    {
      assert rows[i..] == [rows[i]] + rows[i + 1..];
      match rows[i]
      case Err(e) =>
        return Run(effects, Some(e));
      case Ok(line) =>
        effects := effects + [Print(line)];
      i := i + 1;
    }
    run := Run(effects, None);
  }
}

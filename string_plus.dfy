/** The `:string_plus` row strategy (`table_rows_string_plus`): each row is
    one plain String built with `+=`, single-quoted attributes, no escaping
    of attribute values or cell content. The finished String is appended to
    the SafeBuffer, which escapes it as text. */
module StringPlusStrategy {
  import opened Prelude
  import opened Values
  import opened Columns
  import opened Config
  import opened Resolver
  import opened Html
  import opened RowModel
  import Attrs

  /** `"#{k}='#{v}'"` */
  function AttrText(kv: (string, Value)): string {
    kv.0 + "='" + ToS(kv.1) + "'"
  }

  /** `attrs.collect { |k, v| "#{k}='#{v}'" }.join(' ')` */
  function AttrsText(attrs: Attrs.Hash<Value>): string {
    if |attrs| == 0 then ""
    else if |attrs| == 1 then AttrText(attrs[0])
    else AttrsText(attrs[..|attrs| - 1]) + " " + AttrText(attrs[|attrs| - 1])
  }

  /** The selected class of this strategy: "selected" or "", no leading space. */
  function SelectedClass(sel: bool): string {
    if sel then "selected" else ""
  }

  function BodyText(b: CellBody, env: Env): string {
    match b
    case Checkbox(sel) => "<span class='checkbox " + SelectedClass(sel) + "'></span>"
    case EditLink(_, _) => env.render(FallbackLink(b))
    case DestroyLink(_, _) => env.render(FallbackLink(b))
    case Content(v) => ToS(v)
  }

  function CellText(cell: Cell, env: Env): string {
    ("<td " + AttrsText(cell.attrs) + ">") + "<div class='cell'>" + BodyText(cell.body, env) + "</div>" + "</td>"
  }

  function CellsText(cells: seq<Cell>, env: Env): string {
    if |cells| == 0 then "" else CellsText(cells[..|cells| - 1], env) + CellText(cells[|cells| - 1], env)
  }

  /** The opening `tr`: a row title is an attribute of its own after a space
      that is there even without a title. */
  function RowHead(row: Row): string {
    "<tr class='grid_row " + SelectedClass(row.selected) + "' data-id='" + row.id + "' " +
    (if row.title.Some? then "data-row_title='" + row.title.value + "'" else "") + ">"
  }

  function RowText(row: Row, env: Env): string {
    RowHead(row) + CellsText(row.cells, env) + "</tr>"
  }

  function CellTextOf(g: Grid, env: Env, e: Entity, c: Column): Result<string> {
    var cell :- CellOf(g, env, e, c);
    Ok(CellText(cell, env))
  }

  function RowTextOf(g: Grid, env: Env, i: nat, e: Entity): Result<string> {
    var row :- RowOf(g, env, i, e);
    Ok(RowText(row, env))
  }

  /** `buffer << html` for each row: one plain String piece per row. */
  function RowPieces(rows: seq<Row>, env: Env): seq<Node> {
    if |rows| == 0 then [] else RowPieces(rows[..|rows| - 1], env) + [Text(RowText(rows[|rows| - 1], env))]
  }

  /** Each row String is appended as escaped text, in order. */
  lemma {:induction false} RowPiecesAt(rows: seq<Row>, env: Env)
    ensures |RowPieces(rows, env)| == |rows|
    ensures forall k :: 0 <= k < |rows| ==> RowPieces(rows, env)[k] == Text(RowText(rows[k], env))
  {
    if |rows| > 0 {
      RowPiecesAt(rows[..|rows| - 1], env);
    }
  }

  lemma RowPiecesSnoc(rows: seq<Row>, row: Row, env: Env)
    ensures RowPieces(rows + [row], env) == RowPieces(rows, env) + [Text(RowText(row, env))]
  {
    assert (rows + [row])[..|rows|] == rows;
  }

  lemma PieceOfString(s: string)
    ensures Piece(Str(s)) == Text(s)
  {
  }

  function Output(g: Grid, env: Env): Result<seq<Node>> {
    var rows :- RowsOf(g, env);
    Ok(RowPieces(rows, env))
  }

  /** The buffer holds the String of each entity's row as text, in order,
      exactly when every entity's row renders. */
  lemma OutputMeaning(g: Grid, env: Env)
    ensures Output(g, env).Ok? <==> forall i :: 0 <= i < |g.rows| ==> RowOf(g, env, i, g.rows[i]).Ok?
    ensures Output(g, env).Ok? ==>
      |Output(g, env).value| == |g.rows| &&
      forall i :: 0 <= i < |g.rows| ==>
        RowTextOf(g, env, i, g.rows[i]).Ok? && Output(g, env).value[i] == Text(RowTextOf(g, env, i, g.rows[i]).value)
  {
    RowsOfMeaning(g, env);
    if RowsOf(g, env).Ok? {
      RowPiecesAt(RowsOf(g, env).value, env);
    }
  }

  /** The markup of one `td`, appended piece by piece. */
  method StringPlusCell(g: Grid, env: Env, e: Entity, c: Column) returns (r: Result<string>)
    ensures r == CellTextOf(g, env, e, c)
  {
    var data := BodyCellDataOptions(c, e, env);
    if data.Err? {
      return Err(data.error);
    }
    var cellAttributes := Attrs.Update(c.bodyCellOptions, data.value);
    var html := "<td " + AttrsText(cellAttributes) + ">";
    ghost var open := html;
    html := html + "<div class='cell'>";
    ghost var body: CellBody;
    match c.kind {
      case Select =>
        body := Checkbox(g.selected(e));
        html := html + ("<span class='checkbox " + SelectedClass(g.selected(e)) + "'></span>");
      case Edit =>
        var content := ExtractColumnContent(c, e, false, env);
        if content.Err? {
          return Err(content.error);
        }
        if content.value.Nil? {
          var url := ResolveUrl(c, e);
          body := EditLink(url, c.linkToOptions);
          html := html + env.render(Link(url, c.linkToOptions, [Image(BlankGif)]));
        } else {
          body := Content(content.value);
          html := html + ToS(content.value);
        }
      case Destroy =>
        var content := ExtractColumnContent(c, e, false, env);
        if content.Err? {
          return Err(content.error);
        }
        if content.value.Nil? {
          var url := ResolveUrl(c, e);
          body := DestroyLink(url, c.linkToOptions);
          html := html + env.render(Link(Str("javascript:;"), Attrs.Update([("data-url", url)], c.linkToOptions), [Image(BlankGif)]));
        } else {
          body := Content(content.value);
          html := html + ToS(content.value);
        }
      case Plain =>
        var content := ExtractColumnContent(c, e, true, env);
        if content.Err? {
          return Err(content.error);
        }
        body := Content(content.value);
        var cellContent := ToS(content.value);
        html := html + cellContent;  // the `unless cell_content.nil?` guard cannot fire on a String
    }
    html := html + "</div>";
    html := html + "</td>";
    assert CellOf(g, env, e, c) == Ok(Cell(cellAttributes, body));
    assert html == open + "<div class='cell'>" + BodyText(body, env) + "</div>" + "</td>";
    r := Ok(html);
  }

  /** The markup of an entity's cells, or the error of its first failing cell. */
  function CellsTextOf(g: Grid, env: Env, e: Entity): Result<string> {
    var cells :- Traverse(g.columns, CellStep(g, env, e));
    Ok(CellsText(cells, env))
  }

  lemma Append3(a: string, b: string, c: string)
    ensures a + b + c == a + (b + c)
  {
  }

  lemma CellsTextSnoc(html0: string, cells: seq<Cell>, cell: Cell, env: Env)
    ensures html0 + CellsText(cells + [cell], env) == html0 + CellsText(cells, env) + CellText(cell, env)
  {
    assert (cells + [cell])[..|cells|] == cells;
    Append3(html0, CellsText(cells, env), CellText(cell, env));
  }

  /** The column loop of a row: appends a `td` to `html` for each column in
      view, in declared order. */
  method AppendCells(g: Grid, env: Env, e: Entity, html0: string) returns (r: Result<string>)
    ensures CellsTextOf(g, env, e).Err? ==> r == Err(CellsTextOf(g, env, e).error)
    ensures CellsTextOf(g, env, e).Ok? ==> r == Ok(html0 + CellsTextOf(g, env, e).value)
  {
    ghost var rs := CellResultsOf(g, env, e);
    r := AppendCellsLoop(g, env, e, html0, rs);
  }

  /** The column loop, stated on the step result of each column. */
  method AppendCellsLoop(g: Grid, env: Env, e: Entity, html0: string, ghost rs: seq<Result<Option<Cell>>>)
    returns (r: Result<string>)
    requires CellResults(g, env, e, rs)
    ensures Collect(rs).Err? ==> r == Err(Collect(rs).error)
    ensures Collect(rs).Ok? ==> r == Ok(html0 + CellsText(Collect(rs).value, env))
  {
    var html := html0;
    ghost var cells: seq<Cell> := [];
    var j := 0;
    while j < |g.columns|
      invariant 0 <= j <= |g.columns|
      invariant Collect(rs[..j]) == Ok(cells)
      invariant html == html0 + CellsText(cells, env)
    {
      CollectStep(rs, j, cells);
      if !InView(g.columns[j], g.activeView) {
        j := j + 1;
        continue;
      }
      var td := StringPlusCellAt(g, env, e, j, rs);
      if td.Err? {
        return Err(td.error);
      }
      ghost var cell := rs[j].value.value;
      CellsTextSnoc(html0, cells, cell, env);
      html := html + td.value;
      cells := cells + [cell];
      j := j + 1;
    }
    assert rs[..j] == rs;
    r := Ok(html);
  }

  /** The `td` of column `j`, stated on its step result. */
  method StringPlusCellAt(g: Grid, env: Env, e: Entity, j: nat, ghost rs: seq<Result<Option<Cell>>>)
    returns (r: Result<string>)
    requires j < |g.columns| && InView(g.columns[j], g.activeView) && CellResults(g, env, e, rs)
    ensures rs[j].Err? ==> r == Err(rs[j].error)
    ensures rs[j].Ok? ==> rs[j].value.Some? && r == Ok(CellText(rs[j].value.value, env))
  {
    r := StringPlusCell(g, env, e, g.columns[j]);
  }

  /** The `html` String of one row: the opening `tr`, a `td` per column in
      view, the closing `tr`. */
  method StringPlusRow(g: Grid, env: Env, i: nat, e: Entity) returns (r: Result<string>)
    ensures r == RowTextOf(g, env, i, e)
  {
    var entitySelectedClass := SelectedClass(g.selected(e));
    var title := RowTitle(g, e);
    var rowTitle := if title.Some? then "data-row_title='" + title.value + "'" else "";
    var id := ExtractEntityId(e, env.token(i));
    var html := "";
    html := html + ("<tr class='grid_row " + entitySelectedClass + "' data-id='" + id + "' " + rowTitle + ">");
    assert html == RowHead(Row(g.selected(e), id, title, []));
    var withCells := AppendCells(g, env, e, html);
    if withCells.Err? {
      return Err(withCells.error);
    }
    html := withCells.value;
    html := html + "</tr>";
    ghost var row := RowOf(g, env, i, e).value;
    assert row == Row(g.selected(e), id, title, row.cells);
    assert RowHead(row) == RowHead(Row(g.selected(e), id, title, []));
    r := Ok(html);
  }

  /** `table_rows_string_plus`: one String piece per entity, in order; the
      first failing cell aborts the whole buffer. */
  method TableRowsStringPlus(g: Grid, env: Env) returns (r: Result<seq<Node>>)
    ensures r == Output(g, env)
  {
    ghost var rs := RowResultsOf(g, env);
    r := StringPlusRowsLoop(g, env, rs);
  }

  /** The rows loop, stated on the row result of each entity. */
  method StringPlusRowsLoop(g: Grid, env: Env, ghost rs: seq<Result<Option<Row>>>) returns (r: Result<seq<Node>>)
    requires RowResults(g, env, rs)
    ensures Collect(rs).Err? ==> r == Err(Collect(rs).error)
    ensures Collect(rs).Ok? ==> r == Ok(RowPieces(Collect(rs).value, env))
  {
    var buffer: seq<Node> := [];
    ghost var rows: seq<Row> := [];
    var i := 0;
    while i < |g.rows|
      invariant 0 <= i <= |g.rows|
      invariant Collect(rs[..i]) == Ok(rows)
      invariant buffer == RowPieces(rows, env)
    {
      CollectStep(rs, i, rows);
      var html := StringPlusRowAt(g, env, i, rs);
      if html.Err? {
        return Err(html.error);
      }
      RowPiecesSnoc(rows, rs[i].value.value, env);
      PieceOfString(html.value);
      buffer := buffer + [Piece(Str(html.value))];
      rows := rows + [rs[i].value.value];
      i := i + 1;
    }
    assert rs[..i] == rs;
    r := Ok(buffer);
  }

  /** The row String of the entity at row position `i`, stated on its row
      result. */
  method StringPlusRowAt(g: Grid, env: Env, i: nat, ghost rs: seq<Result<Option<Row>>>) returns (r: Result<string>)
    requires i < |g.rows| && RowResults(g, env, rs)
    ensures rs[i].Err? ==> r == Err(rs[i].error)
    ensures rs[i].Ok? ==> rs[i].value.Some? && r == Ok(RowText(rs[i].value.value, env))
  {
    r := StringPlusRow(g, env, i, g.rows[i]);
  }
}

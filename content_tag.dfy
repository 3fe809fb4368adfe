/** The `:content_tag` row strategy (`table_rows_content_tag`): each row is
    built with the tag helpers into a tree of elements. */
module ContentTagStrategy {
  import opened Prelude
  import opened Values
  import opened Columns
  import opened Config
  import opened Resolver
  import opened Html
  import opened RowModel
  import Attrs

  /** The markup inside a cell's `div.cell`. */
  function BodyNodes(b: CellBody): seq<Node> {
    match b
    case Checkbox(sel) => [Elem("span", ClassAttr("checkbox" + (if sel then " selected" else "")), [Text("")])]
    case EditLink(_, _) => [FallbackLink(b)]
    case DestroyLink(_, _) => [FallbackLink(b)]
    case Content(v) => [Piece(v)]
  }

  /** `content_tag(:td, attrs) { content_tag(:div, class: 'cell') { ... } }` */
  function CellNode(cell: Cell): Node {
    Elem("td", cell.attrs, [Elem("div", ClassAttr("cell"), BodyNodes(cell.body))])
  }

  function CellNodes(cells: seq<Cell>): (r: seq<Node>)
  {
    if |cells| == 0 then [] else CellNodes(cells[..|cells| - 1]) + [CellNode(cells[|cells| - 1])]
  }

  /** Appending a cell appends its `td`. */
  lemma CellNodesSnoc(cells: seq<Cell>, cell: Cell)
    ensures CellNodes(cells + [cell]) == CellNodes(cells) + [CellNode(cell)]
  {
    assert (cells + [cell])[..|cells|] == cells;
  }

  /** One `td` per cell, in order. */
  lemma {:induction false} CellNodesAt(cells: seq<Cell>)
    ensures |CellNodes(cells)| == |cells|
    ensures forall k :: 0 <= k < |cells| ==> CellNodes(cells)[k] == CellNode(cells[k])
  {
    if |cells| > 0 {
      CellNodesAt(cells[..|cells| - 1]);
    }
  }

  /** The `tr` of a row: a nil row title is passed to the helper as nil. */
  function RowNode(row: Row): Node {
    Elem("tr",
         [("class", Str("grid_row" + (if row.selected then " selected" else ""))),
          ("data-id", Str(row.id)),
          ("data-row_title", if row.title.Some? then Str(row.title.value) else Nil)],
         CellNodes(row.cells))
  }

  function RowNodes(rows: seq<Row>): (r: seq<Node>)
  {
    if |rows| == 0 then [] else RowNodes(rows[..|rows| - 1]) + [RowNode(rows[|rows| - 1])]
  }

  /** Appending a row appends its `tr`. */
  lemma RowNodesSnoc(rows: seq<Row>, row: Row)
    ensures RowNodes(rows + [row]) == RowNodes(rows) + [RowNode(row)]
  {
    assert (rows + [row])[..|rows|] == rows;
  }

  /** One `tr` per row, in order. */
  lemma {:induction false} RowNodesAt(rows: seq<Row>)
    ensures |RowNodes(rows)| == |rows|
    ensures forall k :: 0 <= k < |rows| ==> RowNodes(rows)[k] == RowNode(rows[k])
  {
    if |rows| > 0 {
      RowNodesAt(rows[..|rows| - 1]);
    }
  }

  /** The `tr` of the entity at row position `i`, or the error of its row. */
  function RowNodeOf(g: Grid, env: Env, i: nat, e: Entity): Result<Node> {
    var row :- RowOf(g, env, i, e);
    Ok(RowNode(row))
  }

  /** The SafeBuffer `table_rows_content_tag` returns. */
  function Output(g: Grid, env: Env): Result<seq<Node>> {
    var rows :- RowsOf(g, env);
    Ok(RowNodes(rows))
  }

  /** The buffer holds one `tr` per entity, in order, exactly when every
      entity's row renders. */
  lemma OutputMeaning(g: Grid, env: Env)
    ensures Output(g, env).Ok? <==> forall i :: 0 <= i < |g.rows| ==> RowOf(g, env, i, g.rows[i]).Ok?
    ensures Output(g, env).Ok? ==>
      |Output(g, env).value| == |g.rows| &&
      forall i :: 0 <= i < |g.rows| ==> RowNodeOf(g, env, i, g.rows[i]) == Ok(Output(g, env).value[i])
  {
    RowsOfMeaning(g, env);
    if RowsOf(g, env).Ok? {
      RowNodesAt(RowsOf(g, env).value);
    }
  }

  /** One `td` of `table_rows_content_tag`: the data options are resolved
      first, then the column kind decides the content of the `div.cell`. */
  method ContentTagCell(g: Grid, env: Env, e: Entity, c: Column) returns (r: Result<Node>)
    ensures CellOf(g, env, e, c).Err? ==> r == Err(CellOf(g, env, e, c).error)
    ensures CellOf(g, env, e, c).Ok? ==> r == Ok(CellNode(CellOf(g, env, e, c).value))
  {
    var data := BodyCellDataOptions(c, e, env);
    if data.Err? {
      return Err(data.error);
    }
    var attrs := Attrs.Update(c.bodyCellOptions, data.value);
    var cellBuffer: seq<Node> := [];
    match c.kind {
      case Select =>
        cellBuffer := cellBuffer + [Elem("span", ClassAttr("checkbox" + (if g.selected(e) then " selected" else "")), [Text("")])];
      case Edit =>
        var content := ExtractColumnContent(c, e, false, env);
        if content.Err? {
          return Err(content.error);
        }
        if content.value.Nil? {
          var url := ResolveUrl(c, e);
          cellBuffer := cellBuffer + [Link(url, c.linkToOptions, [Image(BlankGif)])];
        } else {
          PieceOfToS(content.value);
          cellBuffer := cellBuffer + [Piece(ToSValue(content.value))];
        }
      case Destroy =>
        var content := ExtractColumnContent(c, e, false, env);
        if content.Err? {
          return Err(content.error);
        }
        if content.value.Nil? {
          var url := ResolveUrl(c, e);
          cellBuffer := cellBuffer + [Link(Str("javascript:;"), Attrs.Update([("data-url", url)], c.linkToOptions), [Image(BlankGif)])];
        } else {
          PieceOfToS(content.value);
          cellBuffer := cellBuffer + [Piece(ToSValue(content.value))];
        }
      case Plain =>
        var content := ExtractColumnContent(c, e, true, env);
        if content.Err? {
          return Err(content.error);
        }
        var cellContent := ToSValue(content.value);
        PieceOfToS(content.value);
        if !cellContent.Nil? {  // always true: to_s never returns nil
          cellBuffer := cellBuffer + [Piece(cellContent)];
        }
    }
    assert CellOf(g, env, e, c).Ok?;
    assert cellBuffer == BodyNodes(CellOf(g, env, e, c).value.body);
    assert attrs == CellOf(g, env, e, c).value.attrs;
    r := Ok(Elem("td", attrs, [Elem("div", ClassAttr("cell"), cellBuffer)]));
  }

  /** `buffer << v.to_s` and `buffer << v` append the same piece. */
  lemma PieceOfToS(v: Value)
    ensures Piece(ToSValue(v)) == Piece(v)
  {
  }

  /** The `td`s of an entity's row, or the error of its first failing cell. */
  function CellNodesOf(g: Grid, env: Env, e: Entity): Result<seq<Node>> {
    var cells :- Traverse(g.columns, CellStep(g, env, e));
    Ok(CellNodes(cells))
  }

  /** The block given to `content_tag(:tr)`: one `td` per column in view, in
      declared order; a column outside the view is skipped. */
  method ContentTagCells(g: Grid, env: Env, e: Entity) returns (r: Result<seq<Node>>)
    ensures r == CellNodesOf(g, env, e)
  {
    ghost var rs := CellResultsOf(g, env, e);
    r := ContentTagCellsLoop(g, env, e, rs);
  }

  /** The column loop, stated on the step result of each column. */
  method ContentTagCellsLoop(g: Grid, env: Env, e: Entity, ghost rs: seq<Result<Option<Cell>>>)
    returns (r: Result<seq<Node>>)
    requires CellResults(g, env, e, rs)
    ensures Collect(rs).Err? ==> r == Err(Collect(rs).error)
    ensures Collect(rs).Ok? ==> r == Ok(CellNodes(Collect(rs).value))
  {
    var rowBuffer: seq<Node> := [];
    ghost var cells: seq<Cell> := [];
    var j := 0;
    while j < |g.columns|
      invariant 0 <= j <= |g.columns|
      invariant Collect(rs[..j]) == Ok(cells)
      invariant rowBuffer == CellNodes(cells)
    {
      CollectStep(rs, j, cells);
      if !InView(g.columns[j], g.activeView) {
        j := j + 1;
        continue;
      }
      var td := ContentTagCellAt(g, env, e, j, rs);
      if td.Err? {
        return Err(td.error);
      }
      CellNodesSnoc(cells, rs[j].value.value);
      rowBuffer := rowBuffer + [td.value];
      cells := cells + [rs[j].value.value];
      j := j + 1;
    }
    assert rs[..j] == rs;
    r := Ok(rowBuffer);
  }

  /** The `td` of column `j`, stated on its step result. */
  method ContentTagCellAt(g: Grid, env: Env, e: Entity, j: nat, ghost rs: seq<Result<Option<Cell>>>)
    returns (r: Result<Node>)
    requires j < |g.columns| && InView(g.columns[j], g.activeView) && CellResults(g, env, e, rs)
    ensures rs[j].Err? ==> r == Err(rs[j].error)
    ensures rs[j].Ok? ==> rs[j].value.Some? && r == Ok(CellNode(rs[j].value.value))
  {
    r := ContentTagCell(g, env, e, g.columns[j]);
  }

  /** The body of the row loop of `table_rows_content_tag` for the entity at
      row position `i`. */
  method ContentTagRow(g: Grid, env: Env, i: nat, e: Entity) returns (r: Result<Node>)
    ensures r == RowNodeOf(g, env, i, e)
  {
    var selected := g.selected(e);
    var id := ExtractEntityId(e, env.token(i));
    var title := RowTitle(g, e);
    var tds := ContentTagCells(g, env, e);
    if tds.Err? {
      return Err(tds.error);
    }
    r := Ok(Elem("tr",
                 [("class", Str("grid_row" + (if selected then " selected" else ""))),
                  ("data-id", Str(id)),
                  ("data-row_title", if title.Some? then Str(title.value) else Nil)],
                 tds.value));
  }

  /** `table_rows_content_tag`: one `tr` per entity, in order; the first
      failing cell aborts the whole buffer. */
  method TableRowsContentTag(g: Grid, env: Env) returns (r: Result<seq<Node>>)
    ensures r == Output(g, env)
  {
    ghost var rs := RowResultsOf(g, env);
    r := ContentTagRowsLoop(g, env, rs);
  }

  /** The rows loop, stated on the row result of each entity. */
  method ContentTagRowsLoop(g: Grid, env: Env, ghost rs: seq<Result<Option<Row>>>) returns (r: Result<seq<Node>>)
    requires RowResults(g, env, rs)
    ensures Collect(rs).Err? ==> r == Err(Collect(rs).error)
    ensures Collect(rs).Ok? ==> r == Ok(RowNodes(Collect(rs).value))
  {
    var buffer: seq<Node> := [];
    ghost var rows: seq<Row> := [];
    var i := 0;
    while i < |g.rows|
      invariant 0 <= i <= |g.rows|
      invariant Collect(rs[..i]) == Ok(rows)
      invariant buffer == RowNodes(rows)
    {
      CollectStep(rs, i, rows);
      var row := ContentTagRowAt(g, env, i, rs);
      if row.Err? {
        return Err(row.error);
      }
      RowNodesSnoc(rows, rs[i].value.value);
      buffer := buffer + [row.value];
      rows := rows + [rs[i].value.value];
      i := i + 1;
    }
    assert rs[..i] == rs;
    r := Ok(buffer);
  }

  /** The `tr` of the entity at row position `i`, stated on its row result. */
  method ContentTagRowAt(g: Grid, env: Env, i: nat, ghost rs: seq<Result<Option<Row>>>) returns (r: Result<Node>)
    requires i < |g.rows| && RowResults(g, env, rs)
    ensures rs[i].Err? ==> r == Err(rs[i].error)
    ensures rs[i].Ok? ==> rs[i].value.Some? && r == Ok(RowNode(rs[i].value.value))
  {
    r := ContentTagRow(g, env, i, g.rows[i]);
  }

  /** The quirk of the plain cell: a nil value is printed as "" and the
      `div.cell` wrapper is there all the same. */
  lemma PlainNilCellStillWrapped(attrs: Attrs.Hash<Value>)
    ensures CellNode(Cell(attrs, Content(Nil))) ==
      Elem("td", attrs, [Elem("div", ClassAttr("cell"), [Text("")])])
  {
  }
}

/** `render_table` and the two layouts it chooses between: `table_layout`
    (header, body with its empty state and template rows, the rows of the
    chosen strategy, and the footer) and `tiles_layout`. */
module Layout {
  import opened Prelude
  import opened Values
  import opened Columns
  import opened Config
  import opened Resolver
  import opened Html
  import opened Header
  import ContentTagStrategy
  import StringPlusStrategy
  import StringConcatStrategy
  import StringConcatLoop
  import RowModel
  import Attrs

  /** `no_rows_message_contents`: the partial for "no rows in this filter"
      when the model has rows at all, the `empty_rows` message otherwise. */
  function NoRowsMessage(g: Grid, env: Env): Node {
    Elem("div", ClassAttr("no-data"),
         if g.anyRows then [Raw(env.noFilterResults)]
         else [Elem("div", ClassAttr("no rows"), [Piece(g.emptyRows)])])
  }

  /** `no_rows_message_contents` chooses on `any_rows?`: a model with rows
      outside the current filter gets the no-filter-results partial as it was
      rendered, a model with no rows at all the `empty_rows` option in a
      `div.no rows`. Either way the message is one `div.no-data`. */
  lemma NoRowsMessageMeaning(g: Grid, env: Env)
    ensures var m := NoRowsMessage(g, env);
      ClassOf(m) == Some("no-data") && |m.kids| == 1 &&
      (g.anyRows ==> m.kids == [Raw(env.noFilterResults)]) &&
      (!g.anyRows ==> ClassOf(m.kids[0]) == Some("no rows") && m.kids[0].kids == [Piece(g.emptyRows)])
  {
  }

  /** The `tr.no-data` of an empty body: one cell spanning every declared
      column, whether in view or not. */
  function NoDataRow(g: Grid, env: Env): Node {
    Elem("tr", ClassAttr("no-data"), [Elem("td", [("colspan", Int(|g.columns|))], [NoRowsMessage(g, env)])])
  }

  function Div(cls: string, kids: seq<Node>): Node {
    Elem("div", ClassAttr(cls), kids)
  }

  function Span(cls: string, kids: seq<Node>): Node {
    Elem("span", ClassAttr(cls), kids)
  }

  /** The three template rows the client clones: the destroy row, the create
      row, and the row of cell templates. */
  function TemplateRows(g: Grid, env: Env): seq<Node> {
    var span := [("colspan", Int(|g.columns|))];
    [Elem("tr", ClassAttr("template destroying"), [Elem("td", span, [
        Div("message", [Raw(env.translate("template_row.destroy"))]),
        Div("row_action_error", [Text("")]),
        Div("original", [Text("")])])]),
     Elem("tr", ClassAttr("template creating"), [Elem("td", span, [
        Div("message", [Raw(env.translate("template_row.create"))]),
        Div("error", [
          Raw(env.translate("template_row.create_error")),
          Span("error_message", [Text("")]),
          Link(Str("javascript:;"), ClassAttr("close"), [Text(env.i18n("application.close"))])])])]),
     Elem("tr", ClassAttr("template cell_templates"), [
        Elem("td", ClassAttr("saving"), [Div("saving", [
          Span("message", [Image("ajax_data_grid/spinner-16x16.gif"), Span("text", [Text(env.translate("saving"))])]),
          Div("original", [Text("")])])]),
        Elem("td", ClassAttr("validation-error"), [Div("validation-error", [
          Div("message", [Span("text", [Text("")]), Link(Str("javascript:;"), ClassAttr("ok"), [Text("ok")])]),
          Div("original", [Text("")])])]),
        Elem("td", ClassAttr("qtip_editor_loading_message"), [Div("qtip_editor_loading_message", [
          Image("spinner-10x10.gif"), Text(env.translate("loading"))])]),
        Elem("td", ClassAttr("qtip_editor_loading_failed"), [Div("qtip_editor_loading_failed", [
          Text(env.translate("loading_failed"))])])])]
  }

  /** The `tbody`: the no-data row when there are no rows, the template rows
      always, then what the row strategy rendered. */
  function TableBody(g: Grid, env: Env, rows: seq<Node>): Node {
    Elem("tbody", [], (if |g.rows| == 0 then [NoDataRow(g, env)] else []) + TemplateRows(g, env) + rows)
  }

  /** The empty state: the body opens with the no-data row exactly when there
      are no rows; that row spans all declared columns and shows the filter
      message when the model has rows outside the filter, the `empty_rows`
      message otherwise. The template rows follow in any case, then the rows. */
  lemma EmptyState(g: Grid, env: Env, rows: seq<Node>)
    ensures var kids := TableBody(g, env, rows).kids;
      var t := if |g.rows| == 0 then 1 else 0;
      |kids| == t + 3 + |rows| && kids[t + 3..] == rows &&
      ClassOf(kids[t]) == Some("template destroying") &&
      ClassOf(kids[t + 1]) == Some("template creating") &&
      ClassOf(kids[t + 2]) == Some("template cell_templates") &&
      (|g.rows| == 0 ==>
         ClassOf(kids[0]) == Some("no-data") &&
         kids[0].kids[0].attrs == [("colspan", Int(|g.columns|))] &&
         kids[0].kids[0].kids[0] == NoRowsMessage(g, env) &&
         (g.anyRows <==> kids[0].kids[0].kids[0].kids == [Raw(env.noFilterResults)]) &&
         (!g.anyRows ==> kids[0].kids[0].kids[0].kids == [Elem("div", ClassAttr("no rows"), [Piece(g.emptyRows)])]))
  {
  }

  /** `aggregated_data` as the footer sees it: the configured data, or `{}`
      when no aggregated data is configured. */
  function FooterData(aggregator: Option<(Entity, AggData) -> AggData>, data: AggData): AggData {
    if aggregator.Some? then data else map[]
  }

  /** The `tfoot`, when the grid has a footer block: what the block captures
      for the aggregated data. */
  function Footer(g: Grid, env: Env, data: AggData): seq<Node> {
    if g.footerBlock.Some? then [Elem("tfoot", [], [Piece(Capture(g.footerBlock.value(data), env))])] else []
  }

  function TableAttrs(g: Grid): Attrs.Hash<Value> {
    [("class", Str("grid_table " + (if |g.rows| == 0 then "empty" else ""))), ("cellpadding", Int(0)), ("cellspacing", Int(0))]
  }

  function TableNode(g: Grid, env: Env, ths: seq<Node>, rows: seq<Node>, footerData: AggData): Node {
    Elem("table", TableAttrs(g),
         [Elem("thead", [], [Elem("tr", [], ths)]), TableBody(g, env, rows)] + Footer(g, env, footerData))
  }

  /** What `table_rows` gives, with the cache entries and aggregated data
      after it: only the string_concat strategy uses the cache and runs the
      aggregator; a render type that names no strategy renders no rows. */
  function RowsRun(g: Grid, env: Env, cache0: map<string, string>, data0: AggData,
                   aggregator: Option<(Entity, AggData) -> AggData>): (Result<seq<Node>>, map<string, string>, AggData) {
    match g.renderType
    case ContentTagRender => (ContentTagStrategy.Output(g, env), cache0, data0)
    case StringPlusRender => (StringPlusStrategy.Output(g, env), cache0, data0)
    case StringConcatRender =>
      var run := StringConcatStrategy.ConcatRun(StringConcatStrategy.LoopOf(g, env, aggregator), cache0, data0, |g.rows|);
      (StringConcatStrategy.Output(run), run.cache, run.data)
    case OtherRender => (Ok([]), cache0, data0)
  }

  /** What `table_layout` gives, with the cache entries and aggregated data
      after it, when `table_rows` gives `rows`. The header is built first: a
      header that raises stops the table before any row is looked at, and the
      state is left as it was. */
  function LayoutOf(g: Grid, env: Env, cache0: map<string, string>, data0: AggData,
                    rows: (Result<seq<Node>>, map<string, string>, AggData),
                    aggregator: Option<(Entity, AggData) -> AggData>): (Result<Node>, map<string, string>, AggData) {
    match HeaderCells(g, env)
    case Err(err) => (Err(err), cache0, data0)
    case Ok(ths) =>
      match rows.0
      case Err(err) => (Err(err), rows.1, rows.2)
      case Ok(nodes) => (Ok(TableNode(g, env, ths, nodes, FooterData(aggregator, rows.2))), rows.1, rows.2)
  }

  /** A table that renders is the header, the body around the rows, and the
      footer of the aggregated data the rows left behind (`{}` without an
      aggregator). */
  lemma LayoutMeaning(g: Grid, env: Env, cache0: map<string, string>, data0: AggData,
                      rows: (Result<seq<Node>>, map<string, string>, AggData),
                      aggregator: Option<(Entity, AggData) -> AggData>)
    ensures var out := LayoutOf(g, env, cache0, data0, rows, aggregator);
      (out.0.Ok? <==> HeaderCells(g, env).Ok? && rows.0.Ok?) &&
      (HeaderCells(g, env).Err? ==> out == (Err(HeaderCells(g, env).error), cache0, data0)) &&
      (HeaderCells(g, env).Ok? ==> out.1 == rows.1 && out.2 == rows.2) &&
      (out.0.Ok? ==>
         var kids := out.0.value.kids;
         |kids| == (if g.footerBlock.Some? then 3 else 2) &&
         kids[0] == Elem("thead", [], [Elem("tr", [], HeaderCells(g, env).value)]) &&
         kids[1] == TableBody(g, env, rows.0.value) &&
         (g.footerBlock.Some? ==>
            kids[2] == Elem("tfoot", [], [Piece(Capture(g.footerBlock.value(if aggregator.Some? then rows.2 else map[]), env))])))
  {
    var out := LayoutOf(g, env, cache0, data0, rows, aggregator);
    if HeaderCells(g, env).Ok? && rows.0.Ok? {
      var ths := HeaderCells(g, env).value;
      var footerData := FooterData(aggregator, rows.2);
      assert out.0 == Ok(TableNode(g, env, ths, rows.0.value, footerData));
      assert out.0.value.kids == [Elem("thead", [], [Elem("tr", [], ths)]), TableBody(g, env, rows.0.value)] + Footer(g, env, footerData);
    }
  }

  /** `table_rows`: the dispatch on the render type. */
  method TableRows(g: Grid, env: Env, cache: StringConcatStrategy.RowCache, agg: StringConcatStrategy.AggregatedData)
    returns (r: Result<seq<Node>>)
    modifies cache, agg
    ensures (r, cache.entries, agg.data) == RowsRun(g, env, old(cache.entries), old(agg.data), agg.aggregator)
  {
    match g.renderType {
      case ContentTagRender =>
        r := ContentTagStrategy.TableRowsContentTag(g, env);
      case StringPlusRender =>
        r := StringPlusStrategy.TableRowsStringPlus(g, env);
      case StringConcatRender =>
        r := StringConcatStrategy.TableRowsStringConcat(g, env, cache, agg);
      case OtherRender =>
        r := Ok([]);
    }
  }

  /** `table_layout { table_rows }` */
  method TableLayout(g: Grid, env: Env, cache: StringConcatStrategy.RowCache, agg: StringConcatStrategy.AggregatedData)
    returns (r: Result<Node>)
    modifies cache, agg
    ensures (r, cache.entries, agg.data) ==
      LayoutOf(g, env, old(cache.entries), old(agg.data), RowsRun(g, env, old(cache.entries), old(agg.data), agg.aggregator), agg.aggregator)
  {
    ghost var cache0, data0 := cache.entries, agg.data;
    var ths := HeaderRow(g, env);
    if ths.Err? {
      return Err(ths.error);
    }
    var thead := Elem("thead", [], [Elem("tr", [], ths.value)]);
    var rows := TableRows(g, env, cache, agg);
    ghost var run := RowsRun(g, env, cache0, data0, agg.aggregator);
    assert (rows, cache.entries, agg.data) == run;
    if rows.Err? {
      return Err(rows.error);
    }
    var tbody := TableBody(g, env, rows.value);
    var buffer := [thead, tbody];
    if g.footerBlock.Some? {
      var aggregatedData: AggData := map[];
      if agg.aggregator.Some? {
        aggregatedData := agg.data;
      }
      buffer := buffer + [Elem("tfoot", [], [Piece(Capture(g.footerBlock.value(aggregatedData), env))])];
    }
    assert buffer == [thead, tbody] + Footer(g, env, FooterData(agg.aggregator, run.2));
    r := Ok(Elem("table", TableAttrs(g), buffer));
  }

  /** One tile: the `div.tile` of the entity at row position `i`, holding its
      tile content. Without a tile configuration the content cannot be
      resolved. */
  function TileOf(g: Grid, env: Env, i: nat, e: Entity): Result<Node> {
    var content :- ExtractTileContent(g, e, env);
    Ok(Elem("div",
            [("class", Str("tile " + ("grid_row " + (if g.selected(e) then " selected" else "")))),
             ("data-id", Str(ExtractEntityId(e, env.token(i)))),
             ("data-row_title", if g.rowTitle.Some? then Str(RowTitle(g, e).value) else Nil)],
            [Piece(ToSValue(content))]))
  }

  function TileStep(g: Grid, env: Env): (nat, Entity) -> Result<Option<Node>> {
    (i: nat, e: Entity) => Lift(TileOf(g, env, i, e))
  }

  /** A tile fails exactly when there is no tile configuration. A tile that
      renders is a `div` whose class is "tile grid_row " and the selected
      class (" selected", so a selected tile has two spaces before it), with
      the entity's id and its row title, if the grid has one; it holds the
      markup the tile block captured for the entity, or "" when the capture
      gave nil. */
  lemma TileMeaning(g: Grid, env: Env, i: nat, e: Entity)
    ensures TileOf(g, env, i, e).Err? <==> g.tileBlock.None?
    ensures TileOf(g, env, i, e).Err? ==> TileOf(g, env, i, e).error == MissingTileConfig
    ensures TileOf(g, env, i, e).Ok? ==>
      var tile := TileOf(g, env, i, e).value;
      var content := Capture(g.tileBlock.value(e), env);
      tile.Elem? && tile.tag == "div" &&
      ClassOf(tile) == Some("tile grid_row " + (if g.selected(e) then " selected" else "")) &&
      Attrs.Get(tile.attrs, "data-id") == Some(Str(ExtractEntityId(e, env.token(i)))) &&
      Attrs.Get(tile.attrs, "data-row_title") == (if g.rowTitle.Some? then Some(Str(ToS(g.rowTitle.value(e)))) else Some(Nil)) &&
      tile.kids == (if content.Safe? then [Raw(content.s)] else [Text("")])
  {
    if g.tileBlock.Some? {
      var content := Capture(g.tileBlock.value(e), env);
      assert "tile " + ("grid_row " + (if g.selected(e) then " selected" else "")) ==
             "tile grid_row " + (if g.selected(e) then " selected" else "");
      assert ExtractTileContent(g, e, env) == Ok(content);
      var attrs := TileOf(g, env, i, e).value.attrs;
      assert "class"[0] != "data-row_title"[0] && "data-id"[5] != "data-row_title"[5];
      assert Attrs.Get(attrs, "data-row_title") == Attrs.Get(attrs[1..], "data-row_title");
      assert Attrs.Get(attrs[1..], "data-row_title") == Attrs.Get(attrs[1..][1..], "data-row_title");
      assert attrs[1..][1..][0] == ("data-row_title", if g.rowTitle.Some? then Str(ToS(g.rowTitle.value(e))) else Nil);
    }
  }

  /** What `tiles_layout` gives: the no-rows message when there are no rows,
      otherwise a tile per entity followed by the clearing `div`. */
  function TilesOf(g: Grid, env: Env): Result<Node> {
    if |g.rows| == 0 then Ok(Div("tiles_view", [NoRowsMessage(g, env)]))
    else
      var tiles :- Traverse(g.rows, TileStep(g, env));
      Ok(Div("tiles_view", tiles + [Div("clear", [Text("")])]))
  }

  /** The tiles view: an empty model shows the no-rows message and needs no
      tile configuration; otherwise it fails exactly when there is no tile
      configuration, and shows the tile of each entity at its row position, in
      order (what a tile holds is `TileMeaning`), then the clearing `div`. */
  lemma TilesMeaning(g: Grid, env: Env)
    ensures |g.rows| == 0 ==> TilesOf(g, env) == Ok(Div("tiles_view", [NoRowsMessage(g, env)]))
    ensures |g.rows| > 0 ==> (TilesOf(g, env).Err? <==> g.tileBlock.None?)
    ensures |g.rows| > 0 && TilesOf(g, env).Err? ==> TilesOf(g, env).error == MissingTileConfig
    ensures |g.rows| > 0 && TilesOf(g, env).Ok? ==>
      var kids := TilesOf(g, env).value.kids;
      |kids| == |g.rows| + 1 && kids[|g.rows|] == Div("clear", [Text("")]) &&
      forall i :: 0 <= i < |g.rows| ==> TileOf(g, env, i, g.rows[i]) == Ok(kids[i])
  {
    if |g.rows| > 0 {
      var f := TileStep(g, env);
      TraverseOkIff(g.rows, f);
      if g.tileBlock.None? {
        assert f(0, g.rows[0]).Err?;
        TraverseErrIsFirst(g.rows, f);
      } else {
        TraverseTotal(g.rows, f);
      }
    }
  }

  /** The tiles loop of `tiles_layout`. */
  method TilesLayout(g: Grid, env: Env) returns (r: Result<Node>)
    ensures r == TilesOf(g, env)
  {
    var buffer: seq<Node> := [];
    if |g.rows| == 0 {
      buffer := buffer + [NoRowsMessage(g, env)];
      assert buffer == [NoRowsMessage(g, env)];
    } else {
      var i := 0;
      while i < |g.rows|
        invariant 0 <= i <= |g.rows|
        invariant Traverse(g.rows[..i], TileStep(g, env)) == Ok(buffer)
      {
        TraverseStep(g.rows, TileStep(g, env), i);
        var entity := g.rows[i];
        var clsSelected := if g.selected(entity) then " selected" else "";
        var cls := "grid_row " + clsSelected;
        var content := ExtractTileContent(g, entity, env);
        if content.Err? {
          TraverseErrSticks(g.rows, TileStep(g, env), i + 1);
          assert TilesOf(g, env) == Err(content.error);
          return Err(content.error);
        }
        var cellContent := ToSValue(content.value);
        var tile := Elem("div",
                         [("class", Str("tile " + cls)),
                          ("data-id", Str(ExtractEntityId(entity, env.token(i)))),
                          ("data-row_title", if g.rowTitle.Some? then Str(ToS(g.rowTitle.value(entity))) else Nil)],
                         [Piece(cellContent)]);
        assert TileOf(g, env, i, entity) == Ok(tile);
        buffer := buffer + [tile];
        i := i + 1;
      }
      assert g.rows[..i] == g.rows;
      buffer := buffer + [Div("clear", [Text("")])];
    }
    r := Ok(Div("tiles_view", buffer));
  }

  /** The attributes of the wrapping `div.grid_table_wrapper`. */
  function WrapperAttrs(g: Grid, env: Env): Attrs.Hash<Value> {
    [("data-grid-id", Str(g.gridId)), ("class", Str("grid_table_wrapper")), ("data-columns_json", Str(env.columnsJson))]
  }

  /** What `render_table` gives, with the cache entries and aggregated data
      after it. */
  function RenderOf(g: Grid, env: Env, cache0: map<string, string>, data0: AggData,
                    aggregator: Option<(Entity, AggData) -> AggData>): (Result<Node>, map<string, string>, AggData) {
    if g.tilesView then
      match TilesOf(g, env)
      case Err(err) => (Err(err), cache0, data0)
      case Ok(tiles) => (Ok(Elem("div", WrapperAttrs(g, env), [tiles])), cache0, data0)
    else
      var (table, cache, data) := LayoutOf(g, env, cache0, data0, RowsRun(g, env, cache0, data0, aggregator), aggregator);
      match table
      case Err(err) => (Err(err), cache, data)
      case Ok(t) => (Ok(Elem("div", WrapperAttrs(g, env), [t])), cache, data)
  }

  /** `render_table`: the wrapper `div` around the tiles view or the table. */
  method RenderTable(g: Grid, env: Env, cache: StringConcatStrategy.RowCache, agg: StringConcatStrategy.AggregatedData)
    returns (r: Result<Node>)
    modifies cache, agg
    ensures (r, cache.entries, agg.data) == RenderOf(g, env, old(cache.entries), old(agg.data), agg.aggregator)
  {
    var inner: Result<Node>;
    if g.tilesView {
      inner := TilesLayout(g, env);
    } else {
      inner := TableLayout(g, env, cache, agg);
    }
    if inner.Err? {
      return Err(inner.error);
    }
    r := Ok(Elem("div", WrapperAttrs(g, env), [inner.value]));
  }

  /** With the string_concat strategy and an aggregator, a table that renders
      hands its footer block the aggregator folded over every entity, in row
      order, cached or not. */
  lemma FooterSeesEveryRow(g: Grid, env: Env, cache0: map<string, string>, data0: AggData,
                           aggregator: Option<(Entity, AggData) -> AggData>)
    requires g.renderType == StringConcatRender && aggregator.Some? && g.footerBlock.Some?
    ensures var run := StringConcatStrategy.ConcatRun(StringConcatStrategy.LoopOf(g, env, aggregator), cache0, data0, |g.rows|);
      var out := LayoutOf(g, env, cache0, data0, (StringConcatStrategy.Output(run), run.cache, run.data), aggregator);
      var folded := StringConcatStrategy.FoldAgg(aggregator, data0, g.rows);
      out.0.Ok? ==>
        out.2 == folded && |out.0.value.kids| == 3 &&
        out.0.value.kids[2] == Elem("tfoot", [], [Piece(Capture(g.footerBlock.value(folded), env))])
  {
    var l := StringConcatStrategy.LoopOf(g, env, aggregator);
    var run := StringConcatStrategy.ConcatRun(l, cache0, data0, |g.rows|);
    StringConcatLoop.OkRunAggregatesAll(l, cache0, data0, |g.rows|);
    assert g.rows[..|g.rows|] == g.rows;
    LayoutMeaning(g, env, cache0, data0, (StringConcatStrategy.Output(run), run.cache, run.data), aggregator);
  }
}

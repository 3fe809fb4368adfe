/** The `:string_concat` row strategy (`string_concat_row`,
    `table_rows_string_concat`): each row is one String built with `<<`,
    double-quoted attributes escaped with `escape_once`, cell content not
    escaped. Rows may come from a cache keyed by the grid's `cache_key`, and
    an aggregator folds every entity into the aggregated data as the rows
    go by. */
module StringConcatStrategy {
  import opened Prelude
  import opened Values
  import opened Columns
  import opened Config
  import opened Resolver
  import opened Html
  import opened RowModel
  import Attrs

  /** The selected class of this strategy: " selected" or "", with the
      leading space, after the "grid_row " and "checkbox " that already end
      in one. */
  function SelectedClass(sel: bool): string {
    if sel then " selected" else ""
  }

  /** `k.to_s << '="' << escape_once(v.to_s) << '" '` */
  function AttrText(kv: (string, Value), env: Env): string {
    kv.0 + "=\"" + env.escapeOnce(ToS(kv.1)) + "\" "
  }

  function AttrsText(attrs: Attrs.Hash<Value>, env: Env): string {
    if |attrs| == 0 then "" else AttrsText(attrs[..|attrs| - 1], env) + AttrText(attrs[|attrs| - 1], env)
  }

  function BodyText(b: CellBody, env: Env): string {
    match b
    case Checkbox(sel) => "<span class=\"checkbox " + SelectedClass(sel) + "\"></span>"
    case EditLink(_, _) => env.render(FallbackLink(b))
    case DestroyLink(_, _) => env.render(FallbackLink(b))
    case Content(v) => ToS(v)
  }

  function CellText(cell: Cell, env: Env): string {
    "<td " + AttrsText(cell.attrs, env) + ">" + ("<div class=\"cell\">" + BodyText(cell.body, env) + "</div></td>")
  }

  function CellsText(cells: seq<Cell>, env: Env): string {
    if |cells| == 0 then "" else CellsText(cells[..|cells| - 1], env) + CellText(cells[|cells| - 1], env)
  }

  /** The opening `tr`. The row title follows the id's closing quote with no
      space between them. */
  function RowHead(row: Row): string {
    "<tr class=\"grid_row " + SelectedClass(row.selected) + "\" data-id=\"" + row.id + "\"" +
    (if row.title.Some? then "data-row_title=\"" + row.title.value + "\"" else "") + ">"
  }

  function RowText(row: Row, env: Env): string {
    RowHead(row) + CellsText(row.cells, env) + "</tr>"
  }

  function CellTextOf(g: Grid, env: Env, e: Entity, c: Column): Result<string> {
    var cell :- CellOf(g, env, e, c);
    Ok(CellText(cell, env))
  }

  function CellsTextOf(g: Grid, env: Env, e: Entity): Result<string> {
    var cells :- Traverse(g.columns, CellStep(g, env, e));
    Ok(CellsText(cells, env))
  }

  /** What `string_concat_row` returns for the entity at row position `i`. */
  function RowTextOf(g: Grid, env: Env, i: nat, e: Entity): Result<string> {
    var row :- RowOf(g, env, i, e);
    Ok(RowText(row, env))
  }

  lemma Append3(a: string, b: string, c: string)
    ensures a + b + c == a + (b + c)
  {
  }

  /** The attribute loop of a `td`: each attribute is appended after the
      `<td `, in hash order, each followed by its space. */
  method OpenTd(cellAttributes: Attrs.Hash<Value>, env: Env) returns (html: string)
    ensures html == "<td " + AttrsText(cellAttributes, env)
  {
    html := "<td ";
    var k := 0;
    while k < |cellAttributes|
      invariant 0 <= k <= |cellAttributes|
      invariant html == "<td " + AttrsText(cellAttributes[..k], env)
    {
      var (key, v) := cellAttributes[k];
      assert cellAttributes[..k + 1][..k] == cellAttributes[..k];
      Append3("<td ", AttrsText(cellAttributes[..k], env), AttrText(cellAttributes[k], env));
      html := html + (key + "=\"" + env.escapeOnce(ToS(v)) + "\" ");
      k := k + 1;
    }
    assert cellAttributes[..k] == cellAttributes;
  }

  /** The `td` of one column. */
  method StringConcatCell(g: Grid, env: Env, e: Entity, c: Column) returns (r: Result<string>)
    ensures r == CellTextOf(g, env, e, c)
  {
    var data := BodyCellDataOptions(c, e, env);
    if data.Err? {
      return Err(data.error);
    }
    var cellAttributes := Attrs.Update(c.bodyCellOptions, data.value);
    var html := OpenTd(cellAttributes, env);
    html := html + ">";
    ghost var open := html;
    var body := "<div class=\"cell\">";
    ghost var cellBody: CellBody;
    match c.kind {
      case Select =>
        cellBody := Checkbox(g.selected(e));
        body := body + ("<span class=\"checkbox " + SelectedClass(g.selected(e)) + "\"></span>");
      case Edit =>
        var content := ExtractColumnContent(c, e, false, env);
        if content.Err? {
          return Err(content.error);
        }
        if content.value.Nil? {
          var url := ResolveUrl(c, e);
          cellBody := EditLink(url, c.linkToOptions);
          body := body + env.render(Link(url, c.linkToOptions, [Image(BlankGif)]));
        } else {
          cellBody := Content(content.value);
          body := body + ToS(content.value);
        }
      case Destroy =>
        var content := ExtractColumnContent(c, e, false, env);
        if content.Err? {
          return Err(content.error);
        }
        if content.value.Nil? {
          var url := ResolveUrl(c, e);
          cellBody := DestroyLink(url, c.linkToOptions);
          body := body + env.render(Link(Str("javascript:;"), Attrs.Update([("data-url", url)], c.linkToOptions), [Image(BlankGif)]));
        } else {
          cellBody := Content(content.value);
          body := body + ToS(content.value);
        }
      case Plain =>
        var content := ExtractColumnContent(c, e, true, env);
        if content.Err? {
          return Err(content.error);
        }
        cellBody := Content(content.value);
        var cellContent := ToS(content.value);
        body := body + cellContent;  // the `unless cell_content.nil?` guard cannot fire on a String
    }
    body := body + "</div></td>";
    assert CellOf(g, env, e, c) == Ok(Cell(cellAttributes, cellBody));
    assert body == "<div class=\"cell\">" + BodyText(cellBody, env) + "</div></td>";
    r := Ok(html + body);
  }

  lemma CellsTextSnoc(html0: string, cells: seq<Cell>, cell: Cell, env: Env)
    ensures html0 + CellsText(cells + [cell], env) == html0 + CellsText(cells, env) + CellText(cell, env)
  {
    assert (cells + [cell])[..|cells|] == cells;
    Append3(html0, CellsText(cells, env), CellText(cell, env));
  }

  /** The column loop of a row: appends a `td` to `html` for each column in
      view, in declared order. */
  method AppendCells(g: Grid, env: Env, e: Entity, html0: string) returns (r: Result<string>)
    ensures CellsTextOf(g, env, e).Err? ==> r == Err(CellsTextOf(g, env, e).error)
    ensures CellsTextOf(g, env, e).Ok? ==> r == Ok(html0 + CellsTextOf(g, env, e).value)
  {
    ghost var rs := CellResultsOf(g, env, e);
    r := AppendCellsLoop(g, env, e, html0, rs);
  }

  /** The column loop, stated on the step result of each column. */
  method AppendCellsLoop(g: Grid, env: Env, e: Entity, html0: string, ghost rs: seq<Result<Option<Cell>>>)
    returns (r: Result<string>)
    requires CellResults(g, env, e, rs)
    ensures Collect(rs).Err? ==> r == Err(Collect(rs).error)
    ensures Collect(rs).Ok? ==> r == Ok(html0 + CellsText(Collect(rs).value, env))
  {
    var html := html0;
    ghost var cells: seq<Cell> := [];
    var j := 0;
    while j < |g.columns|
      invariant 0 <= j <= |g.columns|
      invariant Collect(rs[..j]) == Ok(cells)
      invariant html == html0 + CellsText(cells, env)
    {
      CollectStep(rs, j, cells);
      if !InView(g.columns[j], g.activeView) {
        j := j + 1;
        continue;
      }
      var td := StringConcatCellAt(g, env, e, j, rs);
      if td.Err? {
        return Err(td.error);
      }
      ghost var cell := rs[j].value.value;
      CellsTextSnoc(html0, cells, cell, env);
      html := html + td.value;
      cells := cells + [cell];
      j := j + 1;
    }
    assert rs[..j] == rs;
    r := Ok(html);
  }

  /** The `td` of column `j`, stated on its step result. */
  method StringConcatCellAt(g: Grid, env: Env, e: Entity, j: nat, ghost rs: seq<Result<Option<Cell>>>)
    returns (r: Result<string>)
    requires j < |g.columns| && InView(g.columns[j], g.activeView) && CellResults(g, env, e, rs)
    ensures rs[j].Err? ==> r == Err(rs[j].error)
    ensures rs[j].Ok? ==> rs[j].value.Some? && r == Ok(CellText(rs[j].value.value, env))
  {
    r := StringConcatCell(g, env, e, g.columns[j]);
  }

  /** `string_concat_row` */
  method StringConcatRow(g: Grid, env: Env, i: nat, e: Entity) returns (r: Result<string>)
    ensures r == RowTextOf(g, env, i, e)
  {
    var entitySelectedClass := SelectedClass(g.selected(e));
    var title := RowTitle(g, e);
    var rowTitle := if title.Some? then "data-row_title=\"" + title.value + "\"" else "";
    var id := ExtractEntityId(e, env.token(i));
    var html := "<tr class=\"grid_row " + entitySelectedClass + "\" data-id=\"" + id + "\"" + rowTitle + ">";
    assert html == RowHead(Row(g.selected(e), id, title, []));
    var withCells := AppendCells(g, env, e, html);
    if withCells.Err? {
      return Err(withCells.error);
    }
    ghost var row := RowOf(g, env, i, e).value;
    assert row == Row(g.selected(e), id, title, row.cells);
    assert RowHead(row) == RowHead(Row(g.selected(e), id, title, []));
    r := Ok(withCells.value + "</tr>");
  }

  /** The `Rails.cache` store, as far as `fetch` uses it. */
  class RowCache {
    var entries: map<string, string>

    constructor (entries0: map<string, string>)
      ensures entries == entries0
    {
      entries := entries0;
    }

    /** The write `fetch` makes after computing a missing entry. */
    method Write(key: string, html: string)
      modifies this
      ensures entries == old(entries)[key := html]
    {
      entries := entries[key := html];
    }
  }

  /** `aggregated_data_config`: the data and the block that folds an entity
      into it. */
  class AggregatedData {
    var data: AggData
    /** The aggregator block; `None` when the grid has no aggregated data
        configured (the config is not `present?`). */
    const aggregator: Option<(Entity, AggData) -> AggData>

    constructor (data0: AggData, aggregator: Option<(Entity, AggData) -> AggData>)
      ensures data == data0 && this.aggregator == aggregator
    {
      data := data0;
      this.aggregator := aggregator;
    }

    /** `aggregator_block.call(entity, data)`, which updates `data` in place. */
    method Call(e: Entity)
      requires aggregator.Some?
      modifies this
      ensures data == aggregator.value(e, old(data))
    {
      data := aggregator.value(e, data);
    }
  }

  /** What `table_rows_string_concat` loops over: the entities, the cache key
      Proc, the html `string_concat_row` gives for the entity at each row
      position (or the error it raises), and the aggregator block, if any. */
  datatype RowsLoop = RowsLoop(
    rows: seq<Entity>,
    key: Option<Entity -> string>,
    rendered: seq<Result<string>>,
    agg: Option<(Entity, AggData) -> AggData>)

  /** The state of the loop after a prefix of the rows: the row Strings so
      far (or the error that ended the loop), the cache entries and the
      aggregated data. */
  datatype Run = Run(out: Result<seq<string>>, cache: map<string, string>, data: AggData)

  /** The loop `table_rows_string_concat` runs over the grid's rows, each
      row rendered by `string_concat_row` at its own position. */
  function LoopOf(g: Grid, env: Env, agg: Option<(Entity, AggData) -> AggData>): (l: RowsLoop)
    ensures |l.rendered| == |l.rows|
  {
    RowsLoop(g.rows, g.cacheKey, seq(|g.rows|, k requires 0 <= k < |g.rows| => RowTextOf(g, env, k, g.rows[k])), agg)
  }

  function Aggregate(agg: Option<(Entity, AggData) -> AggData>, e: Entity, data: AggData): AggData {
    if agg.Some? then agg.value(e, data) else data
  }

  /** The aggregator folded over `es`, in order. */
  function FoldAgg(agg: Option<(Entity, AggData) -> AggData>, data: AggData, es: seq<Entity>): AggData {
    if |es| == 0 then data else Aggregate(agg, es[|es| - 1], FoldAgg(agg, data, es[..|es| - 1]))
  }

  /** The html of entity `e` and the cache after it, where `rendered` is what
      rendering the row gives: without a cache key the row is rendered; with
      one, a present entry is returned as it is and a missing one is rendered
      and stored (unless rendering raises). */
  function Fetch(key: Option<Entity -> string>, rendered: Result<string>,
                 e: Entity, cache: map<string, string>): (Result<string>, map<string, string>) {
    if key.None? then (rendered, cache)
    else if key.value(e) in cache then (Ok(cache[key.value(e)]), cache)
    else
      match rendered
      case Err(err) => (Err(err), cache)
      case Ok(html) => (Ok(html), cache[key.value(e) := html])
  }

  /** One iteration of the loop, for the entity at row position `i`: the
      aggregator runs first, then the row is fetched. A run that has already
      failed stays as it is. */
  function ConcatStep(l: RowsLoop, i: nat, prev: Run): Run
    requires i < |l.rows| == |l.rendered|
  {
    if prev.out.Err? then prev
    else
      var data := Aggregate(l.agg, l.rows[i], prev.data);
      var fetched := Fetch(l.key, l.rendered[i], l.rows[i], prev.cache);
      match fetched.0
      case Err(err) => Run(Err(err), fetched.1, data)
      case Ok(h) => Run(Ok(prev.out.value + [h]), fetched.1, data)
  }

  /** The loop over the first `n` rows. */
  function ConcatRun(l: RowsLoop, cache0: map<string, string>, data0: AggData, n: nat): Run
    requires n <= |l.rows| == |l.rendered|
  {
    if n == 0 then Run(Ok([]), cache0, data0)
    else ConcatStep(l, n - 1, ConcatRun(l, cache0, data0, n - 1))
  }

  /** The states of the loop after 0, 1, ..., `n` rows. */
  function Runs(l: RowsLoop, cache0: map<string, string>, data0: AggData, n: nat): (rs: seq<Run>)
    requires n <= |l.rows| == |l.rendered|
    ensures |rs| == n + 1 && rs[0] == Run(Ok([]), cache0, data0)
  {
    if n == 0 then [Run(Ok([]), cache0, data0)]
    else
      var prev := Runs(l, cache0, data0, n - 1);
      prev + [ConcatStep(l, n - 1, prev[n - 1])]
  }

  lemma {:induction false} RunsAt(l: RowsLoop, cache0: map<string, string>, data0: AggData, n: nat, k: nat)
    requires k <= n <= |l.rows| == |l.rendered|
    ensures Runs(l, cache0, data0, n)[k] == ConcatRun(l, cache0, data0, k)
  {
    if k < n {
      RunsAt(l, cache0, data0, n - 1, k);
    } else if n > 0 {
      RunsAt(l, cache0, data0, n - 1, n - 1);
    }
  }

  /** `buffer << html` for each row String. */
  function Pieces(htmls: seq<string>): seq<Node> {
    if |htmls| == 0 then [] else Pieces(htmls[..|htmls| - 1]) + [Text(htmls[|htmls| - 1])]
  }

  /** Each row String is appended as escaped text, in order. */
  lemma {:induction false} PiecesAt(htmls: seq<string>)
    ensures |Pieces(htmls)| == |htmls|
    ensures forall k :: 0 <= k < |htmls| ==> Pieces(htmls)[k] == Text(htmls[k])
  {
    if |htmls| > 0 {
      PiecesAt(htmls[..|htmls| - 1]);
    }
  }

  function Output(run: Run): Result<seq<Node>> {
    var htmls :- run.out;
    Ok(Pieces(htmls))
  }

  /** The row html of the loop body: `Rails.cache.fetch(key) { ... }` when the
      grid has a cache key, `string_concat_row` otherwise. */
  method FetchRow(g: Grid, env: Env, i: nat, e: Entity, cache: RowCache) returns (r: Result<string>)
    modifies cache
    ensures (r, cache.entries) == Fetch(g.cacheKey, RowTextOf(g, env, i, e), e, old(cache.entries))
  {
    if g.cacheKey.Some? {
      var key := g.cacheKey.value(e);
      if key in cache.entries {
        r := Ok(cache.entries[key]);
      } else {
        r := StringConcatRow(g, env, i, e);
        if r.Ok? {
          cache.Write(key, r.value);
        }
      }
    } else {
      r := StringConcatRow(g, env, i, e);
    }
  }

  /** `table_rows_string_concat`, with the cache and the aggregated data as
      the objects it updates. */
  method TableRowsStringConcat(g: Grid, env: Env, cache: RowCache, agg: AggregatedData) returns (r: Result<seq<Node>>)
    modifies cache, agg
    ensures var run := ConcatRun(LoopOf(g, env, agg.aggregator), old(cache.entries), old(agg.data), |g.rows|);
      r == Output(run) && cache.entries == run.cache && agg.data == run.data
  {
    ghost var l := LoopOf(g, env, agg.aggregator);
    ghost var cache0 := cache.entries;
    ghost var data0 := agg.data;
    r := ConcatRows(g, env, cache, agg, l);
    RunsAt(l, cache0, data0, |g.rows|, |g.rows|);
  }

  /** The rows loop of `table_rows_string_concat`, stated on what rendering
      each row gives. */
  method ConcatRows(g: Grid, env: Env, cache: RowCache, agg: AggregatedData, ghost l: RowsLoop)
    returns (r: Result<seq<Node>>)
    requires l.rows == g.rows && l.key == g.cacheKey && l.agg == agg.aggregator && |l.rendered| == |g.rows|
    requires forall k {:trigger RowTextOf(g, env, k, g.rows[k])} ::
      0 <= k < |g.rows| ==> l.rendered[k] == RowTextOf(g, env, k, g.rows[k])
    modifies cache, agg
    ensures var run := Runs(l, old(cache.entries), old(agg.data), |g.rows|)[|g.rows|];
      r == Output(run) && cache.entries == run.cache && agg.data == run.data
  {
    ghost var runs := Runs(l, cache.entries, agg.data, |g.rows|);
    ghost var data := agg.data;
    var buffer: seq<Node> := [];
    ghost var htmls: seq<string> := [];
    var i := 0;
    while i < |g.rows|
      invariant 0 <= i <= |g.rows|
      invariant runs[i] == Run(Ok(htmls), cache.entries, data)
      invariant agg.data == data
      invariant buffer == Pieces(htmls)
    {
      var html;
      html, data := ConcatIteration(g, env, cache, agg, i, l, runs);
      if html.Err? {
        return Err(html.error);
      }
      assert (htmls + [html.value])[..|htmls|] == htmls;
      htmls := htmls + [html.value];
      buffer := buffer + [Piece(Str(html.value))];
      i := i + 1;
    }
    r := Ok(buffer);
  }

  /** The body of the rows loop for the entity at row position `i`: the
      aggregator call, then the fetch. */
  method ConcatIteration(g: Grid, env: Env, cache: RowCache, agg: AggregatedData, i: nat,
                         ghost l: RowsLoop, ghost runs: seq<Run>)
    returns (html: Result<string>, ghost data: AggData)
    requires i < |g.rows| && l.rows == g.rows && l.key == g.cacheKey && l.agg == agg.aggregator && |l.rendered| == |g.rows|
    requires forall k {:trigger RowTextOf(g, env, k, g.rows[k])} ::
      0 <= k < |g.rows| ==> l.rendered[k] == RowTextOf(g, env, k, g.rows[k])
    requires 0 < |runs| && runs == Runs(l, runs[0].cache, runs[0].data, |g.rows|)
    requires runs[i].out.Ok? && runs[i].cache == cache.entries && runs[i].data == agg.data
    modifies cache, agg
    ensures agg.data == data
    ensures html.Err? ==> runs[|g.rows|] == Run(Err(html.error), cache.entries, data)
    ensures html.Ok? ==> runs[i + 1] == Run(Ok(runs[i].out.value + [html.value]), cache.entries, data)
  {
    var entity := g.rows[i];
    if agg.aggregator.Some? {
      agg.Call(entity);
    }
    data := agg.data;
    html := FetchRow(g, env, i, entity, cache);
    RunsNext(l, runs[0].cache, runs[0].data, i, html, cache.entries);
  }

  /** One more row of the run, in terms of what the fetch of that row gave:
      a failure is the final state of the loop. */
  lemma RunsNext(l: RowsLoop, cache0: map<string, string>, data0: AggData, i: nat,
                 html: Result<string>, cache: map<string, string>)
    requires i < |l.rows| == |l.rendered| && Runs(l, cache0, data0, |l.rows|)[i].out.Ok?
    requires (html, cache) == Fetch(l.key, l.rendered[i], l.rows[i], Runs(l, cache0, data0, |l.rows|)[i].cache)
    ensures var runs := Runs(l, cache0, data0, |l.rows|);
      var data := Aggregate(l.agg, l.rows[i], runs[i].data);
      (html.Err? ==> runs[|l.rows|] == Run(Err(html.error), cache, data)) &&
      (html.Ok? ==> runs[i + 1] == Run(Ok(runs[i].out.value + [html.value]), cache, data))
  {
    RunsAt(l, cache0, data0, |l.rows|, i);
    RunsAt(l, cache0, data0, |l.rows|, i + 1);
    if html.Err? {
      ConcatErrSticks(l, cache0, data0, i + 1, |l.rows|);
      RunsAt(l, cache0, data0, |l.rows|, |l.rows|);
    }
  }

  /** Once a row has failed, no later row is looked at: neither the cache nor
      the aggregated data change any more. */
  lemma {:induction false} ConcatErrSticks(l: RowsLoop, cache0: map<string, string>, data0: AggData, n: nat, m: nat)
    requires n <= m <= |l.rows| == |l.rendered|
    requires ConcatRun(l, cache0, data0, n).out.Err?
    ensures ConcatRun(l, cache0, data0, m) == ConcatRun(l, cache0, data0, n)
    decreases m - n
  {
    if n < m {
      ConcatErrSticks(l, cache0, data0, n, m - 1);
    }
  }
}

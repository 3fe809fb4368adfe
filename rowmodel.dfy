/** What every row strategy decides for one entity before it writes any
    markup: the row's selection, id and title, and for each column of the
    active view the cell's attributes and what the cell shows. The strategies
    (content_tag, string_plus, string_concat) differ only in how they print a
    `Row`. */
module RowModel {
  import opened Prelude
  import opened Values
  import opened Columns
  import opened Config
  import opened Resolver
  import opened Html
  import Attrs

  const BlankGif: string := "/images/blank.gif"

  datatype CellBody =
    | Checkbox(selected: bool)                                      // a select column
    | EditLink(url: Value, linkOptions: Attrs.Hash<Value>)          // an edit column's fallback link
    | DestroyLink(url: Value, linkOptions: Attrs.Hash<Value>)       // a destroy column's fallback link
    | Content(v: Value)                                             // the resolved value, printed with to_s

  datatype Cell = Cell(attrs: Attrs.Hash<Value>, body: CellBody)

  datatype Row = Row(selected: bool, id: string, title: Option<string>, cells: seq<Cell>)

  /** What a cell of column `c` shows for entity `e`. */
  function CellBodyOf(g: Grid, env: Env, e: Entity, c: Column): Result<CellBody> {
    match c.kind
    case Select => Ok(Checkbox(g.selected(e)))
    case Edit =>
      var v :- ExtractColumnContent(c, e, false, env);
      Ok(if v.Nil? then EditLink(ResolveUrl(c, e), c.linkToOptions) else Content(v))
    case Destroy =>
      var v :- ExtractColumnContent(c, e, false, env);
      Ok(if v.Nil? then DestroyLink(ResolveUrl(c, e), c.linkToOptions) else Content(v))
    case Plain =>
      var v :- ExtractColumnContent(c, e, true, env);
      Ok(Content(v))
  }

  /** Select cells show the row's checkbox; edit and destroy cells resolve
      without raising on a missing source and fall back to their link exactly
      when the resolved content is nil; plain cells resolve strictly and show
      the value. */
  lemma CellBodyMeaning(g: Grid, env: Env, e: Entity, c: Column)
    ensures c.kind == Select ==> CellBodyOf(g, env, e, c) == Ok(Checkbox(g.selected(e)))
    ensures c.kind == Plain ==>
      match ExtractColumnContent(c, e, true, env)
      case Err(err) => CellBodyOf(g, env, e, c) == Err(err)
      case Ok(v) => CellBodyOf(g, env, e, c) == Ok(Content(v))
    ensures (c.kind == Edit || c.kind == Destroy) ==>
      match ExtractColumnContent(c, e, false, env)
      case Err(err) => CellBodyOf(g, env, e, c) == Err(err)
      case Ok(v) =>
        var r := CellBodyOf(g, env, e, c);
        r.Ok? && (r.value.Content? <==> !v.Nil?) && (r.value.Content? ==> r.value.v == v)
    ensures CellBodyOf(g, env, e, c).Ok? && CellBodyOf(g, env, e, c).value.EditLink? ==>
      c.kind == Edit && CellBodyOf(g, env, e, c).value == EditLink(ResolveUrl(c, e), c.linkToOptions)
    ensures CellBodyOf(g, env, e, c).Ok? && CellBodyOf(g, env, e, c).value.DestroyLink? ==>
      c.kind == Destroy && CellBodyOf(g, env, e, c).value == DestroyLink(ResolveUrl(c, e), c.linkToOptions)
  {
  }

  /** Edit and destroy cells never fail for want of a value source: only a
      binding path that cannot be followed makes them raise. A plain cell with
      no source raises the misconfiguration error naming the column. */
  lemma CellErrors(g: Grid, env: Env, e: Entity, c: Column)
    ensures (c.kind == Edit || c.kind == Destroy) && CellBodyOf(g, env, e, c).Err? ==>
      c.block.None? && Present(c.bindingPath) &&
      (CellBodyOf(g, env, e, c).error.NotResponding? || CellBodyOf(g, env, e, c).error.UnknownPath?)
    ensures c.kind == Plain && c.block.None? && !Present(c.bindingPath) ==>
      CellBodyOf(g, env, e, c) == Err(MissingSource(ToS(c.title)))
    ensures c.kind == Select ==> CellBodyOf(g, env, e, c).Ok?
  {
  }

  /** The link `link_to(image_tag('/images/blank.gif'), ...)` a fallback cell
      shows: an edit link targets its url; a destroy link targets
      'javascript:;' and carries the url as `data-url`, which the column's
      link options may override. */
  function FallbackLink(b: CellBody): (n: Node)
    requires b.EditLink? || b.DestroyLink?
    ensures n.Link? && n.kids == [Image(BlankGif)]
    ensures b.EditLink? ==> n.url == b.url && n.attrs == b.linkOptions
    ensures b.DestroyLink? ==> n.url == Str("javascript:;")
    ensures b.DestroyLink? ==>
      Attrs.Get(n.attrs, "data-url") == (if Attrs.LastValue(b.linkOptions, "data-url").Some?
                                         then Attrs.LastValue(b.linkOptions, "data-url") else Some(b.url))
  {
    if b.EditLink? then Link(b.url, b.linkOptions, [Image(BlankGif)])
    else Link(Str("javascript:;"), Attrs.Update([("data-url", b.url)], b.linkOptions), [Image(BlankGif)])
  }

  /** One cell: its attributes are the column's body cell options updated
      with the resolved data attributes (resolved first: a failing data
      attribute aborts before the content is looked at). */
  function CellOf(g: Grid, env: Env, e: Entity, c: Column): Result<Cell> {
    var data :- DataOptions(c, e, env);
    var body :- CellBodyOf(g, env, e, c);
    Ok(Cell(Attrs.Update(c.bodyCellOptions, data), body))
  }

  /** The column step of every row loop: a column outside the active view
      contributes nothing. */
  function CellStep(g: Grid, env: Env, e: Entity): (nat, Column) -> Result<Option<Cell>> {
    (_: nat, c: Column) => if InView(c, g.activeView) then Lift(CellOf(g, env, e, c)) else Ok(None)
  }

  /** The row for the entity at row position `i`. */
  function RowOf(g: Grid, env: Env, i: nat, e: Entity): Result<Row> {
    var cells :- Traverse(g.columns, CellStep(g, env, e));
    Ok(Row(g.selected(e), ExtractEntityId(e, env.token(i)), RowTitle(g, e), cells))
  }

  function RowStep(g: Grid, env: Env): (nat, Entity) -> Result<Option<Row>> {
    (i: nat, e: Entity) => Lift(RowOf(g, env, i, e))
  }

  /** The rows of the grid, or the first error any of them raises. */
  function RowsOf(g: Grid, env: Env): Result<seq<Row>> {
    Traverse(g.rows, RowStep(g, env))
  }

  /** `rs` holds the step result of each column of the row of entity `e`:
      nothing for a column out of view, the cell (or its error) for any other.
      The cells are reached only through `CellOf` terms of the columns. */
  ghost predicate CellResults(g: Grid, env: Env, e: Entity, rs: seq<Result<Option<Cell>>>) {
    |rs| == |g.columns| &&
    (forall k :: 0 <= k < |rs| && !InView(g.columns[k], g.activeView) ==> rs[k] == Ok(None)) &&
    (forall k {:trigger CellOf(g, env, e, g.columns[k])} ::
       0 <= k < |rs| && InView(g.columns[k], g.activeView) ==> rs[k] == Lift(CellOf(g, env, e, g.columns[k])))
  }

  lemma CellResultsOf(g: Grid, env: Env, e: Entity) returns (rs: seq<Result<Option<Cell>>>)
    ensures CellResults(g, env, e, rs) && Traverse(g.columns, CellStep(g, env, e)) == Collect(rs)
  {
    rs := seq(|g.columns|, k requires 0 <= k < |g.columns| => CellStep(g, env, e)(k, g.columns[k]));
    TraverseIsCollect(g.columns, CellStep(g, env, e), rs);
  }

  /** `rs` holds the row (or the error) of each entity, by row position. */
  ghost predicate RowResults(g: Grid, env: Env, rs: seq<Result<Option<Row>>>) {
    |rs| == |g.rows| &&
    forall k {:trigger RowOf(g, env, k, g.rows[k])} ::
      0 <= k < |rs| ==> rs[k] == Lift(RowOf(g, env, k, g.rows[k]))
  }

  lemma RowResultsOf(g: Grid, env: Env) returns (rs: seq<Result<Option<Row>>>)
    ensures RowResults(g, env, rs) && RowsOf(g, env) == Collect(rs)
  {
    rs := seq(|g.rows|, k requires 0 <= k < |g.rows| => RowStep(g, env)(k, g.rows[k]));
    TraverseIsCollect(g.rows, RowStep(g, env), rs);
  }

  /** A row has one cell per column of the active view, in declared order, and
      no cell for any other column. */
  lemma RowCellsFollowVisibleColumns(g: Grid, env: Env, i: nat, e: Entity)
    requires RowOf(g, env, i, e).Ok?
    ensures |RowOf(g, env, i, e).value.cells| == |Visible(g.columns, g.activeView)|
    ensures forall k :: 0 <= k < |Visible(g.columns, g.activeView)| ==>
      CellOf(g, env, e, Visible(g.columns, g.activeView)[k]) == Ok(RowOf(g, env, i, e).value.cells[k])
  {
    TraverseVisible(g.columns, g.activeView, CellStep(g, env, e), c => CellOf(g, env, e, c));
  }

  /** Row identity: the selected flag comes from the model, the id is the
      entity's own id or a "rand_" token, and a row title is there exactly
      when the grid has a row title Proc, as the `to_s` of what the Proc
      returns for the entity. */
  lemma RowIdentity(g: Grid, env: Env, i: nat, e: Entity)
    requires RowOf(g, env, i, e).Ok?
    ensures RowOf(g, env, i, e).value.selected == g.selected(e)
    ensures "id" in e.methods ==> RowOf(g, env, i, e).value.id == ToS(e.methods["id"])
    ensures "id" !in e.methods ==> RowOf(g, env, i, e).value.id == "rand_" + env.token(i)
    ensures RowOf(g, env, i, e).value.title.Some? <==> g.rowTitle.Some?
    ensures g.rowTitle.Some? ==> RowOf(g, env, i, e).value.title == Some(ToS(g.rowTitle.value(e)))
  {
  }

  /** The grid renders one row per entity, in order, or not at all: it fails
      exactly when some entity has a cell that fails. */
  lemma RowsOfMeaning(g: Grid, env: Env)
    ensures RowsOf(g, env).Ok? <==> forall i :: 0 <= i < |g.rows| ==> RowOf(g, env, i, g.rows[i]).Ok?
    ensures RowsOf(g, env).Ok? ==> |RowsOf(g, env).value| == |g.rows|
    ensures RowsOf(g, env).Ok? ==>
      forall i :: 0 <= i < |g.rows| ==> RowOf(g, env, i, g.rows[i]) == Ok(RowsOf(g, env).value[i])
  {
    var f := RowStep(g, env);
    TraverseOkIff(g.rows, f);
    if RowsOf(g, env).Ok? {
      TraverseTotal(g.rows, f);
    }
  }
}

/** The `thead` of `table_layout`: one `th` per column of the active view,
    with the sort decoration of the sorted column. */
module Header {
  import opened Prelude
  import opened Values
  import opened Columns
  import opened Config
  import opened Html
  import opened RowModel
  import Attrs

  /** The header of a column that is neither a select nor a destroy column,
      when the model is sorted and the column's `sort_by.to_s` is the model's
      `sort_by` (a String compared with `==`). */
  predicate SortDecorated(g: Grid, c: Column) {
    !(c.kind == Select || c.kind == Destroy) && g.hasSort && IsString(g.sortBy) && ToS(c.sortBy) == ToS(g.sortBy)
  }

  /** The direction of the next click: "desc" after "asc", "asc" after
      anything else. */
  function Flip(dir: Value): string {
    if IsString(dir) && ToS(dir) == "asc" then "desc" else "asc"
  }

  /** `v << s` on a String option: a SafeBuffer escapes what it is given. */
  function AppendText(v: Value, s: string, env: Env): (r: Value)
    requires IsString(v)
  {
    if v.Safe? then Safe(v.s + env.htmlEscape(s)) else Str(v.s + s)
  }

  /** The options of the `th`: the column's header cell options, with the
      current direction added to the class and the flipped direction as
      `data-sort-direction` on the sorted column. Appending to a class option
      that is not a String raises. */
  function HeaderOptions(g: Grid, env: Env, c: Column): Result<Attrs.Hash<Value>> {
    if !SortDecorated(g, c) then Ok(c.headerCellOptions)
    else
      var cls := Attrs.Get(c.headerCellOptions, "class");
      if cls.None? || !IsString(cls.value) then Err(ClassNotAppendable(ToS(c.title)))
      else
        var opts := Attrs.Put(c.headerCellOptions, "class", AppendText(cls.value, " " + ToS(g.sortDirection), env));
        Ok(Attrs.Put(opts, "data-sort-direction", Str(Flip(g.sortDirection))))
  }

  /** What the `div.cell` of a `th` holds: the select-all checkbox of a select
      column, the title of any other (with its subtitle when it has a non-blank
      one), then the tooltip contents of a column with a qtip. */
  function HeaderContent(g: Grid, c: Column): seq<Node> {
    (if c.kind == Select then
       [Elem("span", ClassAttr("checkbox" + (if g.selectionAll then " selected" else "")), [Text("")])]
     else
       [Elem("div", ClassAttr("maintitle" + (if Blank(c.subTitle) then "" else " with_subtitle")), [Piece(c.title)])] +
       (if Blank(c.subTitle) then [] else [Elem("div", ClassAttr("subtitle"), [Piece(c.subTitle)])])) +
    (if c.hasQtip then [Elem("div", ClassAttr("tooltipContents"), [Piece(c.qtip)])] else [])
  }

  function HeaderCell(g: Grid, env: Env, c: Column): Result<Node> {
    var opts :- HeaderOptions(g, env, c);
    Ok(Elem("th", opts, [Elem("div", ClassAttr("cell"), HeaderContent(g, c))]))
  }

  /** The column step of the header loop: a column outside the active view
      has no `th`. */
  function HeaderStep(g: Grid, env: Env): (nat, Column) -> Result<Option<Node>> {
    (_: nat, c: Column) => if InView(c, g.activeView) then Lift(HeaderCell(g, env, c)) else Ok(None)
  }

  /** The `th`s of the header row, or the error of the first that raises. */
  function HeaderCells(g: Grid, env: Env): Result<seq<Node>> {
    Traverse(g.columns, HeaderStep(g, env))
  }

  /** The sort decoration: only the sorted column is decorated; its class
      gains the current direction and `data-sort-direction` is the flipped
      direction, every other option staying as it was; it raises exactly when
      its class option is missing or not a String. */
  lemma HeaderSortDecoration(g: Grid, env: Env, c: Column)
    ensures !SortDecorated(g, c) ==> HeaderOptions(g, env, c) == Ok(c.headerCellOptions)
    ensures SortDecorated(g, c) ==>
      var cls := Attrs.Get(c.headerCellOptions, "class");
      (HeaderOptions(g, env, c).Err? <==> cls.None? || !IsString(cls.value)) &&
      (HeaderOptions(g, env, c).Err? ==> HeaderOptions(g, env, c).error == ClassNotAppendable(ToS(c.title)))
    ensures SortDecorated(g, c) && HeaderOptions(g, env, c).Ok? ==>
      var opts := HeaderOptions(g, env, c).value;
      var cls := Attrs.Get(c.headerCellOptions, "class").value;
      var sfx := " " + ToS(g.sortDirection);
      Attrs.Get(opts, "data-sort-direction") == Some(Str(Flip(g.sortDirection))) &&
      Attrs.Get(opts, "class").Some? && Attrs.Get(opts, "class").value.Safe? == cls.Safe? &&
      ToS(Attrs.Get(opts, "class").value) == ToS(cls) + (if cls.Safe? then env.htmlEscape(sfx) else sfx) &&
      forall k :: k != "class" && k != "data-sort-direction" ==> Attrs.Get(opts, k) == Attrs.Get(c.headerCellOptions, k)
  {
    var cls := Attrs.Get(c.headerCellOptions, "class");
    if SortDecorated(g, c) && cls.Some? && IsString(cls.value) {
      var decorated := Attrs.Put(c.headerCellOptions, "class", AppendText(cls.value, " " + ToS(g.sortDirection), env));
      var opts := Attrs.Put(decorated, "data-sort-direction", Str(Flip(g.sortDirection)));
      assert HeaderOptions(g, env, c) == Ok(opts);
      assert Attrs.Get(opts, "class") == Some(AppendText(cls.value, " " + ToS(g.sortDirection), env));
    }
  }

  /** Clicking a sorted header toggles between the two directions. */
  lemma FlipToggles(dir: Value)
    ensures Flip(dir) == "asc" || Flip(dir) == "desc"
    ensures Flip(Str(Flip(dir))) == (if Flip(dir) == "desc" then "asc" else "desc")
    ensures IsString(dir) && ToS(dir) == "asc" ==> Flip(dir) == "desc"
    ensures IsString(dir) && ToS(dir) == "desc" ==> Flip(dir) == "asc"
  {
  }

  /** One `th` of the header loop. The header cell options are taken from
      the column and decorated in place on the sorted column. */
  method HeaderTh(g: Grid, env: Env, c: Column) returns (r: Result<Node>)
    ensures r == HeaderCell(g, env, c)
  {
    var headerCellOptions := c.headerCellOptions;
    if !(c.kind == Select || c.kind == Destroy) {
      if g.hasSort && IsString(g.sortBy) && ToS(c.sortBy) == ToS(g.sortBy) {
        var cls := Attrs.Get(headerCellOptions, "class");
        if cls.None? || !IsString(cls.value) {
          return Err(ClassNotAppendable(ToS(c.title)));
        }
        headerCellOptions := Attrs.Put(headerCellOptions, "class", AppendText(cls.value, " " + ToS(g.sortDirection), env));
        var direction := if IsString(g.sortDirection) && ToS(g.sortDirection) == "asc" then "desc" else "asc";
        headerCellOptions := Attrs.Put(headerCellOptions, "data-sort-direction", Str(direction));
      }
    }
    var cellBuffer: seq<Node> := [];
    if c.kind == Select {
      cellBuffer := cellBuffer + [Elem("span", ClassAttr("checkbox" + (if g.selectionAll then " selected" else "")), [Text("")])];
    } else {
      cellBuffer := cellBuffer + [Elem("div", ClassAttr("maintitle" + (if Blank(c.subTitle) then "" else " with_subtitle")), [Piece(c.title)])];
      if !Blank(c.subTitle) {
        cellBuffer := cellBuffer + [Elem("div", ClassAttr("subtitle"), [Piece(c.subTitle)])];
      }
    }
    if c.hasQtip {
      cellBuffer := cellBuffer + [Elem("div", ClassAttr("tooltipContents"), [Piece(c.qtip)])];
    }
    assert cellBuffer == HeaderContent(g, c);
    assert HeaderOptions(g, env, c) == Ok(headerCellOptions);
    r := Ok(Elem("th", headerCellOptions, [Elem("div", ClassAttr("cell"), cellBuffer)]));
  }

  /** One column of the header loop, stated on the walk `HeaderCells` makes. */
  lemma HeaderLoopStep(g: Grid, env: Env, j: nat, ths: seq<Node>)
    requires j < |g.columns| && Traverse(g.columns[..j], HeaderStep(g, env)) == Ok(ths)
    ensures !InView(g.columns[j], g.activeView) ==> Traverse(g.columns[..j + 1], HeaderStep(g, env)) == Ok(ths)
    ensures InView(g.columns[j], g.activeView) && HeaderCell(g, env, g.columns[j]).Err? ==>
      HeaderCells(g, env) == Err(HeaderCell(g, env, g.columns[j]).error)
    ensures InView(g.columns[j], g.activeView) && HeaderCell(g, env, g.columns[j]).Ok? ==>
      Traverse(g.columns[..j + 1], HeaderStep(g, env)) == Ok(ths + [HeaderCell(g, env, g.columns[j]).value])
  {
    TraverseStep(g.columns, HeaderStep(g, env), j);
    if InView(g.columns[j], g.activeView) && HeaderCell(g, env, g.columns[j]).Err? {
      TraverseErrSticks(g.columns, HeaderStep(g, env), j + 1);
    }
  }

  /** The header loop: a `th` per column in view, in declared order. */
  method HeaderRow(g: Grid, env: Env) returns (r: Result<seq<Node>>)
    ensures r == HeaderCells(g, env)
  {
    var theadBuffer: seq<Node> := [];
    var j := 0;
    while j < |g.columns|
      invariant 0 <= j <= |g.columns|
      invariant Traverse(g.columns[..j], HeaderStep(g, env)) == Ok(theadBuffer)
    {
      HeaderLoopStep(g, env, j, theadBuffer);
      var c := g.columns[j];
      if !InView(c, g.activeView) {
        j := j + 1;
        continue;
      }
      var th := HeaderTh(g, env, c);
      if th.Err? {
        return Err(th.error);
      }
      theadBuffer := theadBuffer + [th.value];
      j := j + 1;
    }
    assert g.columns[..j] == g.columns;
    r := Ok(theadBuffer);
  }

  /** Header and body cover the same columns: the `th`s of the header and the
      cells of any row are one per column of the active view, in declared
      order, the `k`-th of each belonging to the `k`-th visible column. */
  lemma HeaderAndBodyAlign(g: Grid, env: Env, i: nat, e: Entity)
    requires HeaderCells(g, env).Ok? && RowOf(g, env, i, e).Ok?
    ensures var ths := HeaderCells(g, env).value;
      var row := RowOf(g, env, i, e).value;
      var vis := Visible(g.columns, g.activeView);
      |ths| == |row.cells| == |vis| &&
      forall k :: 0 <= k < |ths| ==>
        HeaderCell(g, env, vis[k]) == Ok(ths[k]) && CellOf(g, env, e, vis[k]) == Ok(row.cells[k])
  {
    TraverseVisible(g.columns, g.activeView, HeaderStep(g, env), c => HeaderCell(g, env, c));
    RowCellsFollowVisibleColumns(g, env, i, e);
  }
}

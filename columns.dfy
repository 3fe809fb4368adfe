/** The column model the builder hands to the renderer. The column classes
    themselves are not part of this model: what the renderer asks of a column
    (`in_view?`, `header_cell_options`, `body_cell_options`, `url`, ...) is a
    field here. */
module Columns {
  import opened Prelude
  import opened Values
  import Attrs

  /** Which of `SelectColumn`, `EditColumn`, `DestroyColumn` a column is, or
      none of them. */
  datatype Kind = Plain | Select | Edit | Destroy

  /** What running a view block leaves behind: the markup it wrote to the
      output buffer, and the value it returned. */
  datatype Output = Output(captured: string, value: Value)

  /** A path object that is neither a String nor a Symbol (nor a Proc, which
      `Path` has a constructor of its own for): Ruby Strings and Symbols have
      exactly one encoding as a path. */
  type OtherValue = v: Value | !IsString(v) && !v.Sym? witness Nil

  /** A binding path or a data-attribute value path. A Proc is identified by
      `id` (Ruby compares Procs by identity); a nil path is `OtherPath(Nil)`. */
  datatype Path =
    | SymPath(name: string)
    | StrPath(name: string)
    | ProcPath(id: nat, call: Entity -> Value)
    | OtherPath(v: OtherValue)

  /** An edit or destroy column's `url`: a literal value or a Proc of the entity. */
  datatype Url = UrlValue(v: Value) | UrlProc(call: Entity -> Value)

  datatype Column = Column(
    kind: Kind,
    title: Value,
    subTitle: Value,
    block: Option<Entity -> Output>,
    bindingPath: Path,
    valueFormat: Value,
    dataAttributes: seq<(string, Path)>,
    escapeDataAttributes: seq<Path>,
    views: set<string>,
    sortBy: Value,
    hasQtip: bool,
    qtip: Value,
    headerCellOptions: Attrs.Hash<Value>,
    bodyCellOptions: Attrs.Hash<Value>,
    url: Url,
    linkToOptions: Attrs.Hash<Value>)

  /** `in_view?(view)`: a column with no views belongs to every view. */
  predicate InView(c: Column, view: string) {
    c.views == {} || view in c.views
  }

  /** The columns of `cols` that belong to `view`, in declared order. */
  function Visible(cols: seq<Column>, view: string): (r: seq<Column>)
    ensures |r| <= |cols|
    ensures forall k :: 0 <= k < |r| ==> InView(r[k], view)
  {
    if |cols| == 0 then []
    else Visible(cols[..|cols| - 1], view) + (if InView(cols[|cols| - 1], view) then [cols[|cols| - 1]] else [])
  }

  /** A walk that emits `spec(c)` for the columns in `view` and skips the
      others emits exactly one item per visible column, in declared order. */
  lemma {:induction false} TraverseVisible<B>(cols: seq<Column>, view: string,
                                              f: (nat, Column) -> Result<Option<B>>, spec: Column -> Result<B>)
    requires forall i: nat, c: Column :: f(i, c) == if InView(c, view) then Lift(spec(c)) else Ok(None)
    requires Traverse(cols, f).Ok?
    ensures |Traverse(cols, f).value| == |Visible(cols, view)|
    ensures forall k :: 0 <= k < |Visible(cols, view)| ==>
      spec(Visible(cols, view)[k]) == Ok(Traverse(cols, f).value[k])
  {
    if |cols| > 0 {
      var n := |cols|;
      TraverseVisible(cols[..n - 1], view, f, spec);
    }
  }

  /** `present?` of a path: a blank Symbol or String is not present, a Proc
      always is, and any other object is present unless it is blank. */
  predicate Present(p: Path) {
    match p
    case SymPath(n) => !Blank(Sym(n))
    case StrPath(n) => !Blank(Str(n))
    case ProcPath(_, _) => true
    case OtherPath(v) => !Blank(v)
  }

  /** Ruby `==` on paths, as `include?` uses it. */
  predicate SamePath(p: Path, q: Path) {
    match p
    case SymPath(n) => q.SymPath? && q.name == n
    case StrPath(n) => q.StrPath? && q.name == n
    case ProcPath(i, _) => q.ProcPath? && q.id == i
    case OtherPath(v) => q.OtherPath? && q.v == v
  }

  /** `paths.include?(p)` */
  predicate Includes(paths: seq<Path>, p: Path) {
    exists i :: 0 <= i < |paths| && SamePath(paths[i], p)
  }

  /** `p.to_s`, as interpolated into error messages. */
  function PathText(p: Path): string {
    match p
    case SymPath(n) => n
    case StrPath(n) => n
    case ProcPath(_, _) => "#<Proc>"
    case OtherPath(v) => ToS(v)
  }
}

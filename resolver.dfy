/** Resolution of one cell's value, one data attribute's value, a row's id
    and a tile's content (table_renderer.rb, `extract_column_content` and the
    functions below it). */
module Resolver {
  import opened Prelude
  import opened Values
  import opened Columns
  import opened Config
  import Attrs

  /** `AjaxDataGrid::Column.default_formats[:float]`: two decimal places. */
  const DefaultFloatFormat: string := "%.2f"

  /** Rails' `capture`, and `extract_tile_content`, which repeats it: captured
      output that is not blank wins over the block's return value; the winner
      is kept if it is markup, escaped if it is a plain String, and dropped
      (nil) if it is not a String at all. */
  function Capture(out: Output, env: Env): (r: Value)
    ensures r.Safe? || r.Nil?
    ensures !Blank(Safe(out.captured)) ==> r == Safe(out.captured)
    ensures Blank(Safe(out.captured)) ==>
      r == match out.value
           case Safe(s) => Safe(s)
           case Str(s) => Safe(env.htmlEscape(s))
           case _ => Nil
  {
    var winner := if !Blank(Safe(out.captured)) then Safe(out.captured) else out.value;
    if winner.Safe? then winner
    else if winner.Str? then Safe(env.htmlEscape(winner.s))
    else Nil
  }

  /** Output that was written decides the result whatever the block returned. */
  lemma CapturedOutputWins(captured: string, v1: Value, v2: Value, env: Env)
    requires !Blank(Safe(captured))
    ensures Capture(Output(captured, v1), env) == Capture(Output(captured, v2), env)
  {
  }

  /** The format a Float or BigDecimal of column `c` is printed with. */
  function FormatOf(c: Column): string {
    if IsString(c.valueFormat) then c.valueFormat.s else DefaultFloatFormat
  }

  /** The "parse value" step: numbers with a fractional part are formatted,
      booleans become "true"/"false", everything else is left as it is. */
  function PostProcess(c: Column, v: Value, env: Env): (r: Value)
    ensures !(r.Float? || r.Decimal? || r.Bool?)
    ensures (v.Float? || v.Decimal?) ==> r == Str(env.sprintf(FormatOf(c), v))
    ensures v.Bool? ==> r == Str(if v.b then "true" else "false")
    ensures !(v.Float? || v.Decimal? || v.Bool?) ==> r == v
  {
    if v.Float? || v.Decimal? then Str(env.sprintf(FormatOf(c), v))
    else if v.Bool? then Str(ToS(v))
    else v
  }

  /** Post-processing a value twice changes nothing more. */
  lemma PostProcessIdempotent(c: Column, v: Value, env: Env)
    ensures PostProcess(c, PostProcess(c, v, env), env) == PostProcess(c, v, env)
  {
  }

  /** `extract_entity_value`: a Symbol or String path is sent to the entity,
      which must respond to it; a Proc is called with the entity; any other
      path cannot be followed. */
  function ExtractEntityValue(e: Entity, c: Column, path: Path, env: Env): (r: Result<Value>)
    ensures r.Err? <==> (path.OtherPath? || ((path.SymPath? || path.StrPath?) && path.name !in e.methods))
    ensures r.Err? ==> IsArgumentError(r.error)
    ensures r.Err? && path.OtherPath? ==> r.error == UnknownPath(PathText(path))
    ensures r.Err? && !path.OtherPath? ==> r.error == NotResponding(path.name)
    ensures r.Ok? && path.ProcPath? ==> r.value == PostProcess(c, path.call(e), env)
    ensures r.Ok? && !path.ProcPath? ==> r.value == PostProcess(c, e.methods[path.name], env)
  {
    match path
    case SymPath(n) =>
      if n !in e.methods then Err(NotResponding(n)) else Ok(PostProcess(c, e.methods[n], env))
    case StrPath(n) =>
      if n !in e.methods then Err(NotResponding(n)) else Ok(PostProcess(c, e.methods[n], env))
    case ProcPath(_, call) => Ok(PostProcess(c, call(e), env))
    case OtherPath(_) => Err(UnknownPath(PathText(path)))
  }

  /** `extract_entity_value_from_binding_path`. */
  function ExtractEntityValueFromBindingPath(e: Entity, c: Column, env: Env): (r: Result<Value>)
    ensures c.bindingPath.OtherPath? && c.bindingPath.v.Nil? ==> r == Err(NilBindingPath(ToS(c.title)))
    ensures !(c.bindingPath.OtherPath? && c.bindingPath.v.Nil?) ==> r == ExtractEntityValue(e, c, c.bindingPath, env)
  {
    if c.bindingPath.OtherPath? && c.bindingPath.v.Nil? then Err(NilBindingPath(ToS(c.title)))
    else ExtractEntityValue(e, c, c.bindingPath, env)
  }

  /** `extract_column_content(column, entity, throw_error)`: a block wins over
      a binding path; with neither, the column is misconfigured, which raises
      only when `throwError` holds. The nil-path check of
      `extract_entity_value_from_binding_path` can never fire from here,
      because a nil path is not present. */
  function ExtractColumnContent(c: Column, e: Entity, throwError: bool, env: Env): (r: Result<Value>)
    ensures c.block.Some? ==> r == Ok(Capture(c.block.value(e), env))
    ensures c.block.None? && Present(c.bindingPath) ==> r == ExtractEntityValue(e, c, c.bindingPath, env)
    ensures c.block.None? && !Present(c.bindingPath) ==>
      r == if throwError then Err(MissingSource(ToS(c.title))) else Ok(Nil)
    ensures r.Err? ==> IsArgumentError(r.error) && !r.error.NilBindingPath?
  {
    if c.block.Some? then Ok(Capture(c.block.value(e), env))
    else if Present(c.bindingPath) then ExtractEntityValueFromBindingPath(e, c, env)
    else if throwError then Err(MissingSource(ToS(c.title)))
    else Ok(Nil)
  }

  /** The `throw_error` flag matters only to a column with no value source:
      whenever a block or a binding path is there, both calls agree. */
  lemma ThrowFlagOnlyForMissingSource(c: Column, e: Entity, env: Env)
    ensures c.block.Some? || Present(c.bindingPath) ==>
      ExtractColumnContent(c, e, true, env) == ExtractColumnContent(c, e, false, env)
    ensures ExtractColumnContent(c, e, false, env).Err? ==>
      ExtractColumnContent(c, e, false, env).error.NotResponding? ||
      ExtractColumnContent(c, e, false, env).error.UnknownPath?
  {
  }

  /** One data attribute's value: resolved like a cell value, then
      URI-escaped when it is a non-blank String whose path the column lists
      among its escaped data attributes. */
  function DataValue(c: Column, e: Entity, path: Path, env: Env): (r: Result<Value>)
    ensures r.Err? <==> ExtractEntityValue(e, c, path, env).Err?
    ensures r.Err? ==> r.error == ExtractEntityValue(e, c, path, env).error
    ensures r.Ok? ==> var v := ExtractEntityValue(e, c, path, env).value;
      r.value == if !Blank(v) && IsString(v) && Includes(c.escapeDataAttributes, path)
                 then Str(env.uriEscape(v.s)) else v
  {
    var v :- ExtractEntityValue(e, c, path, env);
    Ok(if !Blank(v) && IsString(v) && Includes(c.escapeDataAttributes, path) then Str(env.uriEscape(v.s)) else v)
  }

  /** The step of `body_cell_data_options` for one declared attribute. */
  function DataStep(c: Column, e: Entity, env: Env): (nat, (string, Path)) -> Result<Option<(string, Value)>> {
    (_: nat, a: (string, Path)) =>
      match DataValue(c, e, a.1, env)
      case Ok(v) => Ok(Some(("data-" + a.0, v)))
      case Err(err) => Err(err)
  }

  /** `body_cell_data_options(column, entity)`, the hash it builds. */
  function DataOptions(c: Column, e: Entity, env: Env): Result<Attrs.Hash<Value>> {
    var pairs :- Traverse(c.dataAttributes, DataStep(c, e, env));
    Ok(Attrs.Update([], pairs))
  }

  lemma DataKeyInjective(a: string, b: string)
    ensures ("data-" + a == "data-" + b) == (a == b)
  {
    if "data-" + a == "data-" + b {
      assert a == ("data-" + a)[5..];
      assert b == ("data-" + b)[5..];
    }
  }

  /** `body_cell_data_options` fails exactly when one of the declared
      attributes fails to resolve. */
  lemma DataOptionsOkIff(c: Column, e: Entity, env: Env)
    ensures DataOptions(c, e, env).Ok? <==>
      forall i :: 0 <= i < |c.dataAttributes| ==> DataValue(c, e, c.dataAttributes[i].1, env).Ok?
  {
    var attrs, f := c.dataAttributes, DataStep(c, e, env);
    TraverseOkIff(attrs, f);
    assert forall i :: 0 <= i < |attrs| ==> (f(i, attrs[i]).Ok? <==> DataValue(c, e, attrs[i].1, env).Ok?);
  }

  /** On success, the pairs `body_cell_data_options` stores: one per declared
      attribute, in order, keyed `"data-<attr>"`. */
  lemma DataPairs(c: Column, e: Entity, env: Env) returns (pairs: seq<(string, Value)>)
    requires DataOptions(c, e, env).Ok?
    ensures DataOptions(c, e, env).value == Attrs.Update([], pairs)
    ensures |pairs| == |c.dataAttributes|
    ensures forall i :: 0 <= i < |pairs| ==>
      DataValue(c, e, c.dataAttributes[i].1, env).Ok? &&
      pairs[i] == ("data-" + c.dataAttributes[i].0, DataValue(c, e, c.dataAttributes[i].1, env).value)
  {
    var attrs, f := c.dataAttributes, DataStep(c, e, env);
    TraverseTotal(attrs, f);
    pairs := Traverse(attrs, f).value;
  }

  /** The keys of `body_cell_data_options` are exactly `"data-<attr>"` of the
      declared attributes. */
  lemma {:induction false} DataOptionsKeys(c: Column, e: Entity, env: Env)
    requires DataOptions(c, e, env).Ok?
    ensures forall k ::
      Attrs.Get(DataOptions(c, e, env).value, k).Some? <==>
      exists i :: 0 <= i < |c.dataAttributes| && k == "data-" + c.dataAttributes[i].0
  {
    var pairs := DataPairs(c, e, env);
    forall k ensures Attrs.Get(DataOptions(c, e, env).value, k).Some? <==>
      exists i :: 0 <= i < |c.dataAttributes| && k == "data-" + c.dataAttributes[i].0
    {
      LastValueSome(pairs, k);
      if Attrs.LastValue(pairs, k).Some? {
        var i :| 0 <= i < |pairs| && pairs[i].0 == k;
        assert k == "data-" + c.dataAttributes[i].0;
      }
    }
  }

  /** Each `"data-<attr>"` key carries the value of the last declaration of
      that attribute name. */
  lemma {:induction false} DataOptionsValues(c: Column, e: Entity, env: Env)
    requires DataOptions(c, e, env).Ok?
    ensures forall i ::
      0 <= i < |c.dataAttributes| &&
      (forall j :: i < j < |c.dataAttributes| ==> c.dataAttributes[j].0 != c.dataAttributes[i].0) ==>
      DataValue(c, e, c.dataAttributes[i].1, env).Ok? &&
      Attrs.Get(DataOptions(c, e, env).value, "data-" + c.dataAttributes[i].0) ==
        Some(DataValue(c, e, c.dataAttributes[i].1, env).value)
  {
    var attrs := c.dataAttributes;
    var pairs := DataPairs(c, e, env);
    forall i | 0 <= i < |attrs| && (forall j :: i < j < |attrs| ==> attrs[j].0 != attrs[i].0)
      ensures DataValue(c, e, attrs[i].1, env).Ok?
      ensures Attrs.Get(DataOptions(c, e, env).value, "data-" + attrs[i].0) ==
        Some(DataValue(c, e, attrs[i].1, env).value)
    {
      forall j | i < j < |pairs| ensures pairs[j].0 != pairs[i].0 {
        DataKeyInjective(attrs[j].0, attrs[i].0);
      }
      LastValueAt(pairs, i);
    }
  }

  lemma {:induction false} LastValueSome<V>(ps: Attrs.Hash<V>, k: string)
    ensures Attrs.LastValue(ps, k).Some? <==> exists i :: 0 <= i < |ps| && ps[i].0 == k
  {
    if |ps| > 0 {
      LastValueSome(ps[..|ps| - 1], k);
      assert forall i :: 0 <= i < |ps| - 1 ==> ps[..|ps| - 1][i] == ps[i];
    }
  }

  lemma {:induction false} LastValueAt<V>(ps: Attrs.Hash<V>, i: nat)
    requires i < |ps|
    requires forall j :: i < j < |ps| ==> ps[j].0 != ps[i].0
    ensures Attrs.LastValue(ps, ps[i].0) == Some(ps[i].1)
  {
    if i < |ps| - 1 {
      var front := ps[..|ps| - 1];
      assert front[i] == ps[i];
      LastValueAt(front, i);
    }
  }

  /** One attribute of the `body_cell_data_options` loop, stated on the walk
      `DataOptions` makes: a failing value is the result, any other value adds
      its pair. */
  lemma DataOptionsStep(c: Column, e: Entity, env: Env, i: nat, pairs: seq<(string, Value)>)
    requires i < |c.dataAttributes| && Traverse(c.dataAttributes[..i], DataStep(c, e, env)) == Ok(pairs)
    ensures DataValue(c, e, c.dataAttributes[i].1, env).Err? ==>
      DataOptions(c, e, env) == Err(DataValue(c, e, c.dataAttributes[i].1, env).error)
    ensures DataValue(c, e, c.dataAttributes[i].1, env).Ok? ==>
      var pair := ("data-" + c.dataAttributes[i].0, DataValue(c, e, c.dataAttributes[i].1, env).value);
      Traverse(c.dataAttributes[..i + 1], DataStep(c, e, env)) == Ok(pairs + [pair]) &&
      Attrs.Update([], pairs + [pair]) == Attrs.Put(Attrs.Update([], pairs), pair.0, pair.1)
  {
    TraverseStep(c.dataAttributes, DataStep(c, e, env), i);
    var val := DataValue(c, e, c.dataAttributes[i].1, env);
    if val.Err? {
      TraverseErrSticks(c.dataAttributes, DataStep(c, e, env), i + 1);
    } else {
      var pair := ("data-" + c.dataAttributes[i].0, val.value);
      assert (pairs + [pair])[..|pairs|] == pairs;
    }
  }

  /** `body_cell_data_options`, as the source runs it: a loop filling a hash
      attribute by attribute, stopping at the first one that fails. */
  method BodyCellDataOptions(c: Column, e: Entity, env: Env) returns (r: Result<Attrs.Hash<Value>>)
    ensures r == DataOptions(c, e, env)
  {
    var dataOptions: Attrs.Hash<Value> := [];
    ghost var pairs: seq<(string, Value)> := [];
    var i := 0;
    while i < |c.dataAttributes|
      invariant 0 <= i <= |c.dataAttributes|
      invariant Traverse(c.dataAttributes[..i], DataStep(c, e, env)) == Ok(pairs)
      invariant dataOptions == Attrs.Update([], pairs)
    {
      var (attribute, valuePath) := c.dataAttributes[i];
      DataOptionsStep(c, e, env, i, pairs);
      var val := ExtractEntityValue(e, c, valuePath, env);
      if val.Err? {
        return Err(val.error);
      }
      var v := val.value;
      if !Blank(v) && IsString(v) && Includes(c.escapeDataAttributes, valuePath) {
        v := Str(env.uriEscape(v.s));
      }
      dataOptions := Attrs.Put(dataOptions, "data-" + attribute, v);
      pairs := pairs + [("data-" + attribute, v)];
      i := i + 1;
    }
    assert c.dataAttributes[..i] == c.dataAttributes;
    r := Ok(dataOptions);
  }

  /** `extract_entity_id`: the entity's own id, or "rand_" and a fresh token. */
  function ExtractEntityId(e: Entity, token: HexToken): (id: string)
    ensures "id" in e.methods ==> id == ToS(e.methods["id"])
    ensures "id" !in e.methods ==> |id| == 37 && id[..5] == "rand_" && id[5..] == token
  {
    if "id" in e.methods then ToS(e.methods["id"]) else "rand_" + token
  }

  /** `extract_tile_content`: the tile block of the grid, run under capture. */
  function ExtractTileContent(g: Grid, e: Entity, env: Env): (r: Result<Value>)
    ensures r.Err? <==> g.tileBlock.None?
    ensures r.Ok? ==> r.value == Capture(g.tileBlock.value(e), env)
  {
    if g.tileBlock.None? then Err(MissingTileConfig) else Ok(Capture(g.tileBlock.value(e), env))
  }

  /** `url = c.url; url = url.call(entity) if url.is_a?(Proc)` */
  function ResolveUrl(c: Column, e: Entity): Value {
    match c.url
    case UrlValue(v) => v
    case UrlProc(call) => call(e)
  }

  /** `row_title.call(entity).to_s` when a row title Proc is given. */
  function RowTitle(g: Grid, e: Entity): Option<string> {
    if g.rowTitle.Some? then Some(ToS(g.rowTitle.value(e))) else None
  }
}

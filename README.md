# Table renderer of ajax_data_grid, modelled in Dafny

This project models the row and cell rendering engine of the `TableRenderer` of
ajax_data_grid (`lib/ajax_data_grid/table_renderer.rb`). The renderer takes a
grid: its ordered column list, the active view, the model's entities and the
table options. It renders either a table or a tiles view.

- **Table.** A `thead` with a `th` per column in view, with the sort decoration
  of the sorted column. A `tbody` with its empty-state row, the three template
  rows and one row per entity. An optional `tfoot` fed with the aggregated data.
- **Tiles view.** One `div.tile` per entity.

Rows are printed by one of three strategies:

- `content_tag`, which builds a tree of elements;
- `string_plus`, which builds one String per row with `+=`;
- `string_concat`, which builds one String per row with `<<`. It can cache rows
  in `Rails.cache` under a key of the entity, and it folds every entity into the
  aggregated data with an aggregator block.

The modules follow the renderer's structure:

- `Prelude`: Option, Result and the error taxonomy. It also holds `Traverse`,
  the walk every loop of the renderer follows: in order, stop at the first
  error, skip what a step declines to emit.
- `Values`, `Attrs` and `Html`: Ruby values with `to_s` and `blank?`. Insertion-ordered
  hashes with `[]=` and `update`. Markup as a tree of elements. A SafeBuffer is a
  sequence of nodes, where a plain String appended to it is a `Text` node that
  will be escaped.
- `Columns` and `Config`: the column record, `in_view?`, `present?` of a path,
  and the grid. A String or Symbol path has exactly one encoding as a `Path`;
  `OtherPath` holds only objects that are neither. `Config` also holds the environment of injected services:
  `sprintf`, `URI.escape`, `html_escape`, `escape_once`, the text of a helper,
  the random token, translations and the no-filter-results partial.
- `Resolver`: `extract_column_content`, `extract_entity_value(_from_binding_path)`,
  the "parse value" step, `body_cell_data_options`, `extract_entity_id` and
  `extract_tile_content`.
- `RowModel`: what every strategy decides for an entity before it prints
  anything. That is the selected flag, the id, the title, and the attributes and
  body of each cell of the active view. The three strategies differ only in how
  they print a `Row`.
- `Header`, `ContentTagStrategy`, `StringPlusStrategy`, `StringConcatStrategy`,
  `StringConcatLoop` and `Layout`: the header loop, the three row strategies,
  the properties of the cached and aggregated rows loop, `table_layout`,
  `tiles_layout` and `render_table`.

The loops of the source are methods with `while` loops. Each is proved equal to
a specification function; the properties are lemmas about those functions.

- **Cache and aggregated data.** `Rails.cache` and `aggregated_data_config` are
  objects whose fields are updated in place: `RowCache` with its `entries` map,
  and `AggregatedData` with its `data` map.
- **Exceptions.** The exceptions the renderer raises are `Err` results.
- **Header loop.** It decorates the column's header cell options in place. The
  model decorates a copy: see "Left out".

Modelled as the code has it:

- Captured output wins over a block's return value when it is non-blank
  (`presence`), not merely non-empty.
- A plain String appended to a SafeBuffer is escaped. The `string_plus` and
  `string_concat` strategies append their row Strings that way, so each row
  reaches the `tbody` as one text node. `StringPlusStrategy.OutputMeaning` and
  `StringConcatLoop.NoKeyOutputMeaning` state this.
- With a cache key the row is rendered only when its key is missing from the
  cache at its turn, so a row that would raise does no harm once it is cached
  (`StringConcatLoop.KeyedOutputMeaning`).
- A nil plain-cell value is printed as `""`, and the `div.cell` wrapper is
  emitted all the same (`ContentTagStrategy.PlainNilCellStillWrapped`).
- The no-data row spans all declared columns, not only those in view.
- In `string_concat_row` the row title attribute follows the id's closing quote
  with no space. The selected class gives `grid_row  selected`, with two spaces.
  The same double space occurs in a selected tile's class.
- Only the `string_concat` strategy calls the aggregator. With any other
  strategy the footer sees the aggregated data as it was.

## Model

| member | source | states |
|---|---|---|
| Resolver.Capture | lib/ajax_data_grid/table_renderer.rb:438-445 | non-blank captured output wins; otherwise the block's value is kept if it is markup, escaped if it is a plain String, and dropped (nil) otherwise; the result is always markup or nil |
| Resolver.CapturedOutputWins | lib/ajax_data_grid/table_renderer.rb:441-442 | once non-blank output has been captured, what the block returns does not change the result |
| Resolver.PostProcess | lib/ajax_data_grid/table_renderer.rb:488-495 | a Float or BigDecimal is formatted with the column's value format when that is a String, else with the default float format; `true`/`false` become "true"/"false"; every other value is returned unchanged; no number with a fraction and no boolean survives |
| Resolver.PostProcessIdempotent | lib/ajax_data_grid/table_renderer.rb:488-495 | post-processing an already post-processed value changes nothing |
| Resolver.ExtractEntityValue | lib/ajax_data_grid/table_renderer.rb:477-496 | fails exactly for a path of another type or a Symbol/String path the entity does not respond to, always with an ArgumentError naming the path; otherwise returns the post-processed result of sending the name or calling the Proc |
| Resolver.ExtractEntityValueFromBindingPath | lib/ajax_data_grid/table_renderer.rb:471-475 | a nil binding path raises the nil-path error naming the column; any other path is followed as a value path |
| Resolver.ExtractColumnContent | lib/ajax_data_grid/table_renderer.rb:447-459 | a block wins over a binding path; a present binding path is followed; with neither, the misconfiguration error is raised when `throw_error` holds and nil is returned otherwise; every failure is an ArgumentError and never the nil-path one |
| Resolver.ThrowFlagOnlyForMissingSource | lib/ajax_data_grid/table_renderer.rb:447-459 | the throwing and non-throwing resolutions agree whenever a block or a binding path is there; a non-throwing resolution fails only because the path cannot be followed |
| Resolver.DataValue | lib/ajax_data_grid/table_renderer.rb:463-466 | a data attribute's value fails exactly when its path fails, and is URI-escaped exactly when it is a non-blank String whose path the column lists among its escaped data attributes |
| Resolver.DataOptionsOkIff | lib/ajax_data_grid/table_renderer.rb:461-469 | `body_cell_data_options` succeeds exactly when every declared attribute resolves |
| Resolver.DataPairs | lib/ajax_data_grid/table_renderer.rb:461-469 | on success the hash is built from one pair per declared attribute, in order, keyed `data-<attr>` with that attribute's value |
| Resolver.DataOptionsKeys | lib/ajax_data_grid/table_renderer.rb:466 | the keys of the data options are exactly `data-<attr>` of the declared attributes |
| Resolver.DataOptionsValues | lib/ajax_data_grid/table_renderer.rb:463-466 | each `data-<attr>` key holds the value of the last declaration of that attribute name |
| Resolver.DataOptionsStep | lib/ajax_data_grid/table_renderer.rb:463-467 | one attribute of the loop: a failing value is the result of the whole call, any other value adds its pair, and adding it is a hash store |
| Resolver.BodyCellDataOptions | lib/ajax_data_grid/table_renderer.rb:461-469 | the hash-filling loop returns the data options, or the first failure |
| Resolver.ExtractEntityId | lib/ajax_data_grid/table_renderer.rb:498-500 | the entity's `id.to_s` when it responds to `id`, otherwise "rand_" followed by the 32 hex digits of the token |
| Resolver.ExtractTileContent | lib/ajax_data_grid/table_renderer.rb:438-445 | fails exactly when there is no tile configuration; otherwise it is the captured result of the tile block for the entity |
| Attrs.Put | lib/ajax_data_grid/table_renderer.rb:466 | a hash store: the key gets the value, every other key keeps its value, an existing key keeps its place and a new key goes last |
| Attrs.Update | lib/ajax_data_grid/table_renderer.rb:397 | `update`: a key takes its last value in the argument when it occurs there, and keeps its value in the receiver otherwise |
| Attrs.UpdateKeepsKeyOrder | lib/ajax_data_grid/table_renderer.rb:289 | `update` keeps the receiver's keys in their order, at the front |
| Html.Piece | lib/ajax_data_grid/table_renderer.rb:410 | `buffer << v.to_s`: markup is kept raw, anything else becomes escaped text, and the printed characters are `v.to_s` |
| RowModel.CellBodyMeaning | lib/ajax_data_grid/table_renderer.rb:401-424 | a select cell shows the row's checkbox; a plain cell resolves strictly and shows the value; edit and destroy cells resolve without raising and show their fallback link exactly when the content is nil, the content otherwise; an edit link targets the resolved url, a destroy link is the destroy one |
| RowModel.CellErrors | lib/ajax_data_grid/table_renderer.rb:403-424 | edit and destroy cells fail only on a present path that cannot be followed; a plain cell with no source raises the misconfiguration error naming its column; a select cell never fails |
| RowModel.FallbackLink | lib/ajax_data_grid/table_renderer.rb:405-417 | the fallback link wraps the blank image; an edit link goes to the url with the column's link options; a destroy link goes to 'javascript:;' and carries the url as `data-url` unless the link options set their own |
| RowModel.RowCellsFollowVisibleColumns | lib/ajax_data_grid/table_renderer.rb:394-395 | a row has one cell per column of the active view, in declared order, and the k-th cell is the k-th visible column's cell |
| RowModel.RowIdentity | lib/ajax_data_grid/table_renderer.rb:387-390 | a row's selected flag is the model's, its id is the entity's id or "rand_" and the token of its position, and it has a title exactly when a row title Proc is given, the `to_s` of what the Proc returns for the entity |
| RowModel.RowsOfMeaning | lib/ajax_data_grid/table_renderer.rb:386-433 | the grid's rows render exactly when every entity's row does, one row per entity, in order |
| Header.HeaderSortDecoration | lib/ajax_data_grid/table_renderer.rb:86-92 | only a non-select, non-destroy column whose `sort_by.to_s` is the sorted field of a sorted model is decorated; its class gains the current direction (escaped into a SafeBuffer class), `data-sort-direction` becomes the flipped direction, every other option is kept; decorating raises exactly when the class option is missing or not a String |
| Header.FlipToggles | lib/ajax_data_grid/table_renderer.rb:90 | the next direction is always "asc" or "desc": "desc" after "asc" and "asc" after anything else, so it toggles |
| Header.HeaderTh | lib/ajax_data_grid/table_renderer.rb:86-111 | one `th` built imperatively is the header cell of the column |
| Header.HeaderRow | lib/ajax_data_grid/table_renderer.rb:79-116 | the header loop gives a `th` per column in view, in declared order, or the first error |
| Header.HeaderLoopStep | lib/ajax_data_grid/table_renderer.rb:83-94 | one column of the header loop: out of view it adds nothing, a failing `th` is the result of the whole header, any other `th` is appended |
| Header.HeaderAndBodyAlign | lib/ajax_data_grid/table_renderer.rb:83-95 | the header `th`s and the cells of any row are equally many, one per visible column, and the k-th of each belongs to the k-th visible column |
| ContentTagStrategy.OutputMeaning | lib/ajax_data_grid/table_renderer.rb:383-436 | the buffer holds one `tr` per entity, in order, exactly when every entity's row renders |
| ContentTagStrategy.ContentTagCell | lib/ajax_data_grid/table_renderer.rb:397-428 | one `td` built imperatively is the column's cell as a `td` with its `div.cell`, or the cell's error |
| ContentTagStrategy.ContentTagCells | lib/ajax_data_grid/table_renderer.rb:392-431 | the column loop gives the `td` of each cell of the row, in order, or the first failing cell's error |
| ContentTagStrategy.ContentTagCellsLoop | lib/ajax_data_grid/table_renderer.rb:394-429 | the column loop, stated on each column's step result |
| ContentTagStrategy.ContentTagRow | lib/ajax_data_grid/table_renderer.rb:387-432 | the `tr` of an entity carries its class, id and title, and holds its cells |
| ContentTagStrategy.TableRowsContentTag | lib/ajax_data_grid/table_renderer.rb:383-436 | the rows loop gives the strategy's output |
| ContentTagStrategy.ContentTagRowsLoop | lib/ajax_data_grid/table_renderer.rb:386-433 | the rows loop, stated on each entity's row result |
| ContentTagStrategy.PlainNilCellStillWrapped | lib/ajax_data_grid/table_renderer.rb:421-424 | a nil plain value is printed as "" inside the `div.cell` wrapper, which is always there |
| StringPlusStrategy.OutputMeaning | lib/ajax_data_grid/table_renderer.rb:232-280 | the buffer holds, for each entity in order, the String of its row as escaped text, exactly when every entity's row renders |
| StringPlusStrategy.StringPlusCell | lib/ajax_data_grid/table_renderer.rb:243-272 | the markup appended for one column is the cell's text, or the cell's error |
| StringPlusStrategy.AppendCells | lib/ajax_data_grid/table_renderer.rb:240-273 | the column loop appends the text of each cell of the row to the row start, in order, or gives the first failing cell's error |
| StringPlusStrategy.StringPlusRow | lib/ajax_data_grid/table_renderer.rb:236-274 | the String built for an entity is its row's text |
| StringPlusStrategy.TableRowsStringPlus | lib/ajax_data_grid/table_renderer.rb:232-280 | the rows loop gives the strategy's output |
| StringPlusStrategy.StringPlusRowsLoop | lib/ajax_data_grid/table_renderer.rb:235-277 | the rows loop, stated on each entity's row result |
| StringConcatStrategy.OpenTd | lib/ajax_data_grid/table_renderer.rb:291-292 | the attribute loop writes every attribute after `<td `, in hash order, each as `k="escape_once(v)" ` |
| StringConcatStrategy.StringConcatCell | lib/ajax_data_grid/table_renderer.rb:289-319 | the markup appended for one column is the cell's text, or the cell's error |
| StringConcatStrategy.AppendCells | lib/ajax_data_grid/table_renderer.rb:286-320 | the column loop appends the text of each cell of the row, in order, or gives the first failing cell's error |
| StringConcatStrategy.StringConcatRow | lib/ajax_data_grid/table_renderer.rb:282-322 | `string_concat_row` gives the row's text for the entity |
| StringConcatStrategy.RowCache.Write | lib/ajax_data_grid/table_renderer.rb:330-332 | the store of a computed entry under its key, nothing else changed |
| StringConcatStrategy.AggregatedData.Call | lib/ajax_data_grid/table_renderer.rb:328 | the aggregator block updates the data with the entity |
| StringConcatStrategy.FetchRow | lib/ajax_data_grid/table_renderer.rb:329-335 | with a cache key, a present entry is returned as it is and a missing one is rendered and stored; without one the row is rendered; the cache changes as the fetch specifies |
| StringConcatStrategy.TableRowsStringConcat | lib/ajax_data_grid/table_renderer.rb:324-340 | the output, the cache entries and the aggregated data after the loop are those of the loop run over all rows |
| StringConcatStrategy.ConcatRows | lib/ajax_data_grid/table_renderer.rb:327-337 | the rows loop, stated on what rendering each row gives |
| StringConcatStrategy.ConcatIteration | lib/ajax_data_grid/table_renderer.rb:328-336 | one iteration calls the aggregator first and then fetches the row, advancing the run by one row, or ending it on an error |
| StringConcatStrategy.RunsNext | lib/ajax_data_grid/table_renderer.rb:328-336 | the next state of the run follows from the fetch of its row, and a failing fetch is the final state |
| StringConcatStrategy.ConcatErrSticks | lib/ajax_data_grid/table_renderer.rb:327-337 | once a row has raised, no later row is looked at: output, cache and data stay as they were |
| StringConcatStrategy.RunsAt | lib/ajax_data_grid/table_renderer.rb:327-337 | the k-th recorded state of the loop is the state after k rows |
| StringConcatStrategy.PiecesAt | lib/ajax_data_grid/table_renderer.rb:336 | each row String is appended to the buffer as escaped text, one per row, in order |
| StringConcatLoop.StepExtendsCache | lib/ajax_data_grid/table_renderer.rb:330-332 | one iteration never removes or replaces a cache entry |
| StringConcatLoop.CacheOnlyGrows | lib/ajax_data_grid/table_renderer.rb:327-337 | the cache after more rows holds every entry it held after fewer, unchanged |
| StringConcatLoop.OkRunAggregatesAll | lib/ajax_data_grid/table_renderer.rb:327-328 | a completed loop has one html per row, and the aggregator has been folded over every entity once, in row order, cached or not |
| StringConcatLoop.ErrRunStopsAtFailingRow | lib/ajax_data_grid/table_renderer.rb:327-337 | a failed loop failed with the error of some row, and the aggregator has seen exactly the rows up to and including that one |
| StringConcatLoop.NoKeyRendersDirectly | lib/ajax_data_grid/table_renderer.rb:333-335 | without a cache key the cache is untouched and the loop gives each row's html exactly when every row renders |
| StringConcatLoop.KeyedRowsAreCacheEntries | lib/ajax_data_grid/table_renderer.rb:329-332 | with a cache key, the html of every row of a completed loop is the cache entry for the row's key |
| StringConcatLoop.NewEntriesAreRenderedRows | lib/ajax_data_grid/table_renderer.rb:330-332 | every entry the loop adds exists only with a cache key and is the rendered html of a row stored under that row's key |
| StringConcatLoop.ConsistentCacheIsTransparent | lib/ajax_data_grid/table_renderer.rb:329-335 | a cache that agrees with what the rows render, under keys that tell rows apart, gives the same output and aggregated data as no cache at all, and stays in agreement |
| StringConcatLoop.NoKeyBuffer | lib/ajax_data_grid/table_renderer.rb:327-339 | without a cache key the buffer holds each row's html as text, in order, exactly when every row renders, and the cache is unchanged |
| StringConcatLoop.NoKeyOutputMeaning | lib/ajax_data_grid/table_renderer.rb:324-340 | without a cache key the strategy's buffer holds the `string_concat_row` String of each entity as text, in order, exactly when every row renders |
| StringConcatLoop.KeyedRenderOnlyOnMiss | lib/ajax_data_grid/table_renderer.rb:327-337 | with a cache key a row is computed only on a miss: the loop completes exactly when every row whose key is missing at its turn renders, and each row's html is the entry found at its turn on a hit and its rendering on a miss |
| StringConcatLoop.AllHitsIgnoreRendering | lib/ajax_data_grid/table_renderer.rb:329-332 | when every row's key is already cached the loop completes whatever the rows would render, leaves the cache as it was and gives the cached entries in row order |
| StringConcatLoop.KeyedBuffer | lib/ajax_data_grid/table_renderer.rb:327-339 | with a cache key the buffer holds each row's cache entry as text, in order; it is complete exactly when every row missing from the cache at its turn renders, and such a row's text is its rendering |
| StringConcatLoop.KeyedOutputMeaning | lib/ajax_data_grid/table_renderer.rb:324-340 | with a cache key the strategy's buffer holds, for each entity in order, the cache entry for its key as text; it is complete exactly when every entity not cached at its turn renders its `string_concat_row` String, which is then its text; an entity cached at its turn is not rendered and cannot make the loop fail |
| StringConcatLoop.CachedGridIsNotRendered | lib/ajax_data_grid/table_renderer.rb:324-340 | when every entity is already cached the strategy renders no row, succeeds, leaves the cache as it was, and its buffer holds each entity's cached entry as text |
| Layout.NoRowsMessageMeaning | lib/ajax_data_grid/table_renderer.rb:502-514 | the message is one `div.no-data`, holding the rendered no-filter-results partial when the model has rows at all and the `empty_rows` option in a `div.no rows` otherwise |
| Layout.EmptyState | lib/ajax_data_grid/table_renderer.rb:119-201 | the body opens with exactly one no-data row when there are no rows; that row spans all declared columns and holds the no-rows message, which is the filter message exactly when the model has rows at all and the `empty_rows` message otherwise; the three template rows follow in any case, then the rows |
| Layout.LayoutMeaning | lib/ajax_data_grid/table_renderer.rb:71-217 | the table renders exactly when the header and the rows do; a failing header leaves the state untouched; a table is the header, the body around the rows and, when there is a footer block, the footer of the aggregated data (`{}` without an aggregator) |
| Layout.TableRows | lib/ajax_data_grid/table_renderer.rb:219-230 | the dispatch on the render type gives the chosen strategy's rows and state; only string_concat touches the cache and the aggregated data |
| Layout.TableLayout | lib/ajax_data_grid/table_renderer.rb:71-217 | `table_layout { table_rows }` gives the layout of the rows the dispatch gives, with its state |
| Layout.FooterSeesEveryRow | lib/ajax_data_grid/table_renderer.rb:206-212 | with the string_concat strategy and an aggregator, a rendered table's footer block is given the aggregator folded over every entity in row order |
| Layout.TileMeaning | lib/ajax_data_grid/table_renderer.rb:55-63 | a tile fails exactly when there is no tile configuration; a tile is a `div` with class "tile grid_row " and the selected class, the entity's id, its row title (nil without a row title Proc), and holds the markup the tile block captured, or "" when the capture is nil |
| Layout.TilesMeaning | lib/ajax_data_grid/table_renderer.rb:49-69 | with no rows the tiles view is the no-rows message; otherwise it fails exactly when there is no tile configuration, and holds the tile of each entity at its row position, in order, then the clearing `div` |
| Prelude.TraverseErrIsFirst | lib/ajax_data_grid/table_renderer.rb:55-63 | a failing loop fails with the error of its first failing step: every earlier step succeeded |
| Layout.TilesLayout | lib/ajax_data_grid/table_renderer.rb:49-69 | the tiles loop gives the tiles view |
| Layout.RenderTable | lib/ajax_data_grid/table_renderer.rb:19-31 | the wrapper `div` holds the tiles view or the table, with the state the table leaves |

## Left out

- The `:haml` strategy (`table_rows_haml`). It writes to the Haml buffer, which
  is not modelled, and its destroy branch refers to an undefined `html`. Any
  render type other than the three modelled ones renders no rows (`OtherRender`).
  For an unknown render type the source appends nil to the body, and the model
  takes that as appending nothing.
- `render_all`, `render_json_init_div` and `render_javascript_tag`. They are JSON
  serialisation and script tags with no decision in them. The `data-columns_json`
  of the wrapper is an injected string.
- `lib/ajax_data_grid/helpers.rb` (toolbar, pagination, view selector) is not
  part of this model.
- The exact text printed by the Rails helpers (`content_tag`, `link_to`,
  `image_tag`) is left out. Markup is a tree; where a string strategy appends
  a helper's output, its text is an injected function (`render`).
  `escape_once`, `html_escape`, `URI.escape`, `sprintf`, `translate`, `I18n.t`
  and the no-filter-results partial are injected functions too, and are not
  interpreted.
- Tag-helper details are left out: dropping nil attributes, quoting and
  attribute escaping in `content_tag`, and Symbol versus String keys. Hash keys
  are strings.
- `Rails.cache` beyond `fetch` is left out (expiry, key normalisation, sharing
  between requests). The cache is the `RowCache` object given to one render.
- `SecureRandom.hex`: the token is a function of the row position.
- The logger call in `table_rows`: output only.
- The column classes (`in_view?`, `header_cell_options`, `body_cell_options`, `js_options`,
  `qtip?`) are fields and predicates of a `Column` record.
- `aggregated_data_config.present?` is modelled as the aggregator being given.
- Header.HeaderTh: the source appends the direction to the column's own
  `header_cell_options[:class]` in place. The decoration therefore persists in
  the column object and accumulates over repeated renders. The model decorates
  a copy for one render. The flipped `data-sort-direction` is stored in the
  same Hash and persists too. A class option that is an Array, to which Ruby's
  `<<` appends and which `content_tag` renders joined with spaces, is modelled
  as a class that cannot be appended to: the model raises (`Header.AppendText`
  takes Strings only).
- The three row strategies store each cell's `data-<attr>` entries into the
  column's own `body_cell_options` with `update`, so they persist in the column
  object. Within one render every row overwrites the same keys, so the output
  is unaffected. The model updates a copy for each cell.
- Layout.TilesLayout: the tile class is built with `<<` on a literal, which in
  Ruby mutates that String. Only the resulting value is modelled.
- Resolver.PostProcess: formatting a number is the injected `sprintf` and is not
  interpreted. Float and BigDecimal carry only their `to_s` text, so floating
  point is not modelled.
- An exception is modelled as an `Err` result that ends the render. The half
  filled buffers of the failed render are dropped, as in Ruby. The cache keeps
  the entries stored for the rows before the failing one. The aggregated data
  keeps the failing row too, because the aggregator runs before that row is
  fetched (`StringConcatLoop.ErrRunStopsAtFailingRow`).
- StringConcatStrategy.AggregatedData.Call: the aggregator block is a total
  function. An aggregator block that raises is not modelled.
- Values.Blank: any other object (`Obj`) is never blank. An empty Array or
  Hash used as a path is therefore followed, and raises the unknown-path error,
  where Ruby's `present?` would treat it as no path at all. The path in an
  error message is its `to_s` where the source interpolates `inspect`, so a
  nil path prints "" rather than "nil". Only ASCII whitespace counts as blank,
  where ActiveSupport's `String#blank?` also takes Unicode spaces (a no-break
  space, U+3000). For such Strings `Capture`'s `presence` test and
  `DataValue`'s escape test differ from the source.

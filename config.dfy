/** What one render call is given: the grid (builder, configuration, model
    and table options, fixed for the call) and the environment, which stands
    for the Rails, I18n and SecureRandom services the renderer calls but whose
    output is not modelled. */
module Config {
  import opened Prelude
  import opened Values
  import opened Columns
  import Html

  /** `table_options[:render_type]`. The `:haml` strategy is not part of this
      model; any other tag renders no rows. */
  datatype RenderType = ContentTagRender | StringPlusRender | StringConcatRender | OtherRender

  /** The data an aggregator folds the rows into (`aggregated_data_config.data`). */
  type AggData = map<string, Value>

  datatype Env = Env(
    sprintf: (string, Value) -> string,  // sprintf(format, number)
    uriEscape: string -> string,         // URI.escape
    htmlEscape: string -> string,        // ERB::Util.html_escape on a plain String
    escapeOnce: string -> string,        // Haml::Helpers.escape_once
    render: Html.Node -> string,         // the text of a helper's SafeBuffer (link_to with image_tag)
    token: nat -> HexToken,              // SecureRandom.hex for the entity at row position i
    translate: string -> string,         // config.translate(key)
    i18n: string -> string,              // I18n.t(key)
    noFilterResults: string,             // the rendered 'ajax_data_grid/no_filter_results.html' partial
    columnsJson: string)                 // columns.collect(&:js_options).to_json

  datatype Grid = Grid(
    gridId: string,
    columns: seq<Column>,
    activeView: string,
    rows: seq<Entity>,
    anyRows: bool,                              // model.any_rows?
    selected: Entity -> bool,                   // model.row_selected?(entity)
    hasSort: bool,                              // model.has_sort?
    sortBy: Value,                              // model.sort_by
    sortDirection: Value,                       // model.sort_direction
    selectionAll: bool,                         // model.options.selection == :all
    rowTitle: Option<Entity -> Value>,          // table_options[:row_title]
    emptyRows: Value,                           // table_options[:empty_rows]
    cacheKey: Option<Entity -> string>,         // table_options[:cache_key]
    tileBlock: Option<Entity -> Output>,        // tile_config.block (None: no tile config)
    footerBlock: Option<AggData -> Output>,     // table_footer_block
    tilesView: bool,                            // table_options[:tiles_view]
    renderType: RenderType)
}

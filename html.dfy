/** Markup as the Rails view helpers build it, kept as a tree rather than as
    the exact text those helpers print. A SafeBuffer is a `seq<Node>`. */
module Html {
  import opened Prelude
  import opened Values
  import Attrs

  datatype Node =
    | Elem(tag: string, attrs: Attrs.Hash<Value>, kids: seq<Node>)  // content_tag(tag, attrs) { kids }
    | Link(url: Value, attrs: Attrs.Hash<Value>, kids: seq<Node>)   // link_to(kids, url, attrs)
    | Image(src: string)                                            // image_tag(src)
    | Text(s: string)  // a plain String appended to a SafeBuffer: escaped when printed
    | Raw(s: string)   // an html_safe String: printed as it is

  /** `buffer << v.to_s` on a SafeBuffer: a SafeBuffer keeps its markup, any
      other value is appended as text to be escaped. */
  function Piece(v: Value): (n: Node)
    ensures n.Raw? <==> v.Safe?
    ensures n.Raw? || n.Text?
    ensures n.s == ToS(v)
  {
    if v.Safe? then Raw(v.s) else Text(ToS(v))
  }

  /** `{class: c}` */
  function ClassAttr(c: string): Attrs.Hash<Value> {
    [("class", Str(c))]
  }

  /** The class attribute of an element, when it has a string one. */
  function ClassOf(n: Node): Option<string> {
    if n.Elem? then
      var c := Attrs.Get(n.attrs, "class");
      if c.Some? && c.value.Str? then Some(c.value.s) else None
    else None
  }
}

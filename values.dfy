/** The Ruby values the renderer handles: what entities return, what blocks
    and procs return, what column options hold. Only the behaviour the renderer
    relies on is modelled: `to_s`, `blank?`, `is_a?(String)` and `html_safe?`. */
module Values {

  datatype Value =
    | Nil
    | Bool(b: bool)
    | Int(i: int)
    | Float(repr: string)    // a Float; repr is its to_s
    | Decimal(repr: string)  // a BigDecimal; repr is its to_s
    | Str(s: string)         // a plain String
    | Safe(s: string)        // an ActiveSupport::SafeBuffer (an html_safe String)
    | Sym(name: string)      // a Symbol
    | Obj(repr: string)      // any other object; repr is its to_s

  /** `is_a?(String)`: a SafeBuffer is a String too. */
  predicate IsString(v: Value) { v.Str? || v.Safe? }

  /** The characters of Ruby's `\s`. */
  predicate IsSpace(ch: char) {
    ch == ' ' || ch == '\t' || ch == '\n' || ch == '\r' || ch == '\U{B}' || ch == '\U{C}'
  }

  predicate AllSpace(s: string) { forall i :: 0 <= i < |s| ==> IsSpace(s[i]) }

  /** ActiveSupport's `blank?`: nil, false, a whitespace-only String and the
      empty Symbol are blank; numbers and `true` never are. */
  predicate Blank(v: Value) {
    match v
    case Nil => true
    case Bool(b) => !b
    case Str(s) => AllSpace(s)
    case Safe(s) => AllSpace(s)
    case Sym(n) => n == ""
    case _ => false
  }

  /** Decimal digits of a natural number, most significant first. */
  function NatToS(n: nat): (s: string)
    ensures |s| > 0 && forall i :: 0 <= i < |s| ==> '0' <= s[i] <= '9'
    ensures (|s| > 1) == (n >= 10)
  {
    var d := [(48 + n % 10) as char];
    if n < 10 then d else NatToS(n / 10) + d
  }

  /** Ruby's `to_s`. */
  function ToS(v: Value): string {
    match v
    case Nil => ""
    case Bool(b) => if b then "true" else "false"
    case Int(i) => if i < 0 then "-" + NatToS(-i) else NatToS(i)
    case Float(r) => r
    case Decimal(r) => r
    case Str(s) => s
    case Safe(s) => s
    case Sym(n) => n
    case Obj(r) => r
  }

  /** `v.to_s` as a value: a SafeBuffer stays markup, anything else becomes a
      plain String. The result is never nil. */
  function ToSValue(v: Value): (r: Value)
    ensures IsString(r) && ToS(r) == ToS(v)
    ensures r.Safe? <==> v.Safe?
  {
    if v.Safe? then v else Str(ToS(v))
  }

  /** A row entity: the methods it responds to, each with the value it
      returns. `respond_to?(name)` is `name in methods`. */
  datatype Entity = Entity(methods: map<string, Value>)

  const HexDigits: string := "0123456789abcdef"

  /** What `SecureRandom.hex` returns: 32 lower-case hex digits. */
  type HexToken = s: string | |s| == 32 && forall i :: 0 <= i < |s| ==> s[i] in HexDigits
    witness "00000000000000000000000000000000"
}

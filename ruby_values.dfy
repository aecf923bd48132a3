/** The slice of Ruby's object universe that the logging extension touches:
    nil, booleans, integers, strings, symbols, hashes, arrays, exceptions and
    any other object (opaque), together with Ruby's truthiness and the way a
    missing Rack environment entry behaves when it is read or interpolated. */
module RubyValues {

  datatype Option<+T> = None | Some(value: T) {
    function GetOr(default: T): T {
      match this
      case Some(v) => v
      case None => default
    }
  }

  /** A hash key: the extension only ever uses symbols (`:message`, `:level`)
      and the keys handler code passes in. Ruby accepts any object as a key,
      but the extension only compares keys for equality, so symbols and
      strings stand for every kind of key here. */
  datatype Key = Sym(name: string) | StrKey(text: string)

  /** A Ruby value. `Other` stands for any object the extension never looks
      into; its identity is all that matters. */
  datatype Value =
    | Nil
    | Bool(b: bool)
    | Int(i: int)
    | Str(s: string)
    | Symbol(name: string)
    | Array(items: seq<Value>)
    | Hash(entries: map<Key, Value>)
    | Exc(exc: Exception)
    | Other(id: nat)

  /** An exception object: its class name (`nil` for an anonymous class), its
      message, its backtrace (`nil` when it was never raised) and its cause,
      which in Ruby may be any value. The datatype is inductive, so every
      cause chain is finite. */
  datatype Exception = Exception(
    className: Option<string>,
    message: string,
    backtrace: Option<seq<string>>,
    cause: Value)

  /** Ruby truthiness: only `nil` and `false` are falsy. */
  predicate Truthy(v: Value) {
    !(v.Nil? || v == Bool(false))
  }

  /** `"#{x}"` for an optional string: `nil` interpolates as the empty string. */
  function Interpolate(o: Option<string>): (r: string)
    ensures o.Some? ==> r == o.value
    ensures o.None? ==> r == ""
  {
    o.GetOr("")
  }

  /** `env[k]` on a Rack environment: `nil` when the key is absent. */
  function Lookup(env: map<string, string>, k: string): (r: Option<string>)
    ensures r.Some? <==> k in env
    ensures r.Some? ==> r.value == env[k]
  {
    if k in env then Some(env[k]) else None
  }

  /** The Ruby value of an optional string (a string or `nil`). */
  function StrOrNil(o: Option<string>): (r: Value)
    ensures o.Some? ==> r == Str(o.value)
    ensures o.None? ==> r == Nil
  {
    if o.Some? then Str(o.value) else Nil
  }
}

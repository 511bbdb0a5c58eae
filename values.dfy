/**
 * The Python values that flow through the plugins' keyword-argument and
 * output dicts, with the parts of Python's runtime the plugins rely on:
 * `str()`, `repr()`, truthiness, `len()`/iteration and `dict.get`.
 */
module Values {
  import opened Wrappers
  import opened Text

  /**
   * A Python value. A float carries its value and its printed form, since
   * float formatting is not modelled; a dict keeps its entries in insertion
   * order; a tensor is known by its shape and dtype only.
   */
  datatype Value =
    | Str(s: string)
    | Int(i: int)
    | Float(x: real, printed: string)
    | Bool(b: bool)
    | NoneValue
    | List(items: seq<Value>)
    | Tuple(items: seq<Value>)
    | Dict(entries: seq<(string, Value)>)
    | Tensor(shape: seq<int>, dtype: string)

  /** A keyword-argument or output dict, keyed by parameter name. */
  type Bag = map<string, Value>

  /** `d.get(key, default)`. */
  function Get(d: Bag, key: string, default: Value): (r: Value)
    ensures key in d ==> r == d[key]
    ensures key !in d ==> r == default
  {
    if key in d then d[key] else default
  }

  /** The value the last assignment to `key` left in a dict: `d.get(key)`. */
  function DictGet(entries: seq<(string, Value)>, key: string): (r: Option<Value>)
    ensures r.None? <==> forall k :: 0 <= k < |entries| ==> entries[k].0 != key
    decreases |entries|
  {
    if entries == [] then None
    else if entries[|entries| - 1].0 == key then Some(entries[|entries| - 1].1)
    else DictGet(entries[..|entries| - 1], key)
  }

  /** A value `DictGet` finds is the one of the last entry for `key`: no later entry has that key. */
  lemma {:induction false} DictGetLastEntry(entries: seq<(string, Value)>, key: string)
    requires DictGet(entries, key).Some?
    ensures exists k :: 0 <= k < |entries| && entries[k] == (key, DictGet(entries, key).value) &&
              forall j :: k < j < |entries| ==> entries[j].0 != key
    decreases |entries|
  {
    var n := |entries| - 1;
    var v := DictGet(entries, key).value;
    if entries[n].0 == key {
      assert entries[n] == (key, v);
    } else {
      var init := entries[..n];
      assert DictGet(init, key) == Some(v);
      DictGetLastEntry(init, key);
      var k :| 0 <= k < |init| && init[k] == (key, v) && forall j :: k < j < |init| ==> init[j].0 != key;
      forall j | k < j < |entries|
        ensures entries[j].0 != key
      {
        if j < n {
          assert entries[j] == init[j];
        }
      }
      assert entries[k] == (key, v);
    }
  }

  /** `d[key] = v` on a dict being built, with `key` not yet present: a later assignment wins over earlier ones. */
  function Put(entries: seq<(string, Value)>, key: string, v: Value): (r: seq<(string, Value)>)
    ensures r == entries + [(key, v)]
    ensures forall k {:trigger DictGet(r, k)} :: DictGet(r, k) == if k == key then Some(v) else DictGet(entries, k)
  {
    var r := entries + [(key, v)];
    assert r[..|r| - 1] == entries;
    r
  }

  /** `bool(v)`; a tensor counts as true (multi-element tensors raise in Python). */
  predicate Truthy(v: Value)
  {
    match v
    case Str(s) => s != ""
    case Int(i) => i != 0
    case Float(x, _) => x != 0.0
    case Bool(b) => b
    case NoneValue => false
    case List(items) => items != []
    case Tuple(items) => items != []
    case Dict(entries) => entries != []
    case Tensor(_, _) => true
  }

  /** Values that `len()`, `list()` and `for` accept. */
  predicate Iterable(v: Value)
  {
    v.Str? || v.List? || v.Tuple? || v.Dict?
  }

  /** `list(v)`: the elements iteration yields (the keys, for a dict). */
  function Elements(v: Value): (r: seq<Value>)
    requires Iterable(v)
    ensures (v.List? || v.Tuple?) ==> r == v.items
  {
    match v
    case Str(s) => seq(|s|, k requires 0 <= k < |s| => Str([s[k]]))
    case List(items) => items
    case Tuple(items) => items
    case Dict(entries) => seq(|entries|, k requires 0 <= k < |entries| => Str(entries[k].0))
  }

  /** Values Python compares with numbers: `int`, `float` and `bool`. */
  predicate IsNumber(v: Value)
  {
    v.Int? || v.Float? || v.Bool?
  }

  function AsReal(v: Value): real
    requires IsNumber(v)
  {
    match v
    case Int(i) => i as real
    case Float(x, _) => x
    case Bool(b) => if b then 1.0 else 0.0
  }

  /** Values Python accepts as an integer index: `int` and `bool`. */
  predicate IsInteger(v: Value)
  {
    v.Int? || v.Bool?
  }

  function AsInt(v: Value): int
    requires IsInteger(v)
  {
    match v
    case Int(i) => i
    case Bool(b) => if b then 1 else 0
  }

  function HexDigit(d: nat): char
    requires d < 16
  {
    "0123456789abcdef"[d]
  }

  /** The quote `repr()` puts around a string: `"` only when `s` holds `'` and no `"`. */
  function QuoteFor(s: string): char
  {
    if '\'' in s && '"' !in s then '"' else '\''
  }

  function EscapeChar(c: char, quote: char): string
  {
    if c == quote || c == '\\' then ['\\', c]
    else if c == '\t' then "\\t"
    else if c == '\n' then "\\n"
    else if c == '\r' then "\\r"
    else if c < ' ' || c == '\U{7F}' then "\\x" + [HexDigit(c as int / 16), HexDigit(c as int % 16)]
    else [c]
  }

  function Escape(s: string, quote: char): string
  {
    if s == [] then "" else EscapeChar(s[0], quote) + Escape(s[1..], quote)
  }

  /** `repr(s)` for a string. */
  function QuoteString(s: string): string
  {
    var q := QuoteFor(s);
    [q] + Escape(s, q) + [q]
  }

  function IntListRepr(xs: seq<int>): string
  {
    "[" + Join(", ", seq(|xs|, k requires 0 <= k < |xs| => IntToString(xs[k]))) + "]"
  }

  /** `repr(v)`. */
  function Repr(v: Value): string
  {
    match v
    case Str(s) => QuoteString(s)
    case Int(i) => IntToString(i)
    case Float(_, printed) => printed
    case Bool(b) => if b then "True" else "False"
    case NoneValue => "None"
    case List(items) =>
      "[" + Join(", ", seq(|items|, k requires 0 <= k < |items| => Repr(items[k]))) + "]"
    case Tuple(items) =>
      if |items| == 1 then "(" + Repr(items[0]) + ",)"
      else "(" + Join(", ", seq(|items|, k requires 0 <= k < |items| => Repr(items[k]))) + ")"
    case Dict(entries) =>
      "{" + Join(", ", seq(|entries|, k requires 0 <= k < |entries| =>
                             QuoteString(entries[k].0) + ": " + Repr(entries[k].1))) + "}"
    case Tensor(shape, dtype) => "tensor(shape=" + IntListRepr(shape) + ", dtype=" + dtype + ")"
  }

  /** `str(v)`: a string is itself, anything else prints as its `repr()`. */
  function ToStr(v: Value): (r: string)
    ensures v.Str? ==> r == v.s
    ensures !v.Str? ==> r == Repr(v)
  {
    if v.Str? then v.s else Repr(v)
  }

  /** Python's `type(v).__name__`. */
  function TypeName(v: Value): string
  {
    match v
    case Str(_) => "str"
    case Int(_) => "int"
    case Float(_, _) => "float"
    case Bool(_) => "bool"
    case NoneValue => "NoneType"
    case List(_) => "list"
    case Tuple(_) => "tuple"
    case Dict(_) => "dict"
    case Tensor(_, _) => "Tensor"
  }
}

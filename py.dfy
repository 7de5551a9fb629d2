/** The dynamically typed values that the support agent passes around in
    dictionaries (ticket input, the state record, escalation data, knowledge
    base entries), and the optional value of Python's `None`. */
module Py {

  datatype Option<+T> = None | Some(value: T) {
    function GetOr(default: T): T {
      match this
      case Some(v) => v
      case None => default
    }
  }

  /** A Python/JSON value. `DictV` keys are strings, as in every dictionary
      the agent builds. */
  datatype Value =
    | NoneV
    | BoolV(b: bool)
    | IntV(i: int)
    | FloatV(r: real)
    | StrV(s: string)
    | ListV(items: seq<Value>)
    | DictV(fields: map<string, Value>)

  /** `isinstance(v, int)`: in Python `bool` is a subclass of `int`. */
  predicate IsInt(v: Value) {
    v.IntV? || v.BoolV?
  }

  /** The integer an `int` (or `bool`) value compares as. */
  function IntOf(v: Value): int
    requires IsInt(v)
  {
    match v
    case IntV(i) => i
    case BoolV(b) => if b then 1 else 0
  }

  /** `len(v)`, or `None` where Python raises `TypeError`. */
  function Len(v: Value): (n: Option<nat>)
    ensures v.ListV? ==> n == Some(|v.items|)
    ensures n.None? <==> !(v.ListV? || v.StrV? || v.DictV?)
  {
    match v
    case ListV(items) => Some(|items|)
    case StrV(s) => Some(|s|)
    case DictV(m) => Some(|m|)
    case _ => None
  }

  /** `d.get(key, default)` on a dictionary. */
  function Get(d: map<string, Value>, key: string, default: Value): (v: Value)
    ensures key in d ==> v == d[key]
    ensures key !in d ==> v == default
  {
    if key in d then d[key] else default
  }

  function StrList(ss: seq<string>): (v: Value)
    ensures v.ListV? && |v.items| == |ss|
    ensures forall i :: 0 <= i < |ss| ==> v.items[i] == StrV(ss[i])
  {
    ListV(seq(|ss|, i requires 0 <= i < |ss| => StrV(ss[i])))
  }

  function OptStr(o: Option<string>): Value {
    match o
    case Some(s) => StrV(s)
    case None => NoneV
  }
}

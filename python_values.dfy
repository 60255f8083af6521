/** Python values as the two handlers see them: DynamoDB items, JSON documents
    and boto3 responses. A Python `dict` with string keys is a `Dict`; the
    merge `{**a, **b}` is Dafny's right-biased map union `a + b`. */
module PyValues {

  datatype Option<+T> = None | Some(value: T)

  datatype Value =
    | Null
    | Bool(b: bool)
    | Num(n: int)
    | Str(s: string)
    | List(items: seq<Value>)
    | Obj(fields: map<string, Value>)

  type Dict = map<string, Value>

  /** `d.get(key, default)` */
  function Get(d: Dict, key: string, default: Value): Value
  {
    if key in d then d[key] else default
  }

  function LowerChar(c: char): char
  {
    if 'A' <= c <= 'Z' then (c as int + 32) as char else c
  }

  /** `s.lower()` on ASCII letters; the handlers only compare the result with
      the ASCII word "active", and no other character lowers to one of its letters. */
  function Lower(s: string): string
  {
    seq(|s|, i requires 0 <= i < |s| => LowerChar(s[i]))
  }

  /** `len(v)`; None where Python raises TypeError */
  function Len(v: Value): Option<nat>
  {
    match v
    case List(xs) => Some(|xs|)
    case Str(s) => Some(|s|)
    case Obj(m) => Some(|m|)
    case _ => None
  }

  /** The elements a `for` loop or a comprehension visits in `v`: a string
      yields its characters; None where iteration raises TypeError. Iterating
      a dict (its keys, in insertion order) has no counterpart over Dafny maps. */
  function Iter(v: Value): Option<seq<Value>>
  {
    match v
    case List(xs) => Some(xs)
    case Str(s) => Some(seq(|s|, i requires 0 <= i < |s| => Str([s[i]])))
    case _ => None
  }

  /** `str(v)` as an f-string renders it: a string is itself, any other value
      is rendered by `show`, which stands for Python's own rendering. */
  function Text(show: Value -> string, v: Value): string
  {
    if v.Str? then v.s else show(v)
  }

  /** `prefix + mid + suffix` determines `mid` once the prefix and suffix are known. */
  lemma {:induction false} Unframe(prefix: string, a: string, b: string, suffix: string)
    requires prefix + a + suffix == prefix + b + suffix
    ensures a == b
  {
    var s := prefix + a + suffix;
    assert a == s[|prefix|..|s| - |suffix|];
    assert b == s[|prefix|..|s| - |suffix|];
  }
}

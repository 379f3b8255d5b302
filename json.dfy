/** Structured JSON values as the protocol sees them after decoding, and a substring test on strings. */
module Json {

  import opened Wrappers

  /** A decoded JSON value; numbers are integers only. `Null` is Python's `None` where any value is allowed. */
  datatype Value =
    | Null
    | Bool(b: bool)
    | Num(n: int)
    | Str(s: string)
    | Arr(items: seq<Value>)
    | Obj(fields: map<string, Value>)

  /** A JSON-RPC correlation token: a string or a number. */
  datatype Id = StrId(s: string) | NumId(n: int)

  /** The wire value of an optional id: the token itself, or null. */
  function IdValue(id: Option<Id>): (v: Value)
    ensures v == Null <==> id.None?
    ensures v.Str? ==> id == Some(StrId(v.s))
    ensures v.Num? ==> id == Some(NumId(v.n))
  {
    match id
    case None => Null
    case Some(StrId(s)) => Str(s)
    case Some(NumId(n)) => Num(n)
  }

  /** `sub` occurs in `s` starting at position `i`. */
  predicate OccursAt(s: string, sub: string, i: int) {
    0 <= i <= |s| - |sub| && s[i..i + |sub|] == sub
  }

  /** `sub in s` on Python strings. */
  predicate Contains(s: string, sub: string) {
    exists i | 0 <= i <= |s| - |sub| :: OccursAt(s, sub, i)
  }

  /** A string built around `sub` contains it. */
  lemma ContainsMiddle(prefix: string, sub: string, suffix: string)
    ensures Contains(prefix + sub + suffix, sub)
  {
    var s := prefix + sub + suffix;
    assert s[|prefix|..|prefix| + |sub|] == sub;
    assert OccursAt(s, sub, |prefix|);
  }
}

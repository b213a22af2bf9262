/** Python values as they appear in a parsed argument namespace or in an
    option store, with Python's truthiness, and the few conversions the
    server applies to them (`dict(...)`, `tuple(...)`, `str.lower`). */
module Values {

  datatype Option<+T> = None | Some(value: T)

  datatype Result<+T> = Success(value: T) | Failure(error: string)

  /** A Python value. `DictV` has string keys: every dictionary the server
      builds is keyed by cookie, header or query-parameter names. */
  datatype Value =
    | NoneV
    | BoolV(b: bool)
    | IntV(i: int)
    | FloatV(f: real)
    | StrV(s: string)
    | ListV(items: seq<Value>)
    | TupleV(elems: seq<Value>)
    | DictV(entries: map<string, Value>)

  /** Python's `bool(v)`: None, False, zero and empty containers are falsy. */
  predicate Truthy(v: Value) {
    match v
    case NoneV => false
    case BoolV(b) => b
    case IntV(i) => i != 0
    case FloatV(f) => f != 0.0
    case StrV(s) => s != ""
    case ListV(items) => items != []
    case TupleV(elems) => elems != []
    case DictV(entries) => entries != map[]
  }

  /** An argparse namespace or an option store: attribute name to value. */
  type Store = map<string, Value>

  /** `getattr(ns, name)` on a namespace whose every declared destination
      defaults to None, and `options.get(name)` on an option store. */
  function Get(ns: Store, name: string): Value {
    if name in ns then ns[name] else NoneV
  }

  function Lookup(ns: Store, name: string): Option<Value> {
    if name in ns then Some(ns[name]) else None
  }

  /** Two stores that agree on every key are the same store. */
  lemma StoreEquality(a: Store, b: Store)
    requires forall k :: Lookup(a, k) == Lookup(b, k)
    ensures a == b
  {
    assert forall k :: k in a <==> Lookup(a, k).Some?;
    assert forall k :: k in b <==> Lookup(b, k).Some?;
    assert forall k :: k in a ==> a[k] == Lookup(a, k).value;
    assert forall k :: k in b ==> b[k] == Lookup(b, k).value;
  }

  function Or<T>(a: Option<T>, b: Option<T>): Option<T> {
    if a.Some? then a else b
  }

  function Reverse<T>(s: seq<T>): (r: seq<T>)
    ensures |r| == |s|
    ensures forall i :: 0 <= i < |s| ==> r[i] == s[|s| - 1 - i]
  {
    if s == [] then [] else Reverse(s[1..]) + [s[0]]
  }

  lemma {:induction false} ReverseAppend<T>(a: seq<T>, b: seq<T>)
    ensures Reverse(a + b) == Reverse(b) + Reverse(a)
  {
    var r, l := Reverse(a + b), Reverse(b) + Reverse(a);
    assert |r| == |l|;
    forall i | 0 <= i < |r| ensures r[i] == l[i] {
      if i < |b| {
        assert l[i] == Reverse(b)[i] == b[|b| - 1 - i];
      } else {
        assert l[i] == Reverse(a)[i - |b|] == a[|a| - 1 - (i - |b|)];
      }
    }
  }

  /** `str.lower()` on the ASCII letters. */
  function LowerChar(c: char): (r: char)
    ensures 'A' <= c <= 'Z' ==> 'a' <= r <= 'z'
    ensures !('A' <= c <= 'Z') ==> r == c
  {
    if 'A' <= c <= 'Z' then (c as int - 'A' as int + 'a' as int) as char else c
  }

  function Lower(s: string): (r: string)
    ensures |r| == |s|
    ensures forall i :: 0 <= i < |s| ==> r[i] == LowerChar(s[i])
  {
    seq(|s|, i requires 0 <= i < |s| => LowerChar(s[i]))
  }

  /** `x.lower()` for a string element; any other element is kept as it is. */
  function LowerValue(v: Value): Value {
    if v.StrV? then StrV(Lower(v.s)) else v
  }

  /** The string elements of a list or tuple, in order. */
  function Strings(v: Value): seq<string> {
    if v.ListV? then StringItems(v.items)
    else if v.TupleV? then StringItems(v.elems)
    else []
  }

  function StringItems(items: seq<Value>): seq<string> {
    if items == [] then []
    else (if items[0].StrV? then [items[0].s] else []) + StringItems(items[1..])
  }

  /** A 2-element list or tuple whose first element is a string: one entry of
      the list that `dict(...)` turns into a dictionary. */
  predicate IsPair(v: Value) {
    (v.TupleV? && |v.elems| == 2 && v.elems[0].StrV?) ||
    (v.ListV? && |v.items| == 2 && v.items[0].StrV?)
  }

  function PairKey(v: Value): string requires IsPair(v) {
    if v.TupleV? then v.elems[0].s else v.items[0].s
  }

  function PairValue(v: Value): Value requires IsPair(v) {
    if v.TupleV? then v.elems[1] else v.items[1]
  }

  /** `dict(pairs)`: later pairs overwrite earlier ones with the same key. */
  function PairsToMap(items: seq<Value>): map<string, Value>
    decreases |items|
  {
    if items == [] then map[]
    else
      var last := items[|items| - 1];
      var m := PairsToMap(items[..|items| - 1]);
      if IsPair(last) then m[PairKey(last) := PairValue(last)] else m
  }

  function AsDict(v: Value): Value {
    match v
    case DictV(_) => v
    case ListV(items) => DictV(PairsToMap(items))
    case TupleV(elems) => DictV(PairsToMap(elems))
    case _ => DictV(map[])
  }

  /** `tuple(v)` for a list or tuple. */
  function AsTuple(v: Value): Value {
    match v
    case ListV(items) => TupleV(items)
    case TupleV(_) => v
    case _ => TupleV([])
  }
}

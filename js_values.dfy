/** The JavaScript values the client handles: parsed JSON bodies, request payloads and the
    positional order rows. An object is its own enumerable properties in insertion order. */
module JsValues {

  import opened Wrappers
  import opened Strings

  datatype Value =
    | Undefined
    | Null
    | Bool(b: bool)
    | Num(n: int)
    | Str(s: string)
    | Arr(items: seq<Value>)
    | Obj(fields: seq<Field>)

  datatype Field = Field(key: string, val: Value)

  function Keys(fields: seq<Field>): (ks: seq<string>)
    ensures |ks| == |fields| && forall i :: 0 <= i < |fields| ==> ks[i] == fields[i].key
  {
    if fields == [] then [] else [fields[0].key] + Keys(fields[1..])
  }

  predicate Distinct(ks: seq<string>)
  {
    forall i, j :: 0 <= i < j < |ks| ==> ks[i] != ks[j]
  }

  /** Property read `obj[k]` on a plain object: the value stored under `k`, if any. */
  function Lookup(fields: seq<Field>, k: string): (r: Option<Value>)
    ensures r.Some? <==> k in Keys(fields)
    ensures r.Some? ==> Field(k, r.value) in fields
  {
    if fields == [] then None
    else if fields[0].key == k then Some(fields[0].val)
    else Lookup(fields[1..], k)
  }

  /** Property assignment `obj[k] = v`: an existing key keeps its position and takes the new
      value, a new key is appended. */
  function Put(fields: seq<Field>, k: string, v: Value): (r: seq<Field>)
    ensures Keys(r) == if k in Keys(fields) then Keys(fields) else Keys(fields) + [k]
  {
    if fields == [] then [Field(k, v)]
    else if fields[0].key == k then [Field(k, v)] + fields[1..]
    else
      var rest := Put(fields[1..], k, v);
      assert ([fields[0]] + rest)[1..] == rest;
      [fields[0]] + rest
  }

  lemma {:induction false} PutLookup(fields: seq<Field>, k: string, v: Value, j: string)
    ensures Lookup(Put(fields, k, v), j) == if j == k then Some(v) else Lookup(fields, j)
  {
    if fields != [] && fields[0].key != k {
      PutLookup(fields[1..], k, v, j);
    }
  }

  /** Object spread `{...target, ...source}`: the properties of `source` assigned one by one,
      in order, over those of `target`. */
  function Spread(target: seq<Field>, source: seq<Field>): seq<Field>
    decreases source
  {
    if source == [] then target
    else Spread(Put(target, source[0].key, source[0].val), source[1..])
  }

  /** A property of the spread object comes from `source` when `source` has it (later keys
      win), from `target` otherwise. */
  lemma {:induction false} SpreadLookup(target: seq<Field>, source: seq<Field>, j: string)
    requires Distinct(Keys(source))
    ensures Lookup(Spread(target, source), j) ==
            if j in Keys(source) then Lookup(source, j) else Lookup(target, j)
    decreases source
  {
    if source != [] {
      var f := source[0];
      assert Distinct(Keys(source[1..]));
      SpreadLookup(Put(target, f.key, f.val), source[1..], j);
      PutLookup(target, f.key, f.val, j);
    }
  }

  lemma PutKeys(fields: seq<Field>, k: string, v: Value)
    ensures |Keys(fields)| <= |Keys(Put(fields, k, v))|
    ensures Keys(Put(fields, k, v))[..|fields|] == Keys(fields)
    ensures forall j :: j in Keys(Put(fields, k, v)) <==> j in Keys(fields) || j == k
    ensures Distinct(Keys(fields)) ==> Distinct(Keys(Put(fields, k, v)))
  {
  }

  /** Spreading never reorders or drops the properties already there: their keys are a prefix
      of the result's. */
  lemma {:induction false} SpreadKeepsOrder(target: seq<Field>, source: seq<Field>)
    ensures Keys(target) <= Keys(Spread(target, source))
    decreases source
  {
    if source != [] {
      var t' := Put(target, source[0].key, source[0].val);
      assert Keys(target) <= Keys(t');
      SpreadKeepsOrder(t', source[1..]);
      PrefixTransitive(Keys(target), Keys(t'), Keys(Spread(t', source[1..])));
    }
  }

  lemma PrefixTransitive(a: seq<string>, b: seq<string>, c: seq<string>)
    requires a <= b && b <= c
    ensures a <= c
  {
    assert b[..|a|] == c[..|b|][..|a|];
  }

  lemma {:induction false} SpreadKeepsDistinct(target: seq<Field>, source: seq<Field>)
    requires Distinct(Keys(target))
    ensures Distinct(Keys(Spread(target, source)))
    decreases source
  {
    if source != [] {
      PutKeys(target, source[0].key, source[0].val);
      SpreadKeepsDistinct(Put(target, source[0].key, source[0].val), source[1..]);
    }
  }

  /** The spread object has exactly the keys of `target` and of `source`. */
  lemma {:induction false} SpreadKeySet(target: seq<Field>, source: seq<Field>, k: string)
    ensures k in Keys(Spread(target, source)) <==> k in Keys(target) || k in Keys(source)
    decreases source
  {
    if source != [] {
      PutKeys(target, source[0].key, source[0].val);
      SpreadKeySet(Put(target, source[0].key, source[0].val), source[1..], k);
    }
  }

  /** JavaScript truthiness. Numbers are integers here, so NaN and -0 do not arise. */
  predicate Truthy(v: Value)
  {
    match v
    case Undefined => false
    case Null => false
    case Bool(b) => b
    case Num(n) => n != 0
    case Str(s) => s != ""
    case Arr(_) => true
    case Obj(_) => true
  }

  predicate Nullish(v: Value) { v == Undefined || v == Null }

  /** Property read `v.k`: `None` when the read throws a TypeError (`v` is null or undefined);
      a missing property reads as `undefined`. Only plain objects carry named properties. */
  function Member(v: Value, k: string): (r: Option<Value>)
    ensures r.None? <==> Nullish(v)
    ensures v.Obj? && k in Keys(v.fields) ==> r == Lookup(v.fields, k)
    ensures !Nullish(v) && !(v.Obj? && k in Keys(v.fields)) ==> r == Some(Undefined)
  {
    match v
    case Undefined => None
    case Null => None
    case Obj(fields) => Some(Lookup(fields, k).GetOr(Undefined))
    case _ => Some(Undefined)
  }

  /** Index read `v[i]`: `None` when the read throws (`v` is null or undefined); an array
      gives its element, a string its one-character substring, an object its property named by
      the decimal rendering of `i`, and anything out of range reads as `undefined`. */
  function Index(v: Value, i: nat): (r: Option<Value>)
    ensures r.None? <==> Nullish(v)
    ensures v.Arr? ==> r == Some(if i < |v.items| then v.items[i] else Undefined)
  {
    match v
    case Undefined => None
    case Null => None
    case Arr(items) => Some(if i < |items| then items[i] else Undefined)
    case Str(s) => Some(if i < |s| then Str([s[i]]) else Undefined)
    case Obj(fields) => Some(Lookup(fields, NatToString(i)).GetOr(Undefined))
    case _ => Some(Undefined)
  }

  /** `String(v)`, the message `new Error(v)` carries. */
  function ToJsString(v: Value): string
    decreases v
  {
    match v
    case Undefined => "undefined"
    case Null => "null"
    case Bool(b) => if b then "true" else "false"
    case Num(n) => IntToString(n)
    case Str(s) => s
    case Arr(items) => JoinElements(items)
    case Obj(_) => "[object Object]"
  }

  /** `Array.prototype.join(',')`: null and undefined elements render as empty strings. */
  function JoinElements(items: seq<Value>): string
    decreases items
  {
    if items == [] then ""
    else
      var head := if Nullish(items[0]) then "" else ToJsString(items[0]);
      if |items| == 1 then head else head + "," + JoinElements(items[1..])
  }
}

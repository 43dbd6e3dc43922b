/**
 * The JSON-like values the node passes around (n8n's `IDataObject`, request
 * bodies, query objects, API responses), with the handful of JavaScript
 * semantics the node relies on: truthiness, `||`, property read, property
 * assignment, `delete`, object spread and `String(v)`.
 *
 * An object is the ordered list of its own enumerable entries, in insertion
 * order. JavaScript lists integer-like keys first, in ascending order, in
 * `Object.entries` and in spread; that reordering is not modelled (the keys
 * the node uses are not integer-like). `Undefined` is a value, because an object can hold a key whose value
 * is `undefined`; reading an absent key also yields `Undefined`.
 */
module Json {
  import opened Results
  import opened Text

  datatype Value =
    | Undefined
    | Null
    | Bool(b: bool)
    | Num(n: int)
    | Str(s: string)
    | Arr(items: seq<Value>)
    | Obj(fields: seq<Field>)

  datatype Field = Field(key: string, value: Value)

  /** `undefined`, `null` or `''`: the values the helpers treat as missing. */
  predicate IsBlank(v: Value) {
    v == Undefined || v == Null || v == Str("")
  }

  /** JavaScript truthiness (numbers are integers in this model, so NaN does not arise). */
  predicate Truthy(v: Value) {
    match v
    case Undefined => false
    case Null => false
    case Bool(b) => b
    case Num(n) => n != 0
    case Str(s) => s != ""
    case Arr(_) => true
    case Obj(_) => true
  }

  /** `a || b` */
  function Or(a: Value, b: Value): (r: Value)
    ensures Truthy(a) ==> r == a
    ensures !Truthy(a) ==> r == b
  {
    if Truthy(a) then a else b
  }

  // ---------------------------------------------------------------------------
  // Objects as ordered entry lists

  function KeySet(fs: seq<Field>): set<string> {
    if fs == [] then {} else {fs[0].key} + KeySet(fs[1..])
  }

  /** A JavaScript object never holds the same key twice. */
  predicate DistinctKeys(fs: seq<Field>) {
    fs == [] || (fs[0].key !in KeySet(fs[1..]) && DistinctKeys(fs[1..]))
  }

  /** `obj[key]` on an object: the value stored under `key`, or `Undefined`. */
  function Lookup(fs: seq<Field>, key: string): Value {
    if fs == [] then Undefined
    else if fs[0].key == key then fs[0].value
    else Lookup(fs[1..], key)
  }

  /** `obj[key] = v`: an existing key keeps its position, a new key goes last. */
  function Put(fs: seq<Field>, key: string, v: Value): seq<Field> {
    if fs == [] then [Field(key, v)]
    else if fs[0].key == key then [Field(key, v)] + fs[1..]
    else [fs[0]] + Put(fs[1..], key, v)
  }

  /** `delete obj[key]` */
  function Delete(fs: seq<Field>, key: string): seq<Field> {
    if fs == [] then []
    else if fs[0].key == key then Delete(fs[1..], key)
    else [fs[0]] + Delete(fs[1..], key)
  }

  /** `{...base, ...extra}`: the entries of `extra` assigned one by one onto `base`. */
  function Spread(base: seq<Field>, extra: seq<Field>): seq<Field>
    decreases |extra|
  {
    if extra == [] then base else Spread(Put(base, extra[0].key, extra[0].value), extra[1..])
  }

  /** The own entries `{...v}` copies: an object's entries, an array's or string's indexed elements, nothing otherwise. */
  function SpreadFields(v: Value): seq<Field> {
    match v
    case Obj(fs) => fs
    case Arr(items) => seq(|items|, i requires 0 <= i < |items| => Field(NatToString(i), items[i]))
    case Str(s) => seq(|s|, i requires 0 <= i < |s| => Field(NatToString(i), Str([s[i]])))
    case _ => []
  }

  /**
   * `v.key` for the named keys the node reads (none of them is an index or an
   * inherited property): reading from `undefined` or `null` throws a TypeError.
   */
  function Get(v: Value, key: string): Result<Value> {
    match v
    case Undefined => Err("Cannot read properties of undefined (reading '" + key + "')")
    case Null => Err("Cannot read properties of null (reading '" + key + "')")
    case Obj(fs) => Ok(Lookup(fs, key))
    case _ => Ok(Undefined)
  }

  /** `v.key` where `v` is known not to be `undefined` or `null`. */
  function Member(v: Value, key: string): Value {
    if v.Obj? then Lookup(v.fields, key) else Undefined
  }

  /** What `for (const x of v)` and `push(...v)` iterate over. */
  function IterateItems(v: Value): Result<seq<Value>> {
    match v
    case Arr(items) => Ok(items)
    case Str(s) => Ok(seq(|s|, i requires 0 <= i < |s| => Str([s[i]])))
    case _ => Err("object is not iterable")
  }

  /** The elements `v.map(...)` visits: only arrays have a `map` method. */
  function MapItems(v: Value): Result<seq<Value>> {
    if v.Arr? then Ok(v.items) else Err("map is not a function")
  }

  /** `String(v)` */
  function ToText(v: Value): string
    decreases v, 1
  {
    match v
    case Undefined => "undefined"
    case Null => "null"
    case Bool(b) => if b then "true" else "false"
    case Num(n) => IntToString(n)
    case Str(s) => s
    case Arr(items) => JoinValues(items, ",")
    case Obj(_) => "[object Object]"
  }

  /** `items.join(sep)`: `undefined` and `null` elements print as the empty string. */
  function JoinValues(items: seq<Value>, sep: string): string
    decreases items, 0
  {
    if items == [] then ""
    else
      var first := if items[0] == Undefined || items[0] == Null then "" else ToText(items[0]);
      if |items| == 1 then first else first + sep + JoinValues(items[1..], sep)
  }

  // ---------------------------------------------------------------------------
  // Laws of the object operations

  lemma {:induction false} LookupAbsent(fs: seq<Field>, key: string)
    requires key !in KeySet(fs)
    ensures Lookup(fs, key) == Undefined
  {
    if fs != [] { LookupAbsent(fs[1..], key); }
  }

  /** Reading a key gives the value of its first entry. */
  lemma {:induction false} LookupFirst(fs: seq<Field>, key: string, i: nat)
    requires i < |fs| && fs[i].key == key
    requires forall j :: 0 <= j < i ==> fs[j].key != key
    ensures Lookup(fs, key) == fs[i].value
  {
    if i > 0 { LookupFirst(fs[1..], key, i - 1); }
  }

  lemma {:induction false} LookupPut(fs: seq<Field>, key: string, v: Value, other: string)
    ensures Lookup(Put(fs, key, v), other) == if other == key then v else Lookup(fs, other)
  {
    if fs != [] && fs[0].key != key { LookupPut(fs[1..], key, v, other); }
  }

  lemma {:induction false} KeySetPut(fs: seq<Field>, key: string, v: Value)
    ensures KeySet(Put(fs, key, v)) == KeySet(fs) + {key}
  {
    if fs != [] && fs[0].key != key { KeySetPut(fs[1..], key, v); }
  }

  lemma {:induction false} DistinctPut(fs: seq<Field>, key: string, v: Value)
    requires DistinctKeys(fs)
    ensures DistinctKeys(Put(fs, key, v))
  {
    if fs != [] && fs[0].key != key {
      DistinctPut(fs[1..], key, v);
      KeySetPut(fs[1..], key, v);
    }
  }

  /** Assigning a key the object does not have appends it. */
  lemma {:induction false} PutAbsent(fs: seq<Field>, key: string, v: Value)
    requires key !in KeySet(fs)
    ensures Put(fs, key, v) == fs + [Field(key, v)]
  {
    if fs != [] { PutAbsent(fs[1..], key, v); }
  }

  /** Every entry after an assignment is the assigned one or an entry that was there before. */
  lemma {:induction false} PutEntries(fs: seq<Field>, key: string, v: Value, i: int)
    requires 0 <= i < |Put(fs, key, v)|
    ensures Put(fs, key, v)[i] == Field(key, v) || Put(fs, key, v)[i] in fs
  {
    if fs != [] && fs[0].key != key && i > 0 { PutEntries(fs[1..], key, v, i - 1); }
  }

  lemma {:induction false} LookupDelete(fs: seq<Field>, key: string, other: string)
    ensures Lookup(Delete(fs, key), other) == if other == key then Undefined else Lookup(fs, other)
  {
    if fs != [] { LookupDelete(fs[1..], key, other); }
  }

  lemma {:induction false} KeySetDelete(fs: seq<Field>, key: string)
    ensures KeySet(Delete(fs, key)) == KeySet(fs) - {key}
  {
    if fs != [] { KeySetDelete(fs[1..], key); }
  }

  /** Spread: a key of `extra` takes its value from `extra`, any other key keeps its value in `base`. */
  lemma {:induction false} LookupSpread(base: seq<Field>, extra: seq<Field>, key: string)
    requires DistinctKeys(extra)
    ensures Lookup(Spread(base, extra), key) == if key in KeySet(extra) then Lookup(extra, key) else Lookup(base, key)
    decreases |extra|
  {
    if extra != [] {
      LookupSpread(Put(base, extra[0].key, extra[0].value), extra[1..], key);
      LookupPut(base, extra[0].key, extra[0].value, key);
    }
  }

  lemma {:induction false} KeySetSpread(base: seq<Field>, extra: seq<Field>)
    ensures KeySet(Spread(base, extra)) == KeySet(base) + KeySet(extra)
    decreases |extra|
  {
    if extra != [] {
      KeySetPut(base, extra[0].key, extra[0].value);
      KeySetSpread(Put(base, extra[0].key, extra[0].value), extra[1..]);
    }
  }

  lemma {:induction false} DistinctSpread(base: seq<Field>, extra: seq<Field>)
    requires DistinctKeys(base)
    ensures DistinctKeys(Spread(base, extra))
    decreases |extra|
  {
    if extra != [] {
      DistinctPut(base, extra[0].key, extra[0].value);
      DistinctSpread(Put(base, extra[0].key, extra[0].value), extra[1..]);
    }
  }
}

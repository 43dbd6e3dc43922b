/**
 * The object, query and formatting helpers of `utils/helpers.ts`.
 *
 * The two accumulating loops (`cleanObject`, `buildQueryString`) and the
 * required-field scan are methods over an accumulator, each proved equal to a
 * left fold; what the source promises about them is proved of the folds.
 */
module Helpers {
  import opened Results
  import opened Text
  import opened Json

  // ---------------------------------------------------------------------------
  // cleanObject

  /**
   * What `cleanObject` stores for an entry holding `v`: `Undefined` when the
   * entry is dropped (a blank value, or an object that cleans to `{}`), the
   * cleaned object for a nested object, and `v` itself otherwise (so `false`,
   * `0` and arrays pass through untouched).
   */
  function Cleaned(v: Value): Value
    decreases v, 2
  {
    if IsBlank(v) then Undefined
    else if v.Obj? then
      var nested := CleanFields(v.fields);
      if nested == [] then Undefined else Obj(nested)
    else v
  }

  /** The object `cleanObject(obj)` returns, for the entries `fs` of `obj`. */
  function CleanFields(fs: seq<Field>): seq<Field>
    decreases fs, 1
  {
    CleanInto([], fs)
  }

  /** The loop of `cleanObject` run over the entries `fs` with `acc` already built. */
  function CleanInto(acc: seq<Field>, fs: seq<Field>): seq<Field>
    decreases fs, 0
  {
    if fs == [] then acc
    else
      var kept := Cleaned(fs[0].value);
      CleanInto(if kept == Undefined then acc else Put(acc, fs[0].key, kept), fs[1..])
  }

  /** `cleanObject(obj)`: one pass over the entries, recursing into nested objects. */
  method CleanObject(obj: seq<Field>) returns (cleaned: seq<Field>)
    ensures cleaned == CleanFields(obj)
    decreases obj
  {
    cleaned := [];
    for i := 0 to |obj|
      invariant CleanInto(cleaned, obj[i..]) == CleanFields(obj)
    {
      assert obj[i..][0] == obj[i] && obj[i..][1..] == obj[i + 1..];
      var key, value := obj[i].key, obj[i].value;
      if !IsBlank(value) {
        if value.Obj? {
          assert obj[i] in obj;
          var nested := CleanObject(value.fields);
          if |nested| > 0 {
            cleaned := Put(cleaned, key, Obj(nested));
          }
        } else {
          cleaned := Put(cleaned, key, value);
        }
      }
    }
  }

  /** A value `cleanObject` can leave behind: not blank, and a non-empty clean object if an object. */
  predicate IsCleanValue(v: Value)
    decreases v, 2
  {
    !IsBlank(v) && (v.Obj? ==> v.fields != [] && IsCleanObject(v.fields))
  }

  /** An object with distinct keys whose values are all clean, at every depth. */
  predicate IsCleanObject(fs: seq<Field>)
    decreases fs, 1
  {
    DistinctKeys(fs) && CleanValues(fs)
  }

  predicate CleanValues(fs: seq<Field>)
    decreases fs, 0
  {
    fs == [] || (IsCleanValue(fs[0].value) && CleanValues(fs[1..]))
  }

  lemma {:induction false} CleanValuesPut(fs: seq<Field>, key: string, v: Value)
    requires CleanValues(fs) && IsCleanValue(v)
    ensures CleanValues(Put(fs, key, v))
  {
    if fs != [] && fs[0].key != key { CleanValuesPut(fs[1..], key, v); }
  }

  /** In a clean object a key is present exactly when reading it gives something other than `undefined`. */
  lemma {:induction false} CleanValuesLookup(fs: seq<Field>, key: string)
    requires CleanValues(fs)
    ensures key in KeySet(fs) <==> Lookup(fs, key) != Undefined
  {
    if fs != [] { CleanValuesLookup(fs[1..], key); }
  }

  /** Whatever `Cleaned` keeps is clean. */
  lemma {:induction false} CleanedIsClean(v: Value)
    ensures Cleaned(v) == Undefined || IsCleanValue(Cleaned(v))
    decreases v, 2
  {
    if !IsBlank(v) && v.Obj? {
      CleanFieldsIsClean(v.fields);
    }
  }

  /** The output of `cleanObject` has no blank value and no empty nested object, at any depth. */
  lemma {:induction false} CleanFieldsIsClean(fs: seq<Field>)
    ensures IsCleanObject(CleanFields(fs))
    decreases fs, 1
  {
    CleanIntoIsClean([], fs);
  }

  lemma {:induction false} CleanIntoIsClean(acc: seq<Field>, fs: seq<Field>)
    requires IsCleanObject(acc)
    ensures IsCleanObject(CleanInto(acc, fs))
    decreases fs, 0
  {
    if fs != [] {
      var kept := Cleaned(fs[0].value);
      CleanedIsClean(fs[0].value);
      if kept != Undefined {
        DistinctPut(acc, fs[0].key, kept);
        CleanValuesPut(acc, fs[0].key, kept);
      }
      CleanIntoIsClean(if kept == Undefined then acc else Put(acc, fs[0].key, kept), fs[1..]);
    }
  }

  lemma {:induction false} KeySetAppend(fs: seq<Field>, f: Field)
    ensures KeySet(fs + [f]) == KeySet(fs) + {f.key}
  {
    if fs != [] {
      assert (fs + [f])[1..] == fs[1..] + [f];
      KeySetAppend(fs[1..], f);
    }
  }

  /** A clean value is a fixed point of `Cleaned`. */
  lemma {:induction false} CleanedOfClean(v: Value)
    requires IsCleanValue(v)
    ensures Cleaned(v) == v
    decreases v, 2
  {
    if v.Obj? { CleanFieldsOfClean(v.fields); }
  }

  /** `cleanObject` returns a clean object unchanged. */
  lemma {:induction false} CleanFieldsOfClean(fs: seq<Field>)
    requires IsCleanObject(fs)
    ensures CleanFields(fs) == fs
    decreases fs, 1
  {
    CleanIntoOfClean([], fs);
  }

  lemma {:induction false} CleanIntoOfClean(acc: seq<Field>, fs: seq<Field>)
    requires IsCleanObject(fs) && KeySet(acc) !! KeySet(fs)
    ensures CleanInto(acc, fs) == acc + fs
    decreases fs, 0
  {
    if fs != [] {
      CleanedOfClean(fs[0].value);
      PutAbsent(acc, fs[0].key, fs[0].value);
      KeySetAppend(acc, fs[0]);
      CleanIntoOfClean(acc + [fs[0]], fs[1..]);
      assert acc + [fs[0]] + fs[1..] == acc + fs;
    }
  }

  /** `cleanObject` is idempotent. */
  lemma CleanObjectIdempotent(fs: seq<Field>)
    ensures CleanFields(CleanFields(fs)) == CleanFields(fs)
  {
    CleanFieldsIsClean(fs);
    CleanFieldsOfClean(CleanFields(fs));
  }

  lemma {:induction false} CleanIntoKeys(acc: seq<Field>, fs: seq<Field>)
    ensures KeySet(CleanInto(acc, fs)) <= KeySet(acc) + KeySet(fs)
    decreases fs
  {
    if fs != [] {
      var kept := Cleaned(fs[0].value);
      if kept != Undefined { KeySetPut(acc, fs[0].key, kept); }
      CleanIntoKeys(if kept == Undefined then acc else Put(acc, fs[0].key, kept), fs[1..]);
    }
  }

  lemma {:induction false} CleanIntoLookup(acc: seq<Field>, fs: seq<Field>, key: string)
    requires DistinctKeys(fs) && KeySet(acc) !! KeySet(fs)
    ensures Lookup(CleanInto(acc, fs), key) == if key in KeySet(fs) then Cleaned(Lookup(fs, key)) else Lookup(acc, key)
    decreases fs
  {
    if fs != [] {
      var kept := Cleaned(fs[0].value);
      var next := if kept == Undefined then acc else Put(acc, fs[0].key, kept);
      if kept != Undefined {
        KeySetPut(acc, fs[0].key, kept);
        LookupPut(acc, fs[0].key, kept, key);
      } else if key == fs[0].key {
        LookupAbsent(acc, key);
      }
      CleanIntoLookup(next, fs[1..], key);
    }
  }

  /**
   * What `cleanObject` keeps, key by key: reading `key` from the output gives
   * the cleaned input value, and a dropped or absent key reads as `undefined`.
   * Together with CleanFieldsIsClean (no stored `undefined`), a key is in the
   * output exactly when it is in the input and its cleaned value is not dropped.
   */
  lemma CleanObjectLookup(fs: seq<Field>, key: string)
    requires DistinctKeys(fs)
    ensures Lookup(CleanFields(fs), key) == Cleaned(Lookup(fs, key))
    ensures KeySet(CleanFields(fs)) <= KeySet(fs)
  {
    CleanIntoLookup([], fs, key);
    if key !in KeySet(fs) { LookupAbsent(fs, key); }
    CleanIntoKeys([], fs);
  }

  /** Pinned case: `undefined` and `null` values are removed. */
  lemma CleanObjectDropsUndefinedAndNull()
    ensures CleanFields([Field("a", Num(1)), Field("b", Undefined), Field("c", Null), Field("d", Str("test"))])
         == [Field("a", Num(1)), Field("d", Str("test"))]
  {
    var a, d := Field("a", Num(1)), Field("d", Str("test"));
    var r1 := [Field("b", Undefined), Field("c", Null), d];
    var r2 := [Field("c", Null), d];
    assert [a, Field("b", Undefined), Field("c", Null), d][1..] == r1 && r1[1..] == r2 && r2[1..] == [d];
    assert [a, Field("b", Undefined), Field("c", Null), d] == [a] + r1;
    assert CleanInto([], [a] + r1) == CleanInto([a], r1);
    assert CleanInto([a], r1) == CleanInto([a], r2);
    assert CleanInto([a], r2) == CleanInto([a], [d]);
    assert Put([a], "d", Str("test")) == [a, d];
    assert CleanInto([a], [d]) == CleanInto([a, d], []);
  }

  /** Pinned case: empty strings are removed. */
  lemma CleanObjectDropsEmptyString()
    ensures CleanFields([Field("a", Str("")), Field("b", Str("test"))]) == [Field("b", Str("test"))]
  {
    var t := Field("b", Str("test"));
    assert Cleaned(Str("")) == Undefined;
    assert CleanInto([], [t]) == [t];
    assert [Field("a", Str("")), t][1..] == [t];
    assert CleanInto([], [Field("a", Str("")), t]) == CleanInto([], [t]);
  }

  /** Pinned case: nested objects are cleaned too. */
  lemma CleanObjectCleansNested()
    ensures CleanFields([Field("a", Num(1)), Field("nested", Obj([Field("b", Num(2)), Field("c", Undefined)]))])
         == [Field("a", Num(1)), Field("nested", Obj([Field("b", Num(2))]))]
  {
    var a, b := Field("a", Num(1)), Field("b", Num(2));
    var inner := [b, Field("c", Undefined)];
    assert inner[1..] == [Field("c", Undefined)];
    assert CleanInto([], inner) == CleanInto([b], [Field("c", Undefined)]);
    assert CleanFields(inner) == [b];
    assert Cleaned(Obj(inner)) == Obj([b]);
    assert Put([a], "nested", Obj([b])) == [a, Field("nested", Obj([b]))];
    assert [a, Field("nested", Obj(inner))][1..] == [Field("nested", Obj(inner))];
    assert CleanInto([], [a, Field("nested", Obj(inner))]) == CleanInto([a], [Field("nested", Obj(inner))]);
  }

  // ---------------------------------------------------------------------------
  // buildQueryString

  /** A key ending in `From` or `To` is a date-range bound and is copied verbatim. */
  predicate IsRangeKey(key: string) {
    EndsWith(key, "From") || EndsWith(key, "To")
  }

  /** The query value `buildQueryString` stores for a non-blank filter value. */
  function QueryValue(key: string, v: Value): Value {
    if IsRangeKey(key) then v
    else if v.Arr? then Str(JoinValues(v.items, ","))
    else v
  }

  /** The loop of `buildQueryString` run over `fs` with `acc` already built. */
  function QueryInto(acc: seq<Field>, fs: seq<Field>): seq<Field>
    decreases fs
  {
    if fs == [] then acc
    else if IsBlank(fs[0].value) then QueryInto(acc, fs[1..])
    else QueryInto(Put(acc, fs[0].key, QueryValue(fs[0].key, fs[0].value)), fs[1..])
  }

  method BuildQueryString(filters: seq<Field>) returns (qs: seq<Field>)
    ensures qs == QueryInto([], filters)
  {
    qs := [];
    for i := 0 to |filters|
      invariant QueryInto(qs, filters[i..]) == QueryInto([], filters)
    {
      assert filters[i..][0] == filters[i] && filters[i..][1..] == filters[i + 1..];
      var key, value := filters[i].key, filters[i].value;
      if value != Undefined && value != Null && value != Str("") {
        if EndsWith(key, "From") || EndsWith(key, "To") {
          qs := Put(qs, key, value);
        } else if value.Arr? {
          qs := Put(qs, key, Str(JoinValues(value.items, ",")));
        } else {
          qs := Put(qs, key, value);
        }
      }
    }
  }

  lemma {:induction false} QueryIntoLookup(acc: seq<Field>, fs: seq<Field>, key: string)
    requires DistinctKeys(fs) && KeySet(acc) !! KeySet(fs)
    ensures Lookup(QueryInto(acc, fs), key) ==
      if key !in KeySet(fs) then Lookup(acc, key)
      else if IsBlank(Lookup(fs, key)) then Undefined
      else QueryValue(key, Lookup(fs, key))
    ensures KeySet(QueryInto(acc, fs)) <= KeySet(acc) + KeySet(fs)
    decreases fs
  {
    if fs != [] {
      var next := if IsBlank(fs[0].value) then acc else Put(acc, fs[0].key, QueryValue(fs[0].key, fs[0].value));
      if !IsBlank(fs[0].value) {
        KeySetPut(acc, fs[0].key, QueryValue(fs[0].key, fs[0].value));
        LookupPut(acc, fs[0].key, QueryValue(fs[0].key, fs[0].value), key);
      } else if key == fs[0].key {
        LookupAbsent(acc, key);
      }
      QueryIntoLookup(next, fs[1..], key);
    }
  }

  /**
   * `buildQueryString` works on one level: a blank filter is dropped, an array
   * under a key not ending in `From`/`To` becomes its comma-joined text, and
   * every other value (nested objects included) is copied unchanged. No key
   * is invented.
   */
  lemma BuildQueryStringLookup(filters: seq<Field>, key: string)
    requires DistinctKeys(filters)
    ensures Lookup(QueryInto([], filters), key) ==
      if IsBlank(Lookup(filters, key)) then Undefined else QueryValue(key, Lookup(filters, key))
    ensures KeySet(QueryInto([], filters)) <= KeySet(filters)
  {
    QueryIntoLookup([], filters, key);
    if key !in KeySet(filters) { LookupAbsent(filters, key); }
  }

  /** One step of the loop: a non-blank filter is stored under its own key, after the earlier ones. */
  lemma QueryIntoFresh(acc: seq<Field>, f: Field, rest: seq<Field>)
    requires !IsBlank(f.value) && f.key !in KeySet(acc)
    ensures QueryInto(acc, [f] + rest) == QueryInto(acc + [Field(f.key, QueryValue(f.key, f.value))], rest)
  {
    assert ([f] + rest)[0] == f && ([f] + rest)[1..] == rest;
    PutAbsent(acc, f.key, QueryValue(f.key, f.value));
  }

  /** A filter `buildQueryString` stores exactly as it is given. */
  predicate PlainFilter(f: Field) {
    !IsBlank(f.value) && (IsRangeKey(f.key) || !f.value.Arr?)
  }

  lemma {:induction false} QueryIntoPlain(acc: seq<Field>, fs: seq<Field>)
    requires DistinctKeys(fs) && KeySet(acc) !! KeySet(fs)
    requires forall i :: 0 <= i < |fs| ==> PlainFilter(fs[i])
    ensures QueryInto(acc, fs) == acc + fs
    decreases fs
  {
    if fs != [] {
      assert fs == [fs[0]] + fs[1..];
      QueryIntoFresh(acc, fs[0], fs[1..]);
      assert Field(fs[0].key, QueryValue(fs[0].key, fs[0].value)) == fs[0];
      KeySetAppend(acc, fs[0]);
      QueryIntoPlain(acc + [fs[0]], fs[1..]);
      assert (acc + [fs[0]]) + fs[1..] == acc + fs;
    }
  }

  /**
   * Filters with distinct keys, none blank and none an array to join, come
   * out exactly as they went in, in the same order.
   */
  lemma BuildQueryStringCopiesPlain(filters: seq<Field>)
    requires DistinctKeys(filters)
    requires forall i :: 0 <= i < |filters| ==> PlainFilter(filters[i])
    ensures QueryInto([], filters) == filters
  {
    QueryIntoPlain([], filters);
  }

  /** Pinned cases: scalars are copied in order, and `{}` gives `{}`. */
  lemma BuildQueryStringCopiesScalars()
    ensures QueryInto([], [Field("page", Num(1)), Field("pageSize", Num(20)), Field("active", Bool(true))])
         == [Field("page", Num(1)), Field("pageSize", Num(20)), Field("active", Bool(true))]
    ensures QueryInto([], []) == []
  {
    var fs := [Field("page", Num(1)), Field("pageSize", Num(20)), Field("active", Bool(true))];
    assert forall i :: 0 <= i < |fs| ==> PlainFilter(fs[i]) by {
      assert !fs[0].value.Arr? && !fs[1].value.Arr? && !fs[2].value.Arr?;
    }
    assert DistinctKeys(fs) by {
      assert "page" != "pageSize" && "page" != "active" && "pageSize" != "active";
      assert fs[1..] == [fs[1], fs[2]] && fs[1..][1..] == [fs[2]] && fs[1..][1..][1..] == [];
    }
    BuildQueryStringCopiesPlain(fs);
  }

  /** Pinned case: `undefined` and `null` filters are skipped. */
  lemma BuildQueryStringSkipsBlank()
    ensures QueryInto([], [Field("page", Num(1)), Field("filter", Undefined), Field("search", Null)])
         == [Field("page", Num(1))]
  {
    var p := Field("page", Num(1));
    assert !IsRangeKey("page");
    assert [p, Field("filter", Undefined), Field("search", Null)][1..] == [Field("filter", Undefined), Field("search", Null)];
    assert QueryInto([], [p, Field("filter", Undefined), Field("search", Null)])
        == QueryInto([p], [Field("filter", Undefined), Field("search", Null)]);
    assert QueryInto([p], [Field("filter", Undefined), Field("search", Null)]) == QueryInto([p], [Field("search", Null)]);
  }

  lemma JoinOneTwoThree()
    ensures JoinValues([Num(1), Num(2), Num(3)], ",") == "1,2,3"
  {
    assert ToText(Num(1)) == "1" && ToText(Num(2)) == "2" && ToText(Num(3)) == "3";
    assert JoinValues([Num(3)], ",") == "3";
    assert [Num(1), Num(2), Num(3)][1..] == [Num(2), Num(3)] && [Num(2), Num(3)][1..] == [Num(3)];
    assert JoinValues([Num(2), Num(3)], ",") == "2,3";
  }

  /** Pinned case: `[1, 2, 3]` becomes `'1,2,3'`; under a `...From` key the array is kept as it is. */
  lemma BuildQueryStringJoinsArrays()
    ensures QueryInto([], [Field("ids", Arr([Num(1), Num(2), Num(3)]))]) == [Field("ids", Str("1,2,3"))]
    ensures QueryInto([], [Field("createdOnFrom", Arr([Num(1), Num(2)]))]) == [Field("createdOnFrom", Arr([Num(1), Num(2)]))]
  {
    assert !IsRangeKey("ids");
    assert IsRangeKey("createdOnFrom") by { assert "createdOnFrom"[9..] == "From"; }
    JoinOneTwoThree();
    QueryIntoFresh([], Field("ids", Arr([Num(1), Num(2), Num(3)])), []);
    QueryIntoFresh([], Field("createdOnFrom", Arr([Num(1), Num(2)])), []);
  }

  // ---------------------------------------------------------------------------
  // formatPhoneNumber

  /** `phone.replace(/\D/g, '')`: the ASCII digits of `phone`, in order. */
  function Digits(s: string): (d: string)
    ensures |d| <= |s|
    ensures forall i :: 0 <= i < |d| ==> IsDigit(d[i])
  {
    if s == [] then ""
    else if IsDigit(s[0]) then [s[0]] + Digits(s[1..])
    else Digits(s[1..])
  }

  function FormatPhoneNumber(phone: string): string {
    var cleaned := Digits(phone);
    if |cleaned| == 10 then "+1" + cleaned
    else if !StartsWith(cleaned, "1") && |cleaned| == 10 then "+1" + cleaned
    else "+" + cleaned
  }

  lemma {:induction false} DigitsAppend(a: string, b: string)
    ensures Digits(a + b) == Digits(a) + Digits(b)
  {
    if a != [] {
      assert (a + b)[0] == a[0] && (a + b)[1..] == a[1..] + b;
      DigitsAppend(a[1..], b);
    } else {
      assert a + b == b;
    }
  }

  lemma {:induction false} DigitsOfDigits(s: string)
    requires forall i :: 0 <= i < |s| ==> IsDigit(s[i])
    ensures Digits(s) == s
  {
    if s != [] { DigitsOfDigits(s[1..]); }
  }

  /** The digits of `+`, an optional `1`, and a string of digits are that `1` and those digits. */
  lemma DigitsOfFormatted(prefix: string, d: string)
    requires prefix == "1" || prefix == ""
    requires forall i :: 0 <= i < |d| ==> IsDigit(d[i])
    ensures Digits("+" + prefix + d) == prefix + d
  {
    var t := prefix + d;
    forall i | 0 <= i < |t| ensures IsDigit(t[i]) {
      if i >= |prefix| { assert t[i] == d[i - |prefix|]; }
    }
    DigitsOfDigits(t);
    AppendAssociates("+", prefix, d);
    DigitsAppend("+", t);
    assert Digits("+") == "" by { assert !IsDigit('+'); }
  }

  /**
   * The result is `+` followed by the input's digits, with a `1` inserted
   * exactly when ten digits remain; nothing but digits follows the `+`.
   */
  lemma FormatPhoneNumberShape(phone: string)
    ensures FormatPhoneNumber(phone) == "+" + (if |Digits(phone)| == 10 then "1" else "") + Digits(phone)
    ensures Digits(FormatPhoneNumber(phone)) == (if |Digits(phone)| == 10 then "1" else "") + Digits(phone)
  {
    var d := Digits(phone);
    var prefix := if |d| == 10 then "1" else "";
    assert FormatPhoneNumber(phone) == "+" + prefix + d;
    DigitsOfFormatted(prefix, d);
  }

  /** Formatting an already formatted number changes nothing. */
  lemma FormatPhoneNumberIdempotent(phone: string)
    ensures FormatPhoneNumber(FormatPhoneNumber(phone)) == FormatPhoneNumber(phone)
  {
    var d := Digits(phone);
    FormatPhoneNumberShape(phone);
    FormatPhoneNumberShape(FormatPhoneNumber(phone));
    DigitsOfDigits(d);
    if |d| == 10 {
      DigitsOfDigits("1" + d);
      assert "+" + "" + ("1" + d) == "+" + "1" + d;
    }
  }

  /**
   * On a string of digits alone (the inputs the unit tests use), the result is
   * `+1` and the digits when there are ten of them, and `+` and the digits
   * otherwise: `1234567890` gives `+11234567890`, `11234567890` stays
   * `+11234567890`.
   */
  lemma FormatPhoneNumberOfDigits(phone: string)
    requires forall i :: 0 <= i < |phone| ==> IsDigit(phone[i])
    ensures FormatPhoneNumber(phone) == (if |phone| == 10 then "+1" else "+") + phone
  {
    DigitsOfDigits(phone);
    FormatPhoneNumberShape(phone);
  }

  // ---------------------------------------------------------------------------
  // formatAddress and extractPaginationInfo

  function FormatAddress(address: Value): Value {
    Obj([
      Field("street", Or(Member(address, "street"), Str(""))),
      Field("unit", Or(Member(address, "unit"), Null)),
      Field("city", Or(Member(address, "city"), Str(""))),
      Field("state", Or(Member(address, "state"), Str(""))),
      Field("zip", Or(Member(address, "zip"), Str(""))),
      Field("country", Or(Member(address, "country"), Str("US")))
    ])
  }

  /** Each part of a formatted address is the input's part when truthy, and its default otherwise. */
  lemma FormatAddressParts(address: Value)
    ensures var f := FormatAddress(address).fields;
      Lookup(f, "street") == Or(Member(address, "street"), Str(""))
      && Lookup(f, "unit") == Or(Member(address, "unit"), Null)
      && Lookup(f, "city") == Or(Member(address, "city"), Str(""))
      && Lookup(f, "state") == Or(Member(address, "state"), Str(""))
      && Lookup(f, "zip") == Or(Member(address, "zip"), Str(""))
      && Lookup(f, "country") == Or(Member(address, "country"), Str("US"))
  {
    var f := FormatAddress(address).fields;
    LookupFirst(f, "unit", 1);
    LookupFirst(f, "city", 2);
    LookupFirst(f, "state", 3);
    LookupFirst(f, "zip", 4);
    LookupFirst(f, "country", 5);
  }

  /**
   * A formatted address keeps every truthy part, always has a truthy country
   * (`US` by default), and formatting it again changes nothing.
   */
  lemma FormatAddressNormal(address: Value)
    ensures forall k :: k in ["street", "unit", "city", "state", "zip", "country"] && Truthy(Member(address, k)) ==>
      Member(FormatAddress(address), k) == Member(address, k)
    ensures Truthy(Member(FormatAddress(address), "country"))
    ensures FormatAddress(FormatAddress(address)) == FormatAddress(address)
  {
    FormatAddressParts(address);
  }

  function ExtractPaginationInfo(response: Value): Value {
    Obj([
      Field("page", Or(Member(response, "page"), Num(1))),
      Field("pageSize", Or(Member(response, "pageSize"), Num(0))),
      Field("totalCount", Or(Member(response, "totalCount"), Num(0))),
      Field("hasMore", Or(Member(response, "hasMore"), Bool(false)))
    ])
  }

  /**
   * The extracted `hasMore` is truthy exactly when the response's is, the page
   * is always truthy (1 by default), and extracting again changes nothing.
   */
  lemma ExtractPaginationInfoNormal(response: Value)
    ensures Truthy(Member(ExtractPaginationInfo(response), "hasMore")) == Truthy(Member(response, "hasMore"))
    ensures Truthy(Member(ExtractPaginationInfo(response), "page"))
    ensures ExtractPaginationInfo(ExtractPaginationInfo(response)) == ExtractPaginationInfo(response)
  {
    var f := ExtractPaginationInfo(response).fields;
    LookupFirst(f, "page", 0);
    LookupFirst(f, "pageSize", 1);
    LookupFirst(f, "totalCount", 2);
    LookupFirst(f, "hasMore", 3);
  }

  // ---------------------------------------------------------------------------
  // STATUS_MAP and getStatusCode

  const STATUS_MAP: map<string, map<string, int>> := map[
    "job" := map["pending" := 1, "scheduled" := 2, "inProgress" := 3, "completed" := 4, "canceled" := 5],
    "appointment" := map["scheduled" := 1, "dispatched" := 2, "working" := 3, "done" := 4, "canceled" := 5],
    "invoice" := map["draft" := 1, "posted" := 2, "paid" := 3, "voided" := 4],
    "estimate" := map["draft" := 1, "sent" := 2, "approved" := 3, "declined" := 4]
  ]

  /** `STATUS_MAP[resource]?.[statusName]`, with `None` for `undefined`. */
  function GetStatusCode(resource: string, statusName: string): (r: Option<int>)
    ensures r.Some? <==> resource in STATUS_MAP && statusName in STATUS_MAP[resource]
  {
    if resource in STATUS_MAP && statusName in STATUS_MAP[resource] then Some(STATUS_MAP[resource][statusName])
    else None
  }

  /** Within one resource, different status names have different codes, all between 1 and 5. */
  lemma StatusCodesDistinct(resource: string, s1: string, s2: string)
    requires GetStatusCode(resource, s1).Some? && GetStatusCode(resource, s2).Some?
    ensures 1 <= GetStatusCode(resource, s1).value <= 5
    ensures GetStatusCode(resource, s1) == GetStatusCode(resource, s2) ==> s1 == s2
  {
  }

  lemma GetStatusCodeExamples()
    ensures GetStatusCode("job", "pending") == Some(1)
    ensures GetStatusCode("job", "completed") == Some(4)
    ensures GetStatusCode("job", "unknown") == None
    ensures GetStatusCode("unknown", "pending") == None
  {
  }

  // ---------------------------------------------------------------------------
  // validateEmail

  /** The characters JavaScript's `\s` matches. */
  predicate IsJsWhitespace(c: char) {
    c == '\t' || c == '\n' || c == '\U{000B}' || c == '\U{000C}' || c == '\r' || c == ' '
    || c == '\U{00A0}' || c == '\U{1680}' || ('\U{2000}' <= c <= '\U{200A}')
    || c == '\U{2028}' || c == '\U{2029}' || c == '\U{202F}' || c == '\U{205F}'
    || c == '\U{3000}' || c == '\U{FEFF}'
  }

  /** No character of `s` is matched by `\s`. */
  predicate NoWhitespace(s: string) {
    forall i :: 0 <= i < |s| ==> !IsJsWhitespace(s[i])
  }

  /** One `[^\s@]+` run of the pattern. */
  predicate IsEmailPart(s: string) {
    |s| > 0 && NoWhitespace(s) && '@' !in s
  }

  /** `s` splits as `local@name.tld` with three `[^\s@]+` parts. */
  predicate EmailParts(s: string, local: string, name: string, tld: string) {
    s == local + "@" + name + "." + tld && IsEmailPart(local) && IsEmailPart(name) && IsEmailPart(tld)
  }

  /** The pattern `^[^\s@]+@[^\s@]+\.[^\s@]+$`, which may split the text after `@` at any of its dots. */
  ghost predicate MatchesEmailPattern(s: string) {
    exists local, name, tld :: EmailParts(s, local, name, tld)
  }

  /** `s.indexOf(c)` */
  function IndexOf(s: string, c: char): (r: int)
    ensures -1 <= r < |s|
    ensures r == -1 <==> c !in s
    ensures r >= 0 ==> s[r] == c && c !in s[..r]
  {
    if s == [] then -1
    else if s[0] == c then 0
    else
      var r := IndexOf(s[1..], c);
      assert r >= 0 ==> s[..r + 1] == [s[0]] + s[1..][..r];
      if r == -1 then -1 else r + 1
  }

  /** `validateEmail(email)`, decided by scanning instead of by the regular expression. */
  function ValidateEmail(email: string): bool {
    var at := IndexOf(email, '@');
    0 < at
    && NoWhitespace(email)
    && '@' !in email[at + 1..]
    && (var domain := email[at + 1..]; |domain| >= 3 && '.' in domain[1..|domain| - 1])
  }

  lemma NoWhitespaceConcat(a: string, b: string)
    ensures NoWhitespace(a + b) <==> NoWhitespace(a) && NoWhitespace(b)
  {
    if NoWhitespace(a) && NoWhitespace(b) {
      forall i | 0 <= i < |a + b| ensures !IsJsWhitespace((a + b)[i]) {
        if i >= |a| { assert (a + b)[i] == b[i - |a|]; }
      }
    }
    if NoWhitespace(a + b) {
      forall i | 0 <= i < |a| ensures !IsJsWhitespace(a[i]) { assert a[i] == (a + b)[i]; }
      forall i | 0 <= i < |b| ensures !IsJsWhitespace(b[i]) { assert b[i] == (a + b)[|a| + i]; }
    }
  }

  /** The scan accepts only strings the pattern matches. */
  lemma ValidateEmailSound(email: string)
    requires ValidateEmail(email)
    ensures MatchesEmailPattern(email)
  {
    var at := IndexOf(email, '@');
    var domain := email[at + 1..];
    var inner := domain[1..|domain| - 1];
    var j :| 0 <= j < |inner| && inner[j] == '.';
    var local, name, tld := email[..at], domain[..j + 1], domain[j + 2..];
    assert domain == name + "." + tld;
    assert email == local + "@" + domain;
    NoWhitespaceConcat(local + "@", domain);
    NoWhitespaceConcat(local, "@");
    NoWhitespaceConcat(name + ".", tld);
    NoWhitespaceConcat(name, ".");
    assert '@' !in name && '@' !in tld by { assert domain == name + "." + tld; }
    assert EmailParts(email, local, name, tld);
  }

  /** The first `@` of `local@domain` is the one after `local` when `local` has none. */
  lemma FirstAtSign(email: string, local: string, domain: string)
    requires email == local + "@" + domain && '@' !in local
    ensures IndexOf(email, '@') == |local| && email[|local| + 1..] == domain
  {
    assert email[|local|] == '@';
    assert email[..|local|] == local;
  }

  /** A string assembled from three parts without `\s` has no `\s` either. */
  lemma EmailPartsNoWhitespace(email: string, local: string, name: string, tld: string)
    requires EmailParts(email, local, name, tld)
    ensures NoWhitespace(email)
  {
    NoWhitespaceConcat(name, ".");
    NoWhitespaceConcat(name + ".", tld);
    NoWhitespaceConcat(local, "@");
    NoWhitespaceConcat(local + "@", name + "." + tld);
    assert email == (local + "@") + (name + "." + tld);
  }

  /** `name.tld` with both parts non-empty has a dot strictly inside it. */
  lemma InnerDot(name: string, tld: string)
    requires |name| > 0 && |tld| > 0
    ensures var domain := name + "." + tld; |domain| >= 3 && '.' in domain[1..|domain| - 1]
  {
    var domain := name + "." + tld;
    assert domain[1..|domain| - 1][|name| - 1] == '.';
  }

  /** The scan accepts every string the pattern matches. */
  lemma ValidateEmailComplete(email: string, local: string, name: string, tld: string)
    requires EmailParts(email, local, name, tld)
    ensures ValidateEmail(email)
  {
    var domain := name + "." + tld;
    assert email == local + "@" + domain;
    FirstAtSign(email, local, domain);
    EmailPartsNoWhitespace(email, local, name, tld);
    InnerDot(name, tld);
    assert '@' !in domain;
  }

  /** The scan and the pattern agree on every string. */
  lemma ValidateEmailMatchesPattern(email: string)
    ensures ValidateEmail(email) <==> MatchesEmailPattern(email)
  {
    if ValidateEmail(email) { ValidateEmailSound(email); }
    if MatchesEmailPattern(email) {
      var local, name, tld :| EmailParts(email, local, name, tld);
      ValidateEmailComplete(email, local, name, tld);
    }
  }

  /** Pinned case: `test@example.com` is accepted. */
  lemma ValidateEmailAccepts()
    ensures ValidateEmail("test@example.com")
  {
    assert "test@example.com" == "test" + "@" + "example" + "." + "com";
    assert EmailParts("test@example.com", "test", "example", "com");
    ValidateEmailComplete("test@example.com", "test", "example", "com");
  }

  /** Pinned cases: `invalid-email` and `''` are refused, and so is a domain ending in its only dot. */
  lemma ValidateEmailRejects()
    ensures !ValidateEmail("invalid-email")
    ensures !ValidateEmail("")
    ensures !ValidateEmail("a@b.")
  {
    assert '@' !in "invalid-email";
    assert IndexOf("a@b.", '@') == 1;
    assert "a@b."[2..] == "b.";
  }

  // ---------------------------------------------------------------------------
  // validateRequired

  /** The required fields whose value in `data` is `undefined`, `null` or `''`, in order. */
  function MissingFields(data: seq<Field>, required: seq<string>): seq<string> {
    if required == [] then []
    else (if IsBlank(Lookup(data, required[0])) then [required[0]] else []) + MissingFields(data, required[1..])
  }

  method ValidateRequired(data: seq<Field>, requiredFields: seq<string>) returns (missing: seq<string>)
    ensures missing == MissingFields(data, requiredFields)
  {
    missing := [];
    for i := 0 to |requiredFields|
      invariant missing + MissingFields(data, requiredFields[i..]) == MissingFields(data, requiredFields)
    {
      assert requiredFields[i..][0] == requiredFields[i] && requiredFields[i..][1..] == requiredFields[i + 1..];
      var field := requiredFields[i];
      var value := Lookup(data, field);
      ghost var rest := MissingFields(data, requiredFields[i + 1..]);
      assert MissingFields(data, requiredFields[i..]) == (if IsBlank(value) then [field] else []) + rest;
      if value == Undefined || value == Null || value == Str("") {
        assert (missing + [field]) + rest == missing + ([field] + rest);
        missing := missing + [field];
      } else {
        assert [] + rest == rest;
      }
    }
    assert requiredFields[|requiredFields|..] == [];
  }

  /** A field is reported exactly when it is required and blank; the report keeps list order and never grows past it. */
  lemma {:induction false} MissingFieldsExactly(data: seq<Field>, required: seq<string>, field: string)
    ensures field in MissingFields(data, required) <==> field in required && IsBlank(Lookup(data, field))
    ensures |MissingFields(data, required)| <= |required|
  {
    if required != [] {
      MissingFieldsExactly(data, required[1..], field);
      assert field in required <==> field == required[0] || field in required[1..];
    }
  }

  lemma ValidateRequiredExamples()
    ensures MissingFields([Field("name", Str("Test")), Field("email", Str("test@test.com"))], ["name", "email"]) == []
    ensures MissingFields([Field("name", Str("Test"))], ["name", "email"]) == ["email"]
    ensures MissingFields([Field("name", Str("")), Field("email", Str("test@test.com"))], ["name", "email"]) == ["name"]
  {
  }

  // ---------------------------------------------------------------------------
  // simplifyOutput and toExecutionData

  /** `simplifyOutput(data)`: an array as it is, a single object as a one-element list. */
  function SimplifyOutput(data: Value): seq<Value> {
    if data.Arr? then data.items else [data]
  }

  /** One item of n8n's execution data: `{json, pairedItem?}`. */
  datatype ExecutionItem = ExecutionItem(json: Value, pairedItem: Option<nat>)

  /** `toExecutionData(data)`: each record wrapped as `{json: record}`. */
  function ToExecutionData(data: seq<Value>): seq<ExecutionItem> {
    seq(|data|, i requires 0 <= i < |data| => ExecutionItem(data[i], None))
  }

  /** The `json` payloads of a list of execution items. */
  function Payloads(items: seq<ExecutionItem>): seq<Value> {
    seq(|items|, i requires 0 <= i < |items| => items[i].json)
  }

  /** Wrapping and then reading back the payloads gives the records back, in order and unpaired. */
  lemma ToExecutionDataRoundTrip(data: seq<Value>)
    ensures Payloads(ToExecutionData(data)) == data
    ensures forall i :: 0 <= i < |ToExecutionData(data)| ==> ToExecutionData(data)[i].pairedItem == None
  {
  }

  /** Simplifying the list that `simplifyOutput` produced changes nothing. */
  lemma SimplifyOutputIdempotent(data: Value)
    ensures SimplifyOutput(Arr(SimplifyOutput(data))) == SimplifyOutput(data)
    ensures |SimplifyOutput(data)| == if data.Arr? then |data.items| else 1
  {
  }
}

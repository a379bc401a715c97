/** The payload serializer (src/serializer.ts): outgoing payloads have every object key,
    at every depth, renamed by the configured converter; incoming payloads have their
    top-level keys turned back into camelCase. `JSON.stringify` and `JSON.parse` are
    parameters. */
module Serializers {
  import opened Js
  import opened Helpers

  /** `normalize`: arrays elementwise, objects (plain or DTO) into a fresh plain object with
      converted keys and normalized values, anything else unchanged. */
  function Normalized(conv: string -> string, v: Value): (r: Value)
    ensures v.Arr? ==> r.Arr? && |r.items| == |v.items|
    ensures v.Obj? || v.Dto? ==> r.Obj?
    ensures !v.Arr? && !v.Obj? && !v.Dto? ==> r == v
    decreases v, 1
  {
    match v
    case Arr(items) => Arr(NormalizedItems(conv, v, |items|))
    case Obj(e) => Obj(NormalizedEntries(conv, v, |e|))
    case Dto(_, e) => Obj(NormalizedEntries(conv, v, |e|))
    case _ => v
  }

  /** The first `n` items of array `a`, normalized. */
  function NormalizedItems(conv: string -> string, a: Value, n: nat): (r: seq<Value>)
    requires a.Arr? && n <= |a.items|
    ensures |r| == n
    decreases a, 0, n
  {
    if n == 0 then [] else NormalizedItems(conv, a, n - 1) + [Normalized(conv, a.items[n - 1])]
  }

  /** The entries of object `o` up to `n`, assigned one by one under converted keys; keys that
      convert alike share one entry, so there are never more entries than keys read. */
  function NormalizedEntries(conv: string -> string, o: Value, n: nat): (r: Entries)
    requires (o.Obj? || o.Dto?) && n <= |EntriesOfObject(o)|
    ensures |r| <= n && (n > 0 ==> |r| > 0)
    decreases o, 0, n
  {
    if n == 0 then []
    else
      var e := if o.Obj? then o.entries else o.fields;
      Put(NormalizedEntries(conv, o, n - 1), conv(e[n - 1].0), Normalized(conv, e[n - 1].1))
  }

  function EntriesOfObject(o: Value): Entries
    requires o.Obj? || o.Dto?
  {
    if o.Obj? then o.entries else o.fields
  }

  /** Arrays keep their length and order, each item normalized. */
  lemma NormalizedArray(conv: string -> string, items: seq<Value>, i: nat)
    requires i < |items|
    ensures Normalized(conv, Arr(items)).Arr?
    ensures |Normalized(conv, Arr(items)).items| == |items|
    ensures Normalized(conv, Arr(items)).items[i] == Normalized(conv, items[i])
  {
    NormalizedItemsAt(conv, Arr(items), |items|, i);
  }

  lemma {:induction false} NormalizedItemsAt(conv: string -> string, a: Value, n: nat, i: nat)
    requires a.Arr? && n <= |a.items| && i < n
    ensures NormalizedItems(conv, a, n)[i] == Normalized(conv, a.items[i])
    decreases n
  {
    if i < n - 1 {
      NormalizedItemsAt(conv, a, n - 1, i);
    }
  }

  /** Primitives, null and undefined are returned as they are. */
  lemma NormalizedScalar(conv: string -> string, v: Value)
    requires !v.Arr? && !v.Obj? && !v.Dto?
    ensures Normalized(conv, v) == v
  {
  }

  /** Every key of a normalized object is the converted name of a source key, every source key
      appears converted, and each converted key reads as the normalized value of the last source
      entry that converts to it. */
  lemma NormalizedEntriesRead(conv: string -> string, o: Value, n: nat, k: string)
    requires (o.Obj? || o.Dto?) && n <= |EntriesOfObject(o)|
    ensures Get(NormalizedEntries(conv, o, n), k) == LastGet(Renamed(conv, o, n), k)
  {
    NormalizedAsSpread(conv, o, n);
    SpreadGet([], Renamed(conv, o, n), k);
    GetAbsent([], k);
  }

  /** `normalize` of an object is the spread of its renamed entries into a fresh object. */
  lemma {:induction false} NormalizedAsSpread(conv: string -> string, o: Value, n: nat)
    requires (o.Obj? || o.Dto?) && n <= |EntriesOfObject(o)|
    ensures NormalizedEntries(conv, o, n) == Spread([], Renamed(conv, o, n))
    decreases n
  {
    if n > 0 {
      NormalizedAsSpread(conv, o, n - 1);
      NormalizedAsSpreadStep(conv, o, n);
    }
  }

  lemma NormalizedAsSpreadStep(conv: string -> string, o: Value, n: nat)
    requires (o.Obj? || o.Dto?) && 0 < n <= |EntriesOfObject(o)|
    requires NormalizedEntries(conv, o, n - 1) == Spread([], Renamed(conv, o, n - 1))
    ensures NormalizedEntries(conv, o, n) == Spread([], Renamed(conv, o, n))
  {
    var e := EntriesOfObject(o);
    NormalizedEntriesUnfold(conv, o, n);
    SpreadStep([], Renamed(conv, o, n - 1), (conv(e[n - 1].0), Normalized(conv, e[n - 1].1)));
  }

  /** One more source entry is one more assignment, and one more renamed entry. */
  lemma NormalizedEntriesUnfold(conv: string -> string, o: Value, n: nat)
    requires (o.Obj? || o.Dto?) && 0 < n <= |EntriesOfObject(o)|
    ensures NormalizedEntries(conv, o, n) == Put(NormalizedEntries(conv, o, n - 1),
      conv(EntriesOfObject(o)[n - 1].0), Normalized(conv, EntriesOfObject(o)[n - 1].1))
    ensures Renamed(conv, o, n) == Renamed(conv, o, n - 1) +
      [(conv(EntriesOfObject(o)[n - 1].0), Normalized(conv, EntriesOfObject(o)[n - 1].1))]
  {
  }

  /** The first `n` source entries with converted keys and normalized values. */
  function Renamed(conv: string -> string, o: Value, n: nat): (r: Entries)
    requires (o.Obj? || o.Dto?) && n <= |EntriesOfObject(o)|
    ensures |r| == n
    decreases o, 0, n
  {
    if n == 0 then []
    else
      var e := EntriesOfObject(o);
      Renamed(conv, o, n - 1) + [(conv(e[n - 1].0), Normalized(conv, e[n - 1].1))]
  }

  /** An entry appended last wins the read of its key. */
  lemma {:induction false} LastGetAppend(e: Entries, x: (string, Value), k: string)
    ensures LastGet(e + [x], k) == if x.0 == k then Some(x.1) else LastGet(e, k)
    decreases |e|
  {
    if e == [] {
      assert [x][1..] == [];
    } else {
      assert (e + [x])[1..] == e[1..] + [x];
      LastGetAppend(e[1..], x, k);
    }
  }

  /** A value in normal form for `conv`: no DTO instance, and every object has distinct keys
      that `conv` leaves unchanged, at every depth. */
  predicate NormalForm(conv: string -> string, v: Value)
    decreases v, 1
  {
    match v
    case Dto(_, _) => false
    case Arr(items) => ItemsNormal(conv, v, |items|)
    case Obj(e) => DistinctKeys(e) && EntriesNormal(conv, v, |e|)
    case _ => true
  }

  predicate ItemsNormal(conv: string -> string, a: Value, n: nat)
    requires a.Arr? && n <= |a.items|
    decreases a, 0, n
  {
    n == 0 || (ItemsNormal(conv, a, n - 1) && NormalForm(conv, a.items[n - 1]))
  }

  predicate EntriesNormal(conv: string -> string, o: Value, n: nat)
    requires o.Obj? && n <= |o.entries|
    decreases o, 0, n
  {
    n == 0 || (EntriesNormal(conv, o, n - 1) && conv(o.entries[n - 1].0) == o.entries[n - 1].0
               && NormalForm(conv, o.entries[n - 1].1))
  }

  /** Normalizing a value already in normal form changes nothing. */
  lemma {:induction false} NormalizeFixesNormalForm(conv: string -> string, v: Value)
    requires NormalForm(conv, v)
    ensures Normalized(conv, v) == v
    decreases v, 1
  {
    match v
    case Arr(items) =>
      NormalizeFixesItems(conv, v, |items|);
      assert items[..|items|] == items;
    case Obj(e) =>
      NormalizeFixesEntries(conv, v, |e|);
      assert e[..|e|] == e;
    case _ =>
  }

  lemma {:induction false} NormalizeFixesItems(conv: string -> string, a: Value, n: nat)
    requires a.Arr? && n <= |a.items| && ItemsNormal(conv, a, n)
    ensures NormalizedItems(conv, a, n) == a.items[..n]
    decreases a, 0, n
  {
    if n > 0 {
      NormalizeFixesItems(conv, a, n - 1);
      NormalizeFixesNormalForm(conv, a.items[n - 1]);
      assert a.items[..n] == a.items[..n - 1] + [a.items[n - 1]];
    }
  }

  lemma {:induction false} NormalizeFixesEntries(conv: string -> string, o: Value, n: nat)
    requires o.Obj? && n <= |o.entries| && DistinctKeys(o.entries) && EntriesNormal(conv, o, n)
    ensures NormalizedEntries(conv, o, n) == o.entries[..n]
    decreases o, 0, n
  {
    if n > 0 {
      var e := o.entries;
      var x := e[n - 1];
      NormalizeFixesEntries(conv, o, n - 1);
      NormalizeFixesNormalForm(conv, x.1);
      NormalizedEntriesStep(conv, o, n - 1, e[..n - 1], x.0, x.1);
      DistinctPrefixFresh(e, n - 1);
      PutFresh(e[..n - 1], x.0, x.1);
    }
  }

  /** With an idempotent converter, normalizing yields a value in normal form. */
  lemma {:induction false} NormalizedIsNormal(conv: string -> string, v: Value)
    requires forall k :: conv(conv(k)) == conv(k)
    ensures NormalForm(conv, Normalized(conv, v))
    decreases v, 1
  {
    match v
    case Arr(items) =>
      NormalizedItemsNormal(conv, v, |items|);
    case Obj(e) =>
      NormalizedEntriesDistinct(conv, v, |e|);
      NormalizedEntriesAllNormal(conv, v, |e|);
      AllNormalEntries(conv, NormalizedEntries(conv, v, |e|));
    case Dto(_, e) =>
      NormalizedEntriesDistinct(conv, v, |e|);
      NormalizedEntriesAllNormal(conv, v, |e|);
      AllNormalEntries(conv, NormalizedEntries(conv, v, |e|));
    case _ =>
  }

  lemma {:induction false} NormalizedItemsNormal(conv: string -> string, a: Value, n: nat)
    requires forall k :: conv(conv(k)) == conv(k)
    requires a.Arr? && n <= |a.items|
    ensures ItemsNormal(conv, Arr(NormalizedItems(conv, a, n)), n)
    decreases a, 0, n
  {
    if n > 0 {
      var r := NormalizedItems(conv, a, n);
      NormalizedItemsNormal(conv, a, n - 1);
      NormalizedIsNormal(conv, a.items[n - 1]);
      ItemsNormalPrefix(conv, r, n - 1);
    }
  }

  /** `ItemsNormal` only looks at the first `n` items. */
  lemma {:induction false} ItemsNormalPrefix(conv: string -> string, r: seq<Value>, n: nat)
    requires n < |r|
    ensures ItemsNormal(conv, Arr(r), n) == ItemsNormal(conv, Arr(r[..n]), n)
    decreases n
  {
    if n > 0 {
      ItemsNormalPrefix(conv, r, n - 1);
      ItemsNormalPrefix(conv, r[..n], n - 1);
      assert r[..n][..n - 1] == r[..n - 1];
    }
  }

  /** A normalized object never has two entries with the same key. */
  lemma NormalizedEntriesDistinct(conv: string -> string, o: Value, n: nat)
    requires (o.Obj? || o.Dto?) && n <= |EntriesOfObject(o)|
    ensures DistinctKeys(NormalizedEntries(conv, o, n))
  {
    NormalizedAsSpread(conv, o, n);
    SpreadDistinct([], Renamed(conv, o, n));
  }

  lemma {:induction false} NormalizedEntriesAllNormal(conv: string -> string, o: Value, n: nat)
    requires forall k :: conv(conv(k)) == conv(k)
    requires (o.Obj? || o.Dto?) && n <= |EntriesOfObject(o)|
    ensures AllNormal(conv, NormalizedEntries(conv, o, n))
    decreases o, 0, n
  {
    if n > 0 {
      NormalizedEntriesAllNormal(conv, o, n - 1);
      AllNormalStep(conv, o, n);
    }
  }

  lemma AllNormalStep(conv: string -> string, o: Value, n: nat)
    requires forall k :: conv(conv(k)) == conv(k)
    requires (o.Obj? || o.Dto?) && 0 < n <= |EntriesOfObject(o)|
    requires AllNormal(conv, NormalizedEntries(conv, o, n - 1))
    ensures AllNormal(conv, NormalizedEntries(conv, o, n))
    decreases o, 0, n, 0
  {
    var x := EntriesOfObject(o)[n - 1];
    EntryBelow(o, n - 1);
    NormalizedIsNormal(conv, x.1);
    NormalizedEntriesUnfold(conv, o, n);
    PutAllNormal(conv, NormalizedEntries(conv, o, n - 1), conv(x.0), Normalized(conv, x.1));
  }

  lemma PutAllNormal(conv: string -> string, e: Entries, k: string, v: Value)
    requires AllNormal(conv, e) && conv(k) == k && NormalForm(conv, v)
    ensures AllNormal(conv, Put(e, k, v))
  {
  }

  /** Every entry has a key `conv` fixes and a value in normal form. */
  predicate AllNormal(conv: string -> string, e: Entries)
  {
    forall i :: 0 <= i < |e| ==> conv(e[i].0) == e[i].0 && NormalForm(conv, e[i].1)
  }

  lemma {:induction false} AllNormalEntries(conv: string -> string, e: Entries)
    requires AllNormal(conv, e)
    ensures EntriesNormal(conv, Obj(e), |e|)
  {
    EntriesNormalUpTo(conv, e, |e|);
  }

  lemma {:induction false} EntriesNormalUpTo(conv: string -> string, e: Entries, n: nat)
    requires AllNormal(conv, e) && n <= |e|
    ensures EntriesNormal(conv, Obj(e), n)
    decreases n
  {
    if n > 0 {
      EntriesNormalUpTo(conv, e, n - 1);
    }
  }

  /** With an idempotent converter such as `camelToSnakeCase`, normalizing twice is normalizing once. */
  lemma NormalizeIdempotent(conv: string -> string, v: Value)
    requires forall k :: conv(conv(k)) == conv(k)
    ensures Normalized(conv, Normalized(conv, v)) == Normalized(conv, v)
  {
    NormalizedIsNormal(conv, v);
    NormalizeFixesNormalForm(conv, Normalized(conv, v));
  }

  /** `Object.entries(data)`: a TypeError for null and undefined. */
  function OwnEntries(v: Value): (r: Result<Entries>)
    ensures r.Err? <==> v.Undefined? || v.Null?
    ensures r.Ok? ==> Keys(r.value) == OwnKeys(v)
  {
    match v
    case Undefined => Err("Cannot convert undefined or null to object")
    case Null => Err("Cannot convert undefined or null to object")
    case Bool(_) => Ok([])
    case Num(_) => Ok([])
    case Str(s) => Ok(IndexedEntries(seq(|s|, i requires 0 <= i < |s| => Str([s[i]]))))
    case Arr(items) => Ok(IndexedEntries(items))
    case Obj(e) => Ok(e)
    case Dto(_, e) => Ok(e)
  }

  /** The entries "0", "1", ... of an array-like value. */
  function IndexedEntries(items: seq<Value>): (r: Entries)
    ensures Keys(r) == IndexKeys(|items|)
    ensures forall i :: 0 <= i < |items| ==> r[i].1 == items[i]
  {
    if items == [] then []
    else
      var r := IndexedEntries(items[..|items| - 1]) + [(NatToString(|items| - 1), items[|items| - 1])];
      KeysAppend(IndexedEntries(items[..|items| - 1]), (NatToString(|items| - 1), items[|items| - 1]));
      r
  }

  /** The top-level entries with their keys passed through `camelCaseKey`, values untouched. */
  function CamelRenamed(e: Entries): (r: Entries)
    ensures |r| == |e|
    ensures forall i :: 0 <= i < |e| ==> r[i] == (CamelCaseKey(e[i].0), e[i].1)
  {
    if e == [] then [] else [(CamelCaseKey(e[0].0), e[0].1)] + CamelRenamed(e[1..])
  }

  /** `denormalize` keeps only the top level: a key reads as the value of the last entry whose
      key converts to it, and nested values are not looked into. */
  lemma DenormalizedRead(e: Entries, k: string)
    ensures Get(Spread([], CamelRenamed(e)), k) == LastGet(CamelRenamed(e), k)
    ensures k in Keys(Spread([], CamelRenamed(e))) <==> exists i :: 0 <= i < |e| && CamelCaseKey(e[i].0) == k
  {
    SpreadGet([], CamelRenamed(e), k);
    var r := CamelRenamed(e);
    if exists i :: 0 <= i < |e| && CamelCaseKey(e[i].0) == k {
      var i :| 0 <= i < |e| && CamelCaseKey(e[i].0) == k;
      assert Keys(r)[i] == k;
    }
    if k in Keys(r) {
      var i :| 0 <= i < |r| && Keys(r)[i] == k;
      assert CamelCaseKey(e[i].0) == k;
    }
  }

  /** A flat object whose keys are distinct camelCase forms of snake identifiers survives
      `denormalize(normalize(x))` with `camelToSnakeCase` as the converter. */
  lemma FlatRoundTrip(e: Entries)
    requires DistinctKeys(e)
    requires forall i :: 0 <= i < |e| ==> CamelOfSnake(e[i].0)
    requires forall i :: 0 <= i < |e| ==> !e[i].1.Arr? && !e[i].1.Obj? && !e[i].1.Dto?
    ensures Spread([], CamelRenamed(NormalizedEntries(CamelToSnakeCase, Obj(e), |e|))) == e
  {
    SnakeKeysBack(e);
    SnakeKeysDistinct(e);
    FlatNormalized(CamelToSnakeCase, e, |e|);
    SnakeKeysRenamedBack(e);
    SpreadFreshEmpty(e);
  }

  /** `k` is the camelCase form of a snake_case identifier. */
  ghost predicate CamelOfSnake(k: string)
  {
    exists s :: SnakeIdent(s) && k == SnakeToCamelCase(s)
  }

  /** The first `n` entries with their keys passed through `conv`. */
  function ConvertedKeys(conv: string -> string, e: Entries, n: nat): (r: Entries)
    requires n <= |e|
    ensures |r| == n
    ensures forall i :: 0 <= i < n ==> r[i] == (conv(e[i].0), e[i].1)
  {
    if n == 0 then [] else ConvertedKeys(conv, e, n - 1) + [(conv(e[n - 1].0), e[n - 1].1)]
  }

  /** `camelCaseKey` undoes `camelToSnakeCase` on camelCase forms of snake identifiers. */
  lemma SnakeKeysBack(e: Entries)
    requires forall i :: 0 <= i < |e| ==> CamelOfSnake(e[i].0)
    ensures forall i :: 0 <= i < |e| ==> CamelCaseKey(CamelToSnakeCase(e[i].0)) == e[i].0
  {
    forall i | 0 <= i < |e| ensures CamelCaseKey(CamelToSnakeCase(e[i].0)) == e[i].0 {
      assert CamelOfSnake(e[i].0);
      var s :| SnakeIdent(s) && e[i].0 == SnakeToCamelCase(s);
      CamelCaseKeyRoundTrip(s);
    }
  }

  /** Keys that convert back apart were converted apart. */
  lemma SnakeKeysDistinct(e: Entries)
    requires DistinctKeys(e)
    requires forall i :: 0 <= i < |e| ==> CamelCaseKey(CamelToSnakeCase(e[i].0)) == e[i].0
    ensures forall i, j :: 0 <= i < j < |e| ==> CamelToSnakeCase(e[i].0) != CamelToSnakeCase(e[j].0)
  {
  }

  lemma SnakeKeysRenamedBack(e: Entries)
    requires forall i :: 0 <= i < |e| ==> CamelCaseKey(CamelToSnakeCase(e[i].0)) == e[i].0
    ensures CamelRenamed(ConvertedKeys(CamelToSnakeCase, e, |e|)) == e
  {
    var back := CamelRenamed(ConvertedKeys(CamelToSnakeCase, e, |e|));
    assert forall i :: 0 <= i < |e| ==> back[i] == e[i];
  }

  /** Normalizing an object of scalars whose keys convert apart only converts the keys. */
  lemma {:induction false} FlatNormalized(conv: string -> string, e: Entries, n: nat)
    requires n <= |e|
    requires forall i, j :: 0 <= i < j < |e| ==> conv(e[i].0) != conv(e[j].0)
    requires forall i :: 0 <= i < |e| ==> !e[i].1.Arr? && !e[i].1.Obj? && !e[i].1.Dto?
    ensures NormalizedEntries(conv, Obj(e), n) == ConvertedKeys(conv, e, n)
    decreases n
  {
    if n > 0 {
      FlatNormalized(conv, e, n - 1);
      NormalizedScalar(conv, e[n - 1].1);
      PutFresh(ConvertedKeys(conv, e, n - 1), conv(e[n - 1].0), e[n - 1].1);
    }
  }

  /** The serializer, configured with the key converter applied on the way out. */
  class Serializer {
    const nameConverter: string -> string

    constructor (nameConverter: string -> string)
      ensures this.nameConverter == nameConverter
    {
      this.nameConverter := nameConverter;
    }

    /** `serialize`: the JSON text of the normalized payload. */
    method Serialize(data: Value, stringify: Value -> string) returns (json: string)
      ensures json == stringify(Normalized(nameConverter, data))
    {
      var normalized := Normalize(data);
      json := stringify(normalized);
    }

    /** `deserialize`. */
    method Deserialize(json: Value, parse: string -> Option<Value>) returns (r: Result<Value>)
      ensures r == Deserialized(json, parse)
    {
      var data: Value;
      if json.Str? {
        var parsed := parse(json.s);
        if parsed.None? {
          return Err("Unexpected token in JSON");
        }
        data := parsed.value;
      } else {
        data := json;
      }
      r := Denormalize(data);
    }

    /** `normalize`, recursive, filling a fresh object in a loop. */
    method Normalize(data: Value) returns (r: Value)
      ensures r == Normalized(nameConverter, data)
      decreases data
    {
      match data
      case Arr(items) =>
        var out: seq<Value> := [];
        var i := 0;
        while i < |items|
          invariant 0 <= i <= |items|
          invariant out == NormalizedItems(nameConverter, data, i)
        {
          var item := Normalize(items[i]);
          out := out + [item];
          i := i + 1;
        }
        r := Arr(out);
      case Obj(e) =>
        var out := NormalizeObject(data);
        r := Obj(out);
      case Dto(_, e) =>
        var out := NormalizeObject(data);
        r := Obj(out);
      case _ =>
        r := data;
    }

    method NormalizeObject(o: Value) returns (normalized: Entries)
      requires o.Obj? || o.Dto?
      ensures normalized == NormalizedEntries(nameConverter, o, |EntriesOfObject(o)|)
      decreases o, 1
    {
      var e := EntriesOfObject(o);
      normalized := [];
      var i := 0;
      while i < |e|
        invariant 0 <= i <= |e|
        invariant normalized == NormalizedEntries(nameConverter, o, i)
      {
        normalized := NormalizeEntry(o, i, normalized);
        i := i + 1;
      }
    }

    /** One turn of the loop: entry `i` under its converted key, its value normalized. */
    method NormalizeEntry(o: Value, i: nat, prev: Entries) returns (next: Entries)
      requires (o.Obj? || o.Dto?) && i < |EntriesOfObject(o)|
      requires prev == NormalizedEntries(nameConverter, o, i)
      ensures next == NormalizedEntries(nameConverter, o, i + 1)
      decreases o, 0
    {
      var entry := EntriesOfObject(o)[i];
      EntryBelow(o, i);
      var key := nameConverter(entry.0);
      var value := Normalize(entry.1);
      NormalizedEntriesStep(nameConverter, o, i, prev, key, value);
      next := Put(prev, key, value);
    }

    /** `denormalize`: `Object.entries` (a TypeError on null or undefined), then every key through
        `camelCaseKey` into a fresh object. */
    method Denormalize(data: Value) returns (r: Result<Value>)
      ensures r == Denormalized(data)
    {
      var entries := OwnEntries(data);
      if entries.Err? {
        return Err(entries.message);
      }
      var e := entries.value;
      var result: Entries := [];
      var i := 0;
      while i < |e|
        invariant 0 <= i <= |e|
        invariant result == Spread([], CamelRenamed(e[..i]))
      {
        DenormalizeStep(e, i);
        result := Put(result, CamelCaseKey(e[i].0), e[i].1);
        i := i + 1;
      }
      assert e[..i] == e;
      r := Ok(Obj(result));
    }
  }

  /** What `deserialize` returns: a string is parsed first (a parse failure throws), anything else
      is denormalized as is. */
  function Deserialized(json: Value, parse: string -> Option<Value>): (r: Result<Value>)
    ensures json.Str? && parse(json.s).None? ==> r.Err?
    ensures json.Str? && parse(json.s).Some? ==> r == Denormalized(parse(json.s).value)
    ensures !json.Str? ==> r == Denormalized(json)
  {
    if !json.Str? then Denormalized(json)
    else match parse(json.s)
      case None => Err("Unexpected token in JSON")
      case Some(data) => Denormalized(data)
  }

  /** What `denormalize` returns: the spread of the renamed top-level entries. */
  function Denormalized(data: Value): (r: Result<Value>)
    ensures r.Err? <==> data.Undefined? || data.Null?
    ensures r.Ok? ==> r.value.Obj?
  {
    match OwnEntries(data)
    case Err(m) => Err(m)
    case Ok(e) => Ok(Obj(Spread([], CamelRenamed(e))))
  }

  /** Each value of an object is smaller than the object. */
  lemma EntryBelow(o: Value, i: nat)
    requires (o.Obj? || o.Dto?) && i < |EntriesOfObject(o)|
    ensures EntriesOfObject(o)[i].1 < o
  {
    assert EntriesOfObject(o)[i] in EntriesOfObject(o);
  }

  lemma NormalizedEntriesStep(conv: string -> string, o: Value, i: nat, prev: Entries, k: string, v: Value)
    requires o.Obj? || o.Dto?
    requires i < |EntriesOfObject(o)|
    requires prev == NormalizedEntries(conv, o, i)
    requires k == conv(EntriesOfObject(o)[i].0) && v == Normalized(conv, EntriesOfObject(o)[i].1)
    ensures NormalizedEntries(conv, o, i + 1) == Put(prev, k, v)
  {
  }

  lemma DenormalizeStep(e: Entries, i: nat)
    requires i < |e|
    ensures Spread([], CamelRenamed(e[..i + 1])) == Put(Spread([], CamelRenamed(e[..i])), CamelCaseKey(e[i].0), e[i].1)
  {
    assert e[..i + 1] == e[..i] + [e[i]];
    CamelRenamedSnoc(e[..i], e[i]);
    SpreadStep([], CamelRenamed(e[..i]), (CamelCaseKey(e[i].0), e[i].1));
  }

  lemma CamelRenamedSnoc(e: Entries, x: (string, Value))
    ensures CamelRenamed(e + [x]) == CamelRenamed(e) + [(CamelCaseKey(x.0), x.1)]
  {
    var l, r := CamelRenamed(e + [x]), CamelRenamed(e) + [(CamelCaseKey(x.0), x.1)];
    assert |l| == |r|;
    forall i | 0 <= i < |l| ensures l[i] == r[i] {
      if i < |e| { assert (e + [x])[i] == e[i]; }
    }
  }
}

/** DTO serialization (src/models/base.ts) and the `@SerializedName` decorator
    (src/decorators.ts). Every DTO class owns a static rename map from property
    name to JSON name; the registry holds those maps, indexed by class name. */
module BaseDtos {
  import opened Js

  type RenameMap = map<string, string>

  /** The static `serializedNames` maps of all DTO classes. */
  class Registry {
    var names: map<string, RenameMap>

    constructor ()
      ensures names == map[]
    {
      names := map[];
    }

    /** `SerializedName(name)(target, propertyKey)` on a property of class `cls`. */
    method SerializedName(cls: string, propertyKey: string, name: string)
      modifies this
      ensures names == Registered(old(names), cls, propertyKey, name)
    {
      var serializedNames := if cls in names then names[cls] else map[];
      serializedNames := serializedNames[propertyKey := name];
      names := names[cls := serializedNames];
    }

    /** `toJSON` of DTO `d`: one entry per own key, under its serialized name, with nested DTOs
        serialized recursively and DTOs inside arrays serialized one level down. */
    method ToJson(d: Value) returns (result: Entries)
      requires d.Dto?
      ensures result == JsonEntries(names, d, |d.fields|)
      decreases d, 1
    {
      result := [];
      var keys := d.fields;
      var i := 0;
      while i < |keys|
        invariant 0 <= i <= |keys|
        invariant result == JsonEntries(names, d, i)
      {
        var (key, value) := keys[i];
        assert keys[i] in keys;
        var serializedName := NameOf(names, d.cls, key);
        var json := ToJsonValue(value);
        JsonEntriesStep(names, d, i, result, serializedName, json);
        result := Put(result, serializedName, json);
        i := i + 1;
      }
    }

    /** The JSON written for one property value: a DTO through its `toJSON`, an array through
        `MapItems`, anything else as it is. */
    method ToJsonValue(value: Value) returns (json: Value)
      ensures json == JsonValue(names, value)
      decreases value, 2
    {
      if value.Dto? {
        var nested := ToJson(value);
        json := Obj(nested);
      } else if value.Arr? {
        var items := MapItems(value);
        json := Arr(items);
      } else {
        json := value;
      }
    }

    /** `value.map(item => item instanceof BaseDTO ? item.toJSON() : item)`. */
    method MapItems(a: Value) returns (out: seq<Value>)
      requires a.Arr?
      ensures out == JsonItems(names, a, |a.items|)
      decreases a, 0
    {
      out := [];
      var i := 0;
      while i < |a.items|
        invariant 0 <= i <= |a.items|
        invariant out == JsonItems(names, a, i)
      {
        var item := a.items[i];
        assert item in a.items;
        if item.Dto? {
          var nested := ToJson(item);
          out := out + [Obj(nested)];
        } else {
          out := out + [item];
        }
        i := i + 1;
      }
    }
  }

  /** The registry after decorating property `key` of class `cls` with `name`: the class's map is
      created when it has none; afterwards `key` maps to `name`, every other key of the class
      keeps its name, and no other class is touched. */
  function Registered(names: map<string, RenameMap>, cls: string, key: string, name: string): (r: map<string, RenameMap>)
    ensures cls in r && key in r[cls] && r[cls][key] == name
    ensures cls !in names ==> r[cls] == map[key := name]
    ensures cls in names ==> forall k :: k != key ==> (k in r[cls] <==> k in names[cls])
    ensures cls in names ==> forall k :: k != key && k in names[cls] ==> r[cls][k] == names[cls][k]
    ensures forall c :: c != cls ==> (c in r <==> c in names)
    ensures forall c :: c != cls && c in names ==> r[c] == names[c]
  {
    names[cls := (if cls in names then names[cls] else map[])[key := name]]
  }

  /** Decorating the same property again replaces its name. */
  lemma RegisteredOverwrites(names: map<string, RenameMap>, cls: string, key: string, first: string, second: string)
    ensures Registered(Registered(names, cls, key, first), cls, key, second) == Registered(names, cls, key, second)
  {
    var m := if cls in names then names[cls] else map[];
    var after := Registered(names, cls, key, first);
    assert after == names[cls := m[key := first]];
    assert after[cls][key := second] == m[key := second];
    assert Registered(after, cls, key, second) == after[cls := m[key := second]];
  }

  /** `serializedNames.get(key) || key`: the registered name, or the key itself when the class has
      no map, the key is unmapped, or its name is empty. */
  function NameOf(names: map<string, RenameMap>, cls: string, key: string): (n: string)
    ensures cls !in names ==> n == key
    ensures cls in names && key in names[cls] && names[cls][key] != "" ==> n == names[cls][key]
    ensures n == key || (cls in names && key in names[cls] && n == names[cls][key])
  {
    if cls in names && key in names[cls] && names[cls][key] != "" then names[cls][key] else key
  }

  /** The JSON written for one property value. */
  function JsonValue(names: map<string, RenameMap>, v: Value): (r: Value)
    ensures v.Arr? ==> r.Arr? && |r.items| == |v.items|
    ensures !v.Arr? && !v.Dto? ==> r == v
    decreases v, 1
  {
    match v
    case Dto(_, f) => Obj(JsonEntries(names, v, |f|))
    case Arr(items) => Arr(JsonItems(names, v, |items|))
    case _ => v
  }

  /** The first `n` items of array `a`, each DTO serialized and everything else copied. */
  function JsonItems(names: map<string, RenameMap>, a: Value, n: nat): (r: seq<Value>)
    requires a.Arr? && n <= |a.items|
    ensures |r| == n
    ensures forall i :: 0 <= i < n && !a.items[i].Dto? ==> r[i] == a.items[i]
    ensures forall i :: 0 <= i < n && a.items[i].Dto? ==> r[i].Obj?
    decreases a, 0, n
  {
    if n == 0 then []
    else
      var item := a.items[n - 1];
      JsonItems(names, a, n - 1) + [if item.Dto? then Obj(JsonEntries(names, item, |item.fields|)) else item]
  }

  /** An array keeps its length and order: item `i` of the result is item `i` serialized when it is a
      DTO and item `i` itself otherwise. */
  lemma {:induction false} JsonItemsAt(names: map<string, RenameMap>, a: Value, n: nat, i: nat)
    requires a.Arr? && i < n <= |a.items|
    ensures JsonItems(names, a, n)[i] == (if a.items[i].Dto? then JsonValue(names, a.items[i]) else a.items[i])
  {
    JsonItemsUnfold(names, a, n);
    if i < n - 1 {
      JsonItemsAt(names, a, n - 1, i);
    }
  }

  lemma JsonItemsUnfold(names: map<string, RenameMap>, a: Value, n: nat)
    requires a.Arr? && 0 < n <= |a.items|
    ensures JsonItems(names, a, n) == JsonItems(names, a, n - 1) +
      [if a.items[n - 1].Dto? then JsonValue(names, a.items[n - 1]) else a.items[n - 1]]
  {
  }

  /** The result of `toJSON` after the first `n` own keys of DTO `d`: one entry per JSON name,
      so never more entries than keys read. */
  function JsonEntries(names: map<string, RenameMap>, d: Value, n: nat): (r: Entries)
    requires d.Dto? && n <= |d.fields|
    ensures |r| <= n && (n > 0 ==> |r| > 0)
    decreases d, 0, n
  {
    if n == 0 then []
    else
      var (key, value) := d.fields[n - 1];
      Put(JsonEntries(names, d, n - 1), NameOf(names, d.cls, key), JsonValue(names, value))
  }

  lemma JsonEntriesStep(names: map<string, RenameMap>, d: Value, i: nat, prev: Entries, k: string, v: Value)
    requires d.Dto? && i < |d.fields|
    requires prev == JsonEntries(names, d, i)
    requires k == NameOf(names, d.cls, d.fields[i].0) && v == JsonValue(names, d.fields[i].1)
    ensures JsonEntries(names, d, i + 1) == Put(prev, k, v)
  {
  }

  /** Each own key of `d` under its JSON name, with its serialized value. */
  function Serialized(names: map<string, RenameMap>, d: Value): (r: Entries)
    requires d.Dto?
    ensures |r| == |d.fields|
  {
    seq(|d.fields|, i requires 0 <= i < |d.fields| => (NameOf(names, d.cls, d.fields[i].0), JsonValue(names, d.fields[i].1)))
  }

  lemma SerializedAt(names: map<string, RenameMap>, d: Value, i: nat)
    requires d.Dto? && i < |d.fields|
    ensures Serialized(names, d)[i] == (NameOf(names, d.cls, d.fields[i].0), JsonValue(names, d.fields[i].1))
  {
  }

  /** With pairwise different JSON names, `toJSON` emits exactly one entry per own key, in order,
      named by the rename map and holding the serialized value. */
  lemma {:induction false} JsonEntriesExact(names: map<string, RenameMap>, d: Value, n: nat)
    requires d.Dto? && n <= |d.fields| && DistinctKeys(Serialized(names, d))
    ensures JsonEntries(names, d, n) == Serialized(names, d)[..n]
  {
    var want := Serialized(names, d);
    if n > 0 {
      JsonEntriesExact(names, d, n - 1);
      DistinctPrefixFresh(want, n - 1);
      PutFresh(want[..n - 1], want[n - 1].0, want[n - 1].1);
    }
  }

  /** A class without a rename map keeps every key name: `toJSON` of a DTO with distinct own keys
      is its own entries with the values serialized. */
  lemma ToJsonUnmapped(names: map<string, RenameMap>, d: Value)
    requires d.Dto? && d.cls !in names && DistinctKeys(d.fields)
    ensures Keys(JsonEntries(names, d, |d.fields|)) == Keys(d.fields)
    ensures forall i :: 0 <= i < |d.fields| ==> JsonEntries(names, d, |d.fields|)[i].1 == JsonValue(names, d.fields[i].1)
  {
    var want := Serialized(names, d);
    assert DistinctKeys(want) by {
      forall i, j | 0 <= i < j < |want| ensures want[i].0 != want[j].0 {
        assert want[i].0 == d.fields[i].0 && want[j].0 == d.fields[j].0;
      }
    }
    JsonEntriesExact(names, d, |d.fields|);
    assert want[..|d.fields|] == want;
  }
}

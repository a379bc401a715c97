/** The plugin listing models (src/models/api/plugins.ts) and their `toArray`
    serializations, which are plain object literals. */
module Plugins {
  import opened Js

  datatype FilterOutput = FilterOutput(query: NullableString)

  datatype HookOutput = HookOutput(name: string, priority: int)

  datatype ToolOutput = ToolOutput(name: string)

  datatype PluginItemOutput = PluginItemOutput(
    id: string, name: string, description: string, authorName: string, authorUrl: string, pluginUrl: string,
    tags: string, thumb: string, version: string, active: bool, hooks: seq<HookOutput>, tools: seq<ToolOutput>)

  datatype PluginItemRegistryOutput = PluginItemRegistryOutput(
    id: string, name: string, description: string, authorName: string, authorUrl: string, pluginUrl: string,
    tags: string, thumb: string, version: string, url: string)

  datatype PluginCollectionOutput = PluginCollectionOutput(
    filters: FilterOutput, installed: seq<PluginItemOutput>, registry: seq<PluginItemRegistryOutput>)

  /** A fresh FilterOutput has a null query. */
  function NewFilterOutput(): (f: FilterOutput)
    ensures f.query == Null
  {
    FilterOutput(Null)
  }

  /** A fresh PluginCollectionOutput: a fresh filter, nothing installed, an empty registry. */
  function NewPluginCollectionOutput(): (c: PluginCollectionOutput)
    ensures c.filters.query == Null && c.installed == [] && c.registry == []
  {
    PluginCollectionOutput(NewFilterOutput(), [], [])
  }

  /** `FilterOutput.toArray`: the query alone. */
  function FilterToArray(f: FilterOutput): (r: Entries)
    ensures Keys(r) == ["query"]
  {
    [("query", f.query)]
  }

  /** `HookOutput.toArray`: the name and the priority. */
  function HookToArray(h: HookOutput): (r: Entries)
    ensures Keys(r) == ["name", "priority"]
  {
    [("name", Str(h.name)), ("priority", Num(h.priority))]
  }

  /** `ToolOutput.toArray`: the name alone. */
  function ToolToArray(t: ToolOutput): (r: Entries)
    ensures Keys(r) == ["name"]
  {
    [("name", Str(t.name))]
  }

  /** `PluginItemOutput.toArray`: exactly these twelve keys, the camelCase author
      and URL fields under snake_case names and the other fields under their own. */
  function PluginItemToArray(p: PluginItemOutput): (r: Entries)
    ensures Keys(r) == ["id", "name", "description", "author_name", "author_url", "plugin_url", "tags", "thumb",
                        "version", "active", "hooks", "tools"]
  {
    [("id", Str(p.id)), ("name", Str(p.name)), ("description", Str(p.description)),
     ("author_name", Str(p.authorName)), ("author_url", Str(p.authorUrl)), ("plugin_url", Str(p.pluginUrl)),
     ("tags", Str(p.tags)), ("thumb", Str(p.thumb)), ("version", Str(p.version)), ("active", Bool(p.active)),
     ("hooks", Arr(HooksToArray(p.hooks))), ("tools", Arr(ToolsToArray(p.tools)))]
  }

  /** `PluginItemRegistryOutput.toArray`: exactly these ten keys, url included. */
  function PluginItemRegistryToArray(p: PluginItemRegistryOutput): (r: Entries)
    ensures Keys(r) == ["id", "name", "description", "author_name", "author_url", "plugin_url", "tags", "thumb",
                        "version", "url"]
  {
    [("id", Str(p.id)), ("name", Str(p.name)), ("description", Str(p.description)),
     ("author_name", Str(p.authorName)), ("author_url", Str(p.authorUrl)), ("plugin_url", Str(p.pluginUrl)),
     ("tags", Str(p.tags)), ("thumb", Str(p.thumb)), ("version", Str(p.version)), ("url", Str(p.url))]
  }

  /** `PluginCollectionOutput.toArray`: the filters, then the installed and the registry lists. */
  function PluginCollectionToArray(c: PluginCollectionOutput): (r: Entries)
    ensures Keys(r) == ["filters", "installed", "registry"]
  {
    [("filters", Obj(FilterToArray(c.filters))), ("installed", Arr(InstalledToArray(c.installed))),
     ("registry", Arr(RegistryToArray(c.registry)))]
  }

  /** `hooks.map(item => item.toArray())`: same length, same order. */
  function HooksToArray(hs: seq<HookOutput>): (r: seq<Value>)
    ensures |r| == |hs|
    ensures forall i :: 0 <= i < |hs| ==> r[i] == Obj(HookToArray(hs[i]))
  {
    if hs == [] then [] else [Obj(HookToArray(hs[0]))] + HooksToArray(hs[1..])
  }

  /** `tools.map(item => item.toArray())`: same length, same order. */
  function ToolsToArray(ts: seq<ToolOutput>): (r: seq<Value>)
    ensures |r| == |ts|
    ensures forall i :: 0 <= i < |ts| ==> r[i] == Obj(ToolToArray(ts[i]))
  {
    if ts == [] then [] else [Obj(ToolToArray(ts[0]))] + ToolsToArray(ts[1..])
  }

  /** `installed.map(item => item.toArray())`: same length, same order. */
  function InstalledToArray(ps: seq<PluginItemOutput>): (r: seq<Value>)
    ensures |r| == |ps|
    ensures forall i :: 0 <= i < |ps| ==> r[i] == Obj(PluginItemToArray(ps[i]))
  {
    if ps == [] then [] else [Obj(PluginItemToArray(ps[0]))] + InstalledToArray(ps[1..])
  }

  /** `registry.map(item => item.toArray())`: same length, same order. */
  function RegistryToArray(ps: seq<PluginItemRegistryOutput>): (r: seq<Value>)
    ensures |r| == |ps|
    ensures forall i :: 0 <= i < |ps| ==> r[i] == Obj(PluginItemRegistryToArray(ps[i]))
  {
    if ps == [] then [] else [Obj(PluginItemRegistryToArray(ps[0]))] + RegistryToArray(ps[1..])
  }

  /** The filter serializes to exactly its query. */
  lemma FilterToArraySpec(f: FilterOutput, k: string)
    ensures Keys(FilterToArray(f)) == ["query"]
    ensures Get(FilterToArray(f), k) == if k == "query" then Some(f.query) else None
  {
    GetByFirst(FilterToArray(f), "query", 0);
  }

  /** A hook serializes to exactly its name and priority. */
  lemma HookToArraySpec(h: HookOutput, k: string)
    ensures Keys(HookToArray(h)) == ["name", "priority"]
    ensures Get(HookToArray(h), k) ==
      if k == "name" then Some(Str(h.name)) else if k == "priority" then Some(Num(h.priority)) else None
  {
    var e := HookToArray(h);
    assert Keys(e) == ["name", "priority"];
    GetAt(e, 0);
    GetAt(e, 1);
  }

  /** No key of a plugin item appears twice. */
  lemma PluginItemDistinct(p: PluginItemOutput)
    ensures DistinctKeys(PluginItemToArray(p))
  {
    var e := PluginItemToArray(p);
    var codes := [KeyCode("id"), KeyCode("name"), KeyCode("description"), KeyCode("author_name"),
                  KeyCode("author_url"), KeyCode("plugin_url"), KeyCode("tags"), KeyCode("thumb"),
                  KeyCode("version"), KeyCode("active"), KeyCode("hooks"), KeyCode("tools")];
    assert forall i :: 0 <= i < |e| ==> KeyCode(e[i].0) == codes[i];
    DistinctByCode(e, codes);
  }

  /** authorName, authorUrl and pluginUrl are read back as author_name, author_url and plugin_url. */
  lemma PluginItemRenamed(p: PluginItemOutput)
    ensures Get(PluginItemToArray(p), "author_name") == Some(Str(p.authorName))
    ensures Get(PluginItemToArray(p), "author_url") == Some(Str(p.authorUrl))
    ensures Get(PluginItemToArray(p), "plugin_url") == Some(Str(p.pluginUrl))
  {
    var e := PluginItemToArray(p);
    PluginItemDistinct(p);
    GetAtKey(e, 3, "author_name");
    GetAtKey(e, 4, "author_url");
    GetAtKey(e, 5, "plugin_url");
  }

  /** The camelCase names authorName, authorUrl and pluginUrl do not appear. */
  lemma PluginItemNoCamelCase(p: PluginItemOutput)
    ensures Get(PluginItemToArray(p), "authorName") == None && Get(PluginItemToArray(p), "authorUrl") == None
    ensures Get(PluginItemToArray(p), "pluginUrl") == None
  {
    var e := PluginItemToArray(p);
    GetAbsent(e, "authorName");
    GetAbsent(e, "authorUrl");
    GetAbsent(e, "pluginUrl");
  }

  /** The remaining scalar fields are read back unchanged under their own names. */
  lemma PluginItemCopied(p: PluginItemOutput)
    ensures Get(PluginItemToArray(p), "id") == Some(Str(p.id)) && Get(PluginItemToArray(p), "name") == Some(Str(p.name))
    ensures Get(PluginItemToArray(p), "description") == Some(Str(p.description))
    ensures Get(PluginItemToArray(p), "tags") == Some(Str(p.tags)) && Get(PluginItemToArray(p), "thumb") == Some(Str(p.thumb))
    ensures Get(PluginItemToArray(p), "version") == Some(Str(p.version))
    ensures Get(PluginItemToArray(p), "active") == Some(Bool(p.active))
  {
    var e := PluginItemToArray(p);
    PluginItemDistinct(p);
    GetAt(e, 0);
    GetAt(e, 1);
    GetAt(e, 2);
    GetAt(e, 6);
    GetAt(e, 7);
    GetAt(e, 8);
    GetAt(e, 9);
  }

  /** hooks and tools are read back as the elementwise serializations of the two lists. */
  lemma PluginItemLists(p: PluginItemOutput)
    ensures Get(PluginItemToArray(p), "hooks") == Some(Arr(HooksToArray(p.hooks)))
    ensures Get(PluginItemToArray(p), "tools") == Some(Arr(ToolsToArray(p.tools)))
  {
    var e := PluginItemToArray(p);
    PluginItemDistinct(p);
    GetAtKey(e, 10, "hooks");
    GetAtKey(e, 11, "tools");
  }

  /** A registry item has none of active, hooks and tools. */
  lemma PluginItemRegistryAbsent(p: PluginItemRegistryOutput)
    ensures Get(PluginItemRegistryToArray(p), "active") == None && Get(PluginItemRegistryToArray(p), "hooks") == None
    ensures Get(PluginItemRegistryToArray(p), "tools") == None
  {
    var e := PluginItemRegistryToArray(p);
    GetAbsent(e, "active");
    GetAbsent(e, "hooks");
    GetAbsent(e, "tools");
  }

  /** No key of a registry item appears twice. */
  lemma PluginItemRegistryDistinct(p: PluginItemRegistryOutput)
    ensures DistinctKeys(PluginItemRegistryToArray(p))
  {
    var e := PluginItemRegistryToArray(p);
    var codes := [KeyCode("id"), KeyCode("name"), KeyCode("description"), KeyCode("author_name"),
                  KeyCode("author_url"), KeyCode("plugin_url"), KeyCode("tags"), KeyCode("thumb"),
                  KeyCode("version"), KeyCode("url")];
    assert forall i :: 0 <= i < |e| ==> KeyCode(e[i].0) == codes[i];
    DistinctByCode(e, codes);
  }

  /** A registry item reads back its url and its renamed author and URL fields. */
  lemma PluginItemRegistryRead(p: PluginItemRegistryOutput)
    ensures Get(PluginItemRegistryToArray(p), "url") == Some(Str(p.url))
    ensures Get(PluginItemRegistryToArray(p), "author_name") == Some(Str(p.authorName))
    ensures Get(PluginItemRegistryToArray(p), "author_url") == Some(Str(p.authorUrl))
    ensures Get(PluginItemRegistryToArray(p), "plugin_url") == Some(Str(p.pluginUrl))
  {
    var e := PluginItemRegistryToArray(p);
    PluginItemRegistryDistinct(p);
    GetAtKey(e, 3, "author_name");
    GetAtKey(e, 4, "author_url");
    GetAtKey(e, 5, "plugin_url");
    GetAtKey(e, 9, "url");
  }

  /** The collection serializes its filter and both lists, keeping length and order of each. */
  lemma PluginCollectionToArraySpec(c: PluginCollectionOutput)
    ensures Keys(PluginCollectionToArray(c)) == ["filters", "installed", "registry"]
    ensures Get(PluginCollectionToArray(c), "filters") == Some(Obj([("query", c.filters.query)]))
    ensures Get(PluginCollectionToArray(c), "installed").Some?
    ensures Get(PluginCollectionToArray(c), "installed").value.Arr?
    ensures |Get(PluginCollectionToArray(c), "installed").value.items| == |c.installed|
    ensures forall i :: 0 <= i < |c.installed| ==>
      Get(PluginCollectionToArray(c), "installed").value.items[i] == Obj(PluginItemToArray(c.installed[i]))
    ensures Get(PluginCollectionToArray(c), "registry").Some?
    ensures Get(PluginCollectionToArray(c), "registry").value.Arr?
    ensures |Get(PluginCollectionToArray(c), "registry").value.items| == |c.registry|
    ensures forall i :: 0 <= i < |c.registry| ==>
      Get(PluginCollectionToArray(c), "registry").value.items[i] == Obj(PluginItemRegistryToArray(c.registry[i]))
  {
    var e := PluginCollectionToArray(c);
    assert Keys(e) == ["filters", "installed", "registry"];
    GetAtKey(e, 0, "filters"); GetAtKey(e, 1, "installed"); GetAtKey(e, 2, "registry");
  }
}

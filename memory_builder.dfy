/** The fluent builders of memory payloads (src/builders/memory.ts). */
module MemoryBuilders {
  import opened Js

  /** `Record<string, any>[] | null | undefined`. */
  type NullableList = v: Value | v.Undefined? || v.Null? || v.Arr? witness Undefined

  /** `list ?? []`. */
  function ListOrEmpty(v: NullableList): seq<Value>
  {
    Coalesce(v, Arr([])).items
  }

  /** The plain `Memory` object `build` returns. */
  function MemoryObject(episodic: seq<Value>, declarative: seq<Value>, procedural: seq<Value>): Value
  {
    Obj([("episodic", Arr(episodic)), ("declarative", Arr(declarative)), ("procedural", Arr(procedural))])
  }

  class MemoryBuilder {
    var episodic: seq<Value>
    var declarative: seq<Value>
    var procedural: seq<Value>

    /** `MemoryBuilder.create()`: three empty lists. */
    constructor ()
      ensures episodic == [] && declarative == [] && procedural == []
    {
      episodic := [];
      declarative := [];
      procedural := [];
    }

    method SetEpisodic(episodic: NullableList) returns (r: MemoryBuilder)
      modifies this
      ensures r == this && this.episodic == ListOrEmpty(episodic)
      ensures declarative == old(declarative) && procedural == old(procedural)
    {
      this.episodic := ListOrEmpty(episodic);
      r := this;
    }

    method SetDeclarative(declarative: NullableList) returns (r: MemoryBuilder)
      modifies this
      ensures r == this && this.declarative == ListOrEmpty(declarative)
      ensures episodic == old(episodic) && procedural == old(procedural)
    {
      this.declarative := ListOrEmpty(declarative);
      r := this;
    }

    method SetProcedural(procedural: NullableList) returns (r: MemoryBuilder)
      modifies this
      ensures r == this && this.procedural == ListOrEmpty(procedural)
      ensures episodic == old(episodic) && declarative == old(declarative)
    {
      this.procedural := ListOrEmpty(procedural);
      r := this;
    }

    /** `build`: the current three lists. */
    method Build() returns (m: Value)
      ensures m == MemoryObject(episodic, declarative, procedural)
    {
      m := Obj([("episodic", Arr(episodic)), ("declarative", Arr(declarative)), ("procedural", Arr(procedural))]);
    }
  }

  /** A chain of setters on a fresh builder: each list is the last one given, [] for null or
      undefined, and a list never set stays empty. */
  method BuildAfterSetters(episodic: NullableList, firstDeclarative: NullableList, declarative: NullableList)
    returns (m: Value)
    ensures m == MemoryObject(ListOrEmpty(episodic), ListOrEmpty(declarative), [])
  {
    var b := new MemoryBuilder();
    b := b.SetEpisodic(episodic);
    b := b.SetDeclarative(firstDeclarative);
    b := b.SetDeclarative(declarative);
    m := b.Build();
  }

  /** The plain `MemoryPoint` object `build` returns. */
  function MemoryPointObject(content: NullableString, metadata: Value): Value
  {
    Obj([("content", content), ("metadata", metadata)])
  }

  class MemoryPointBuilder {
    /** Undefined until `setContent` runs. */
    var content: NullableString
    /** Undefined until `setMetadata` runs. */
    var metadata: Value

    /** `MemoryPointBuilder.create()`: neither content nor metadata yet. */
    constructor ()
      ensures content == Undefined && metadata == Undefined
    {
      content := Undefined;
      metadata := Undefined;
    }

    method SetContent(content: string) returns (r: MemoryPointBuilder)
      modifies this
      ensures r == this && this.content == Str(content) && metadata == old(metadata)
    {
      this.content := Str(content);
      r := this;
    }

    method SetMetadata(metadata: Value) returns (r: MemoryPointBuilder)
      modifies this
      ensures r == this && this.metadata == metadata && content == old(content)
    {
      this.metadata := metadata;
      r := this;
    }

    /** `build`: the content and metadata last set. */
    method Build() returns (p: Value)
      ensures p == MemoryPointObject(content, metadata)
    {
      p := Obj([("content", content), ("metadata", metadata)]);
    }
  }

  /** Setting the content twice keeps the last one, and metadata set in between survives. */
  method BuildMemoryPoint(first: string, second: string, metadata: Value) returns (p: Value)
    ensures p == MemoryPointObject(Str(second), metadata)
  {
    var b := new MemoryPointBuilder();
    b := b.SetContent(first);
    b := b.SetMetadata(metadata);
    b := b.SetContent(second);
    p := b.Build();
  }
}

/** The message and agent DTOs (src/models/dtos.ts): their defaults and their
    `toArray` serializations. */
module Dtos {
  import opened Js
  import opened BaseDtos

  /** `AgentOutput`: an agent's answer, serialized through `toJSON` with three renamed fields. */
  class AgentOutput {
    var output: NullableString
    var intermediateSteps: seq<Value>
    var returnDirect: bool
    var withLlmError: bool

    /** No output, no steps, not a direct return, no LLM error. */
    constructor ()
      ensures output == Null && intermediateSteps == [] && !returnDirect && !withLlmError
    {
      output := Null;
      intermediateSteps := [];
      returnDirect := false;
      withLlmError := false;
    }

    /** The instance as a DTO value, own keys in declaration order. */
    function AsDto(): (d: Value)
      reads this
    {
      Dto("AgentOutput", [("output", output), ("intermediateSteps", Arr(intermediateSteps)),
                          ("returnDirect", Bool(returnDirect)), ("withLlmError", Bool(withLlmError))])
    }

    /** `toArray`, which is `toJSON`; AgentOutputJson says what it gives once the decorators ran. */
    method ToArray(registry: Registry) returns (r: Entries)
      ensures r == JsonEntries(registry.names, AsDto(), 4)
    {
      r := registry.ToJson(AsDto());
    }
  }

  /** The registry after the three `@SerializedName` decorators of AgentOutput. */
  function AgentOutputNames(names: map<string, RenameMap>): map<string, RenameMap>
  {
    var n1 := Registered(names, "AgentOutput", "intermediateSteps", "intermediate_steps");
    var n2 := Registered(n1, "AgentOutput", "returnDirect", "return_direct");
    Registered(n2, "AgentOutput", "withLlmError", "with_llm_error")
  }

  /** Once the decorators ran, an AgentOutput whose steps are plain records serializes to
      output, intermediate_steps, return_direct and with_llm_error, in that order, values as they are. */
  lemma AgentOutputJson(names: map<string, RenameMap>, output: NullableString, steps: seq<Value>, returnDirect: bool,
                        withLlmError: bool)
    requires "AgentOutput" !in names
    requires forall i :: 0 <= i < |steps| ==> !steps[i].Dto?
    ensures JsonEntries(AgentOutputNames(names), Dto("AgentOutput", [("output", output), ("intermediateSteps", Arr(steps)),
      ("returnDirect", Bool(returnDirect)), ("withLlmError", Bool(withLlmError))]), 4) ==
      [("output", output), ("intermediate_steps", Arr(steps)), ("return_direct", Bool(returnDirect)),
       ("with_llm_error", Bool(withLlmError))]
  {
    var d := Dto("AgentOutput", [("output", output), ("intermediateSteps", Arr(steps)),
      ("returnDirect", Bool(returnDirect)), ("withLlmError", Bool(withLlmError))]);
    var want := [("output", output), ("intermediate_steps", Arr(steps)), ("return_direct", Bool(returnDirect)),
                 ("with_llm_error", Bool(withLlmError))];
    AgentOutputNameOf(names);
    AgentOutputSerialized(AgentOutputNames(names), d, steps, want);
  }

  /** The rename map of AgentOutput once its decorators ran. */
  lemma AgentOutputRenames(names: map<string, RenameMap>)
    requires "AgentOutput" !in names
    ensures "AgentOutput" in AgentOutputNames(names)
    ensures AgentOutputNames(names)["AgentOutput"] == map["intermediateSteps" := "intermediate_steps",
      "returnDirect" := "return_direct", "withLlmError" := "with_llm_error"]
  {
  }

  /** The JSON name of each AgentOutput property. */
  lemma AgentOutputNameOf(names: map<string, RenameMap>)
    requires "AgentOutput" !in names
    ensures NameOf(AgentOutputNames(names), "AgentOutput", "output") == "output"
    ensures NameOf(AgentOutputNames(names), "AgentOutput", "intermediateSteps") == "intermediate_steps"
    ensures NameOf(AgentOutputNames(names), "AgentOutput", "returnDirect") == "return_direct"
    ensures NameOf(AgentOutputNames(names), "AgentOutput", "withLlmError") == "with_llm_error"
  {
    AgentOutputRenames(names);
  }

  /** An array without DTOs serializes to itself. */
  lemma JsonItemsPlain(names: map<string, RenameMap>, steps: seq<Value>)
    requires forall i :: 0 <= i < |steps| ==> !steps[i].Dto?
    ensures JsonItems(names, Arr(steps), |steps|) == steps
  {
    var items := JsonItems(names, Arr(steps), |steps|);
    forall i | 0 <= i < |steps| ensures items[i] == steps[i] {
      JsonItemsAt(names, Arr(steps), |steps|, i);
    }
  }

  /** Under JSON names output, intermediate_steps, return_direct and with_llm_error, an
      AgentOutput whose steps are plain records serializes to its values in that order. */
  lemma AgentOutputSerialized(names: map<string, RenameMap>, d: Value, steps: seq<Value>, want: Entries)
    requires NameOf(names, "AgentOutput", "output") == "output"
    requires NameOf(names, "AgentOutput", "intermediateSteps") == "intermediate_steps"
    requires NameOf(names, "AgentOutput", "returnDirect") == "return_direct"
    requires NameOf(names, "AgentOutput", "withLlmError") == "with_llm_error"
    requires forall i :: 0 <= i < |steps| ==> !steps[i].Dto?
    requires d.Dto? && d.cls == "AgentOutput" && |d.fields| == 4
    requires d.fields[0].0 == "output" && !d.fields[0].1.Arr? && !d.fields[0].1.Dto?
    requires d.fields[1] == ("intermediateSteps", Arr(steps))
    requires d.fields[2].0 == "returnDirect" && d.fields[2].1.Bool?
    requires d.fields[3].0 == "withLlmError" && d.fields[3].1.Bool?
    requires want == [("output", d.fields[0].1), ("intermediate_steps", Arr(steps)),
      ("return_direct", d.fields[2].1), ("with_llm_error", d.fields[3].1)]
    ensures JsonEntries(names, d, 4) == want
  {
    JsonItemsPlain(names, steps);
    var got := Serialized(names, d);
    SerializedAt(names, d, 0);
    SerializedAt(names, d, 1);
    SerializedAt(names, d, 2);
    SerializedAt(names, d, 3);
    assert got[0] == want[0] && got[1] == want[1] && got[2] == want[2] && got[3] == want[3];
    FourKeysDistinct(want);
    JsonEntriesExact(names, d, 4);
    assert got[..4] == got;
  }

  /** The four JSON names of AgentOutput differ pairwise. */
  lemma FourKeysDistinct(want: Entries)
    requires |want| == 4
    requires want[0].0 == "output" && want[1].0 == "intermediate_steps"
    requires want[2].0 == "return_direct" && want[3].0 == "with_llm_error"
    ensures DistinctKeys(want)
  {
  }

  /** What `MessageBase.toArray` returns: `text` always, `image` only when it is truthy. */
  function MessageArray(text: string, image: NullableString): (r: Entries)
    ensures Get(r, "text") == Some(Str(text))
    ensures Get(r, "image") == (if Truthy(image) then Some(image) else None)
    ensures Keys(r) == (if Truthy(image) then ["text", "image"] else ["text"])
  {
    if Truthy(image) then [("text", Str(text)), ("image", image)] else [("text", Str(text))]
  }

  class MessageBase {
    var text: string
    var image: NullableString

    constructor (text: string := "", image: NullableString := Null)
      ensures this.text == text && this.image == image
    {
      this.text := text;
      this.image := image;
    }

    /** `toArray`: starts from `text` and adds `image` when it is truthy. */
    method ToArray() returns (r: Entries)
      ensures r == MessageArray(text, image)
    {
      r := [("text", Str(text))];
      if Truthy(image) {
        r := Put(r, "image", image);
      }
    }
  }

  /** A chat message: a MessageBase with optional extra fields sent alongside. */
  class Message {
    var text: string
    var image: NullableString
    /** `additionalFields`: absent, or a plain object. */
    var additionalFields: Option<Entries>

    /** An undefined or empty image becomes null. */
    constructor (text: string, image: NullableString := Undefined, additionalFields: Option<Entries> := None)
      ensures this.text == text && this.additionalFields == additionalFields
      ensures this.image == (if Truthy(image) then image else Null)
    {
      this.text := text;
      this.image := if Truthy(image) then image else Null;
      this.additionalFields := additionalFields;
    }

    /** `toArray`: the base serialization, with the additional fields spread over it when present,
        so that they override `text` and `image`. */
    method ToArray() returns (r: Entries)
      ensures additionalFields.None? ==> r == MessageArray(text, image)
      ensures additionalFields.Some? ==> forall k :: (Get(r, k) ==
        if k in Keys(additionalFields.value) then LastGet(additionalFields.value, k) else Get(MessageArray(text, image), k))
      ensures |r| >= |MessageArray(text, image)| && Keys(r)[..|MessageArray(text, image)|] == Keys(MessageArray(text, image))
    {
      var result := MessageArray(text, image);
      if additionalFields.Some? {
        r := Spread(Spread([], result), additionalFields.value);
        forall k ensures Get(r, k) ==
          if k in Keys(additionalFields.value) then LastGet(additionalFields.value, k) else Get(result, k)
        {
          SpreadGet(Spread([], result), additionalFields.value, k);
          SpreadGet([], result, k);
          LastGetDistinct(result, k);
        }
        assert Spread([], result) == result by {
          SpreadFresh([], result);
        }
        SpreadKeysPrefix(result, additionalFields.value);
      } else {
        r := result;
      }
    }
  }

  /** `Memory`: the three memory collections, serialized by `toJSON`. */
  class Memory {
    var episodic: seq<Value>
    var declarative: seq<Value>
    var procedural: seq<Value>

    constructor ()
      ensures episodic == [] && declarative == [] && procedural == []
    {
      episodic := [];
      declarative := [];
      procedural := [];
    }

    function AsDto(): (d: Value)
      reads this
    {
      Dto("Memory", [("episodic", Arr(episodic)), ("declarative", Arr(declarative)), ("procedural", Arr(procedural))])
    }

    /** `toArray`, which is `toJSON`. */
    method ToArray(registry: Registry) returns (r: Entries)
      ensures r == JsonEntries(registry.names, AsDto(), 3)
    {
      r := registry.ToJson(AsDto());
    }
  }

  /** `Why`: the explanation of an answer. */
  class Why {
    var input: NullableString
    var intermediateSteps: seq<Value>
    /** Unset (null here) until someone assigns it. */
    var memory: Memory?
    var modelInteractions: seq<Value>

    constructor ()
      ensures input == Undefined && intermediateSteps == [] && memory == null && modelInteractions == []
    {
      input := Undefined;
      intermediateSteps := [];
      memory := null;
      modelInteractions := [];
    }

    /** `toArray`: exactly input, intermediate_steps, memory and model_interactions, the memory
        serialized by its own `toArray`; reading `toArray` of a missing memory throws. */
    method ToArray(registry: Registry) returns (r: Result<Entries>)
      ensures r.Err? <==> memory == null
      ensures r.Ok? ==> Keys(r.value) == ["input", "intermediate_steps", "memory", "model_interactions"]
      ensures r.Ok? ==> r.value[0].1 == input && r.value[1].1 == Arr(intermediateSteps)
      ensures r.Ok? ==> r.value[2].1 == Obj(JsonEntries(registry.names, memory.AsDto(), 3))
      ensures r.Ok? ==> r.value[3].1 == Arr(modelInteractions)
    {
      if memory == null {
        return Err("Cannot read properties of undefined (reading 'toArray')");
      }
      var m := memory.ToArray(registry);
      r := Ok([("input", input), ("intermediate_steps", Arr(intermediateSteps)), ("memory", Obj(m)),
               ("model_interactions", Arr(modelInteractions))]);
    }
  }
}

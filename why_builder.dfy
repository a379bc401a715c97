/** The fluent builder of `Why` payloads (src/builders/why.ts). */
module WhyBuilders {
  import opened Js

  /** `Record<string, any>[] | undefined`. */
  type OptionalList = v: Value | v.Undefined? || v.Null? || v.Arr? witness Undefined

  /** The plain `Why` object `build` returns. */
  function WhyObject(input: NullableString, intermediateSteps: seq<Value>, memory: Value): Value
  {
    Obj([("input", input), ("intermediateSteps", Arr(intermediateSteps)), ("memory", memory)])
  }

  class WhyBuilder {
    /** Undefined until `setInput` runs. */
    var input: NullableString
    var intermediateSteps: seq<Value>
    /** Undefined until `setMemory` runs. */
    var memory: Value

    /** `WhyBuilder.create()`: no input, no steps, no memory. */
    constructor ()
      ensures input == Undefined && intermediateSteps == [] && memory == Undefined
    {
      input := Undefined;
      intermediateSteps := [];
      memory := Undefined;
    }

    /** Stores the input as given, undefined included. */
    method SetInput(input: NullableString) returns (r: WhyBuilder)
      modifies this
      ensures r == this && this.input == input
      ensures intermediateSteps == old(intermediateSteps) && memory == old(memory)
    {
      this.input := input;
      r := this;
    }

    /** Stores the steps, or [] for null or undefined. */
    method SetIntermediateSteps(intermediateSteps: OptionalList) returns (r: WhyBuilder)
      modifies this
      ensures r == this && this.intermediateSteps == (if intermediateSteps.Arr? then intermediateSteps.items else [])
      ensures input == old(input) && memory == old(memory)
    {
      this.intermediateSteps := Coalesce(intermediateSteps, Arr([])).items;
      r := this;
    }

    method SetMemory(memory: Value) returns (r: WhyBuilder)
      modifies this
      ensures r == this && this.memory == memory
      ensures input == old(input) && intermediateSteps == old(intermediateSteps)
    {
      this.memory := memory;
      r := this;
    }

    /** `build`: exactly the current input, steps and memory. */
    method Build() returns (w: Value)
      ensures w == WhyObject(input, intermediateSteps, memory)
    {
      w := Obj([("input", input), ("intermediateSteps", Arr(intermediateSteps)), ("memory", memory)]);
    }
  }

  /** Clearing the steps with undefined leaves [], an input reset to undefined stays undefined,
      and the memory is whatever was set. */
  method BuildAfterReset(input: NullableString, steps: seq<Value>, memory: Value) returns (w: Value)
    ensures w == WhyObject(Undefined, [], memory)
  {
    var b := new WhyBuilder();
    b := b.SetInput(input);
    b := b.SetIntermediateSteps(Arr(steps));
    b := b.SetMemory(memory);
    b := b.SetIntermediateSteps(Undefined);
    b := b.SetInput(Undefined);
    w := b.Build();
  }
}

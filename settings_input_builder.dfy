/** The fluent builder of setting inputs (src/builders/settingsInput.ts). */
module SettingInputBuilders {
  import opened Js

  /** The plain `SettingInput` object `build` returns. */
  function SettingInputObject(name: NullableString, value: Value, category: NullableString): Value
  {
    Obj([("name", name), ("value", value), ("category", category)])
  }

  class SettingInputBuilder {
    /** Undefined until `setName` runs. */
    var name: NullableString
    /** Undefined until `setValue` runs. */
    var value: Value
    /** Undefined until `setCategory` runs. */
    var category: NullableString

    /** `SettingInputBuilder.create()`: nothing set. */
    constructor ()
      ensures name == Undefined && value == Undefined && category == Undefined
    {
      name := Undefined;
      value := Undefined;
      category := Undefined;
    }

    method SetName(name: string) returns (r: SettingInputBuilder)
      modifies this
      ensures r == this && this.name == Str(name)
      ensures value == old(value) && category == old(category)
    {
      this.name := Str(name);
      r := this;
    }

    method SetValue(value: Value) returns (r: SettingInputBuilder)
      modifies this
      ensures r == this && this.value == value
      ensures name == old(name) && category == old(category)
    {
      this.value := value;
      r := this;
    }

    method SetCategory(category: string) returns (r: SettingInputBuilder)
      modifies this
      ensures r == this && this.category == Str(category)
      ensures name == old(name) && value == old(value)
    {
      this.category := Str(category);
      r := this;
    }

    /** `build`: the name, value and category last set. */
    method Build() returns (s: Value)
      ensures s == SettingInputObject(name, value, category)
    {
      s := Obj([("name", name), ("value", value), ("category", category)]);
    }
  }

  /** Without `setCategory` the category is undefined; name and value are the ones last set. */
  method BuildWithoutCategory(name: string, value: Value, laterValue: Value) returns (s: Value)
    ensures s == SettingInputObject(Str(name), laterValue, Undefined)
  {
    var b := new SettingInputBuilder();
    b := b.SetName(name);
    b := b.SetValue(value);
    b := b.SetValue(laterValue);
    s := b.Build();
  }
}

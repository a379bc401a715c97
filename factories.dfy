/** The factory settings models (src/models/api/factories.ts): their schemes are
    normalised so that an empty scheme reads as null. */
module Factories {
  import opened Js

  class FactoryObjectSettingOutput {
    var name: string
    var value: Value
    /** `Record<string, any> | null | undefined`. */
    var scheme: Value

    constructor (name: string, value: Value, scheme: Value)
      ensures this.name == name && this.value == value && this.scheme == scheme
    {
      this.name := name;
      this.value := value;
      this.scheme := scheme;
    }

    /** `convertScheme`: an empty scheme becomes null, any other scheme, null or undefined is
        kept; name and value are untouched and the same object is returned. */
    static method ConvertScheme(obj: FactoryObjectSettingOutput) returns (r: FactoryObjectSettingOutput)
      modifies obj
      ensures r == obj && obj.scheme == EmptyToNull(old(obj.scheme))
      ensures obj.name == old(obj.name) && obj.value == old(obj.value)
    {
      if Truthy(obj.scheme) && |OwnKeys(obj.scheme)| == 0 {
        obj.scheme := Null;
      }
      r := obj;
    }
  }

  class FactoryObjectSettingsOutput {
    /** The settings array, absent when the response had none. */
    var settings: Option<seq<FactoryObjectSettingOutput>>
    var selectedConfiguration: string

    constructor (settings: Option<seq<FactoryObjectSettingOutput>>, selectedConfiguration: string)
      ensures this.settings == settings && this.selectedConfiguration == selectedConfiguration
    {
      this.settings := settings;
      this.selectedConfiguration := selectedConfiguration;
    }

    /** `convertSchemes`: every setting, in order, goes through `convertScheme`; without settings
        nothing changes; the selected configuration is never touched. The same settings may appear
        more than once, since converting twice is converting once. */
    static method ConvertSchemes(obj: FactoryObjectSettingsOutput) returns (r: FactoryObjectSettingsOutput)
      modifies obj, set s | obj.settings.Some? && s in obj.settings.value
      ensures r == obj && obj.settings == old(obj.settings) && obj.selectedConfiguration == old(obj.selectedConfiguration)
      ensures obj.settings.Some? ==> forall j :: 0 <= j < |obj.settings.value| ==>
        obj.settings.value[j].scheme == EmptyToNull(old(obj.settings.value[j].scheme))
      ensures obj.settings.Some? ==> forall j :: 0 <= j < |obj.settings.value| ==>
        obj.settings.value[j].name == old(obj.settings.value[j].name) && obj.settings.value[j].value == old(obj.settings.value[j].value)
    {
      if obj.settings.Some? {
        var items := obj.settings.value;
        var i := 0;
        while i < |items|
          invariant 0 <= i <= |items|
          invariant obj.settings == old(obj.settings) && obj.selectedConfiguration == old(obj.selectedConfiguration)
          invariant forall j :: 0 <= j < i ==> items[j].scheme == EmptyToNull(old(items[j].scheme))
          invariant forall j :: i <= j < |items| ==>
            items[j].scheme == old(items[j].scheme) || items[j].scheme == EmptyToNull(old(items[j].scheme))
          invariant forall j :: 0 <= j < |items| ==> items[j].name == old(items[j].name) && items[j].value == old(items[j].value)
        {
          EmptyToNullIdempotent(old(items[i].scheme));
          var converted := FactoryObjectSettingOutput.ConvertScheme(items[i]);
          i := i + 1;
        }
        obj.settings := Some(items);
      }
      r := obj;
    }
  }
}

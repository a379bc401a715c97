/** The plugin settings model (src/models/api/nested/plugins.ts), whose scheme is
    normalised like the factory settings. */
module NestedPlugins {
  import opened Js

  class PluginSettingsOutput {
    var name: string
    var value: Value
    /** `PluginSchemaSettings | null | undefined`. */
    var scheme: Value

    constructor (name: string, value: Value, scheme: Value)
      ensures this.name == name && this.value == value && this.scheme == scheme
    {
      this.name := name;
      this.value := value;
      this.scheme := scheme;
    }

    /** `convertScheme`: an empty scheme becomes null, a non-empty one and a null or undefined
        one are kept; name and value are untouched and the same object is returned. */
    static method ConvertScheme(obj: PluginSettingsOutput) returns (r: PluginSettingsOutput)
      modifies obj
      ensures r == obj && obj.scheme == EmptyToNull(old(obj.scheme))
      ensures obj.name == old(obj.name) && obj.value == old(obj.value)
    {
      if Truthy(obj.scheme) && |OwnKeys(obj.scheme)| == 0 {
        obj.scheme := Null;
      }
      r := obj;
    }
  }
}

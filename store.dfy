/** The script property store as the gateway sees it: a mutable map from keys to
    the values it writes there. */
module Store {
  import opened Wrappers

  /** A stored value, as `JSON.parse` reads it back. */
  datatype StoredValue =
    /** The empty string: falsy, and `JSON.parse("")` throws. */
    | Blank
    /** Text that `JSON.parse` rejects, or that parses to `null`, so that reading a
        field of it throws. */
    | Garbage
    /** A JSON object; a missing field is `None`. */
    | Record(count: Option<int>, timestamp: Option<int>, interactionId: Option<string>)

  /** `PropertiesService.getScriptProperties()`: one shared, mutable store. */
  class Properties {
    var entries: map<string, StoredValue>

    constructor (initial: map<string, StoredValue>)
      ensures entries == initial
    {
      entries := initial;
    }

    /** `setProperty(key, value)`. */
    method SetProperty(key: string, value: StoredValue)
      modifies this
      ensures entries == old(entries)[key := value]
    {
      entries := entries[key := value];
    }

    /** `deleteProperty(key)`: a missing key is not an error. */
    method DeleteProperty(key: string)
      modifies this
      ensures entries == old(entries) - {key}
    {
      entries := entries - {key};
    }
  }
}

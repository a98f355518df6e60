/**
 * The part of the browser the checkout pages touch: local storage as a key/value map.
 * `JSON.stringify`/`JSON.parse` of a record is kept structural: a record written under a
 * key is read back as the same record.
 */
module Browser {
  import opened Wrappers

  /** What a local-storage key can hold. */
  datatype Value =
    | Raw(text: string)                    // a string stored verbatim with `setItem`
    | Record(fields: map<string, string>)  // `JSON.stringify` of an object with string fields
    | JsonNull                             // `JSON.stringify(null)`

  /** The value under `key`, `null` being `None`. */
  function Lookup(entries: map<string, Value>, key: string): (r: Option<Value>)
    ensures r.Some? <==> key in entries
    ensures r.Some? ==> r.value == entries[key]
  {
    if key in entries then Some(entries[key]) else None
  }

  class Storage {
    var entries: map<string, Value>

    constructor (initial: map<string, Value>)
      ensures entries == initial
    {
      entries := initial;
    }

    /** `localStorage.getItem(key)`, `null` being `None`. */
    function GetItem(key: string): Option<Value>
      reads this
    {
      Lookup(entries, key)
    }

    method SetItem(key: string, v: Value)
      modifies this
      ensures entries == old(entries)[key := v]
    {
      entries := entries[key := v];
    }

    method RemoveItem(key: string)
      modifies this
      ensures entries == old(entries) - {key}
    {
      entries := entries - {key};
    }
  }
}

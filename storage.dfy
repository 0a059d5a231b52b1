/**
 * The browser's local storage as the dashboard sees it through its storage
 * helpers: each key holds one JSON value; a missing key reads as undefined.
 * Serialising and parsing are taken to round-trip the stored value.
 */
module Storage {
  import opened Js

  /** The value stored under `key` in `items`, or undefined. */
  function Lookup(items: map<string, JsValue>, key: string): (v: JsValue)
    ensures key in items ==> v == items[key]
    ensures key !in items ==> v == Undefined
  {
    if key in items then items[key] else Undefined
  }

  class LocalStorage {
    var items: map<string, JsValue>

    constructor (initial: map<string, JsValue>)
      ensures items == initial
    {
      items := initial;
    }

    /** `getItem(key)` */
    function Get(key: string): (v: JsValue)
      reads this
      ensures v == Lookup(items, key)
    {
      Lookup(items, key)
    }

    /** `setItem(key, value)` */
    method Set(key: string, value: JsValue)
      modifies this
      ensures items == old(items)[key := value]
    {
      items := items[key := value];
    }

    /** `removeItem(key)` */
    method Remove(key: string)
      modifies this
      ensures items == old(items) - {key}
    {
      items := items - {key};
    }
  }
}

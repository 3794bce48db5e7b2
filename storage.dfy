/**
 * The browser's durable key/value store, seen as a map from keys to
 * strings. A read, `getItem(key)`, is `Get(items, key)`: the stored string,
 * or `None` (null) for a missing key.
 */
module Storage {

  class LocalStorage {
    var items: map<string, string>

    constructor (items: map<string, string>)
      ensures this.items == items
    {
      this.items := items;
    }

    /** `setItem` */
    method SetItem(key: string, value: string)
      modifies this
      ensures items == old(items)[key := value]
    {
      items := items[key := value];
    }

    /** `removeItem`: removing a missing key changes nothing. */
    method RemoveItem(key: string)
      modifies this
      ensures items == old(items) - {key}
    {
      items := items - {key};
    }
  }
}

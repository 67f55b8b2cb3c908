/** The browser's `localStorage`: a string-to-string store that outlives
    the page, read and written by both forms. */
module Browser {
  import opened Wrappers

  class Store {
    var items: map<string, string>

    constructor (items: map<string, string>)
      ensures this.items == items
    {
      this.items := items;
    }

    /** `localStorage.getItem(key)`: `None` for `null`. */
    method GetItem(key: string) returns (r: Option<string>)
      ensures r.Some? <==> key in items
      ensures r.Some? ==> r.value == items[key]
    {
      if key in items {
        r := Some(items[key]);
      } else {
        r := None;
      }
    }

    /** `localStorage.setItem(key, value)`. */
    method SetItem(key: string, value: string)
      modifies this`items
      ensures items == old(items)[key := value]
    {
      items := items[key := value];
    }
  }
}

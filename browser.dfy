/** The browser's key/value storage areas (`localStorage`, `sessionStorage`)
    as the logout paths use them: items are opaque strings under string keys. */
module Browser {

  class Storage {
    var items: map<string, string>

    constructor (items: map<string, string>)
      ensures this.items == items
    {
      this.items := items;
    }

    /** `Storage.clear()`: every item is removed. */
    method Clear()
      modifies this
      ensures items == map[]
    {
      items := map[];
    }
  }
}

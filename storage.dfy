/** The browser facilities the renderer's panels share: `localStorage`, a map from item
    names to strings, and the window's custom events, recorded in dispatch order. */
module BrowserStorage {
  import opened Wrappers

  const SettingsUpdated := "settings-updated"

  /** `localStorage.getItem(key)`: `None` stands for `null`. */
  function Lookup(items: map<string, string>, key: string): Option<string> {
    if key in items then Some(items[key]) else None
  }

  /** `if (stored) value = stored`: only a non-empty stored string replaces the value. */
  function StoredOr(stored: Option<string>, current: string): string {
    if stored.Some? && stored.value != "" then stored.value else current
  }

  class Browser {
    var items: map<string, string>
    var events: seq<string>

    constructor (items: map<string, string>)
      ensures this.items == items && events == []
    {
      this.items := items;
      events := [];
    }

    function GetItem(key: string): Option<string>
      reads this
    {
      Lookup(items, key)
    }

    /** `localStorage.setItem`: one item replaced or added, nothing else touched. */
    method SetItem(key: string, value: string)
      modifies this
      ensures items == old(items)[key := value] && events == old(events)
    {
      items := items[key := value];
    }

    /** `window.dispatchEvent(new Event(name))`. */
    method Dispatch(name: string)
      modifies this
      ensures events == old(events) + [name] && items == old(items)
    {
      events := events + [name];
    }
  }
}

/** The persistent navigation drawer of src/_shared/Drawer/index.tsx: an
    open flag mirrored into the browser's key/value store. */
module Drawer {
  import opened Js

  const OpenDrawerKey := "openDrawer"

  /** The browser store behind `getLocalStorage`/`setLocalStorage`. */
  class LocalStorage {
    var items: map<string, string>

    constructor (items: map<string, string>)
      ensures this.items == items
    {
      this.items := items;
    }

    /** `getLocalStorage(key)`: the stored string, or nothing. */
    function Get(key: string): (v: Option<string>)
      reads this
      ensures v.Some? <==> key in items
      ensures key in items ==> v.value == items[key]
    {
      if key in items then Some(items[key]) else None
    }

    /** `setLocalStorage(key, value)`. */
    method Set(key: string, value: string)
      modifies this
      ensures items == old(items)[key := value]
    {
      items := items[key := value];
    }
  }

  /** The `open` flag a mount restores from a store holding `items`. */
  function StoredOpen(items: map<string, string>): (b: bool)
    ensures b <==> OpenDrawerKey in items && items[OpenDrawerKey] != ""
  {
    Truthy(if OpenDrawerKey in items then Some(items[OpenDrawerKey]) else None)
  }

  /** What opening and closing write is read back as open and closed. */
  lemma StoredOpenRoundTrip(items: map<string, string>)
    ensures StoredOpen(items[OpenDrawerKey := "true"])
    ensures !StoredOpen(items[OpenDrawerKey := ""])
  {
  }

  /** The Settings entry's `className`. */
  function SettingsClassName(pathname: string): (c: string)
    ensures c == "active" <==> pathname == "/settings"
    ensures c != "active" ==> c == ""
  {
    if pathname == "/settings" then "active" else ""
  }

  /** `PersistentDrawerLeft`. */
  class PersistentDrawerLeft {
    const storage: LocalStorage
    var open: bool

    /** The flag agrees with what a remount would restore. */
    ghost predicate Synced()
      reads this, storage
    {
      open == StoredOpen(storage.items)
    }

    /** First render, before the mount effect: `useState(true)`. */
    constructor (storage: LocalStorage)
      ensures this.storage == storage
      ensures open
    {
      this.storage := storage;
      open := true;
    }

    /** The mount effect: `setOpen(Boolean(getLocalStorage("openDrawer")))`. */
    method Mount()
      modifies this
      ensures open == StoredOpen(storage.items)
      ensures Synced()
    {
      var stored := storage.Get(OpenDrawerKey);
      open := Truthy(stored);
    }

    method HandleDrawerOpen()
      modifies this, storage
      ensures storage.items == old(storage.items)[OpenDrawerKey := "true"]
      ensures open && MenuButtonHidden()
      ensures Synced()
    {
      storage.Set(OpenDrawerKey, "true");
      open := true;
    }

    method HandleDrawerClose()
      modifies this, storage
      ensures storage.items == old(storage.items)[OpenDrawerKey := ""]
      ensures !open && !MenuButtonHidden()
      ensures Synced()
    {
      storage.Set(OpenDrawerKey, "");
      open := false;
    }

    /** The menu button carries `display: none` exactly while open. */
    function MenuButtonHidden(): (hidden: bool)
      reads this
      ensures hidden <==> open
    {
      open
    }
  }

  /** Opening or closing, then remounting on the same store, restores the
      choice. */
  method RemountRestores(storage: LocalStorage, openIt: bool) returns (restored: bool)
    modifies storage
    ensures restored == openIt
  {
    var first := new PersistentDrawerLeft(storage);
    first.Mount();
    if openIt {
      first.HandleDrawerOpen();
    } else {
      first.HandleDrawerClose();
    }
    var second := new PersistentDrawerLeft(storage);
    second.Mount();
    restored := second.open;
  }
}

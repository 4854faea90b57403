/**
  The device's asynchronous key-value store, as the session client uses it: text
  stored under string keys, with calls that may reject. The text is kept in the
  form `JSON.parse` reads it in.
 */
module KeyValueStore {
  import opened JsValues

  /** Stored text: either JSON that parses to `doc`, or text that does not parse
      (the empty string included). */
  datatype Stored = Json(doc: Js) | Malformed

  /** The store's whole state; while `broken`, every call rejects. */
  datatype Store = Store(items: map<string, Stored>, broken: bool)

  /** `getItem(key)`: the stored text, or `null` (here `None`) for a missing key. */
  function ItemRead(st: Store, key: string): (r: Outcome<Option<Stored>>)
    ensures r.Throw? <==> st.broken
    ensures r.Return? ==> (r.value.Some? <==> key in st.items)
    ensures r.Return? && r.value.Some? ==> r.value.value == st.items[key]
  {
    if st.broken then Throw(StorageError)
    else if key in st.items then Return(Some(st.items[key]))
    else Return(None)
  }

  /** The store after `setItem(key, value)`: the entry is written unless the store
      rejects the call. */
  function ItemWritten(st: Store, key: string, value: Stored): (r: Store)
    ensures r.broken == st.broken
    ensures !st.broken ==> key in r.items && r.items[key] == value
    ensures forall k :: k != key ==> (k in r.items <==> k in st.items)
    ensures forall k :: k in r.items && k != key ==> r.items[k] == st.items[k]
  {
    if st.broken then st else st.(items := st.items[key := value])
  }

  /** The store after `removeItem(key)`. */
  function ItemRemoved(st: Store, key: string): (r: Store)
    ensures r.broken == st.broken
    ensures !st.broken ==> key !in r.items
    ensures forall k :: k != key ==> (k in r.items <==> k in st.items)
    ensures forall k :: k in r.items && k != key ==> r.items[k] == st.items[k]
  {
    if st.broken then st else st.(items := st.items - {key})
  }

  /** The store as a mutable object. */
  class AsyncStore {
    var items: map<string, Stored>
    var broken: bool

    function Snapshot(): Store
      reads this
    {
      Store(items, broken)
    }

    constructor (items: map<string, Stored>, broken: bool)
      ensures Snapshot() == Store(items, broken)
    {
      this.items := items;
      this.broken := broken;
    }

    method GetItem(key: string) returns (r: Outcome<Option<Stored>>)
      ensures r == ItemRead(Snapshot(), key)
    {
      if broken {
        r := Throw(StorageError);
      } else if key in items {
        r := Return(Some(items[key]));
      } else {
        r := Return(None);
      }
    }

    /** `setItem(key, value)`. */
    method SetItem(key: string, value: Stored) returns (r: Outcome<()>)
      modifies this
      ensures Snapshot() == ItemWritten(old(Snapshot()), key, value)
      ensures r.Throw? <==> broken
    {
      if broken {
        r := Throw(StorageError);
      } else {
        items := items[key := value];
        r := Return(());
      }
    }

    /** `removeItem(key)`: succeeds whether or not the key was present. */
    method RemoveItem(key: string) returns (r: Outcome<()>)
      modifies this
      ensures Snapshot() == ItemRemoved(old(Snapshot()), key)
      ensures r.Throw? <==> broken
    {
      if broken {
        r := Throw(StorageError);
      } else {
        items := items - {key};
        r := Return(());
      }
    }
  }
}

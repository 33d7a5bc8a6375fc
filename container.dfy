/** The `Config` container: a root mapping that is read by path with placeholder
    expansion, written by path without expansion, and compared and queried for
    membership on its raw top level. */
module Container {
  import opened Values
  import opened Paths
  import opened Resolver
  import opened Expansion

  /** How many placeholders in a row a read follows before it reports
      CyclicReference. */
  const MaxExpansionDepth: nat := 100

  class Config {
    /** The wrapped root mapping, holding raw (unexpanded) values. */
    const store: Dict

    /** `Config(initial)`; `Config()` is `Config(map[])`. */
    constructor (initial: map<Key, Value>)
      ensures fresh(store) && store.items == initial
    {
      store := new Dict(initial);
    }

    /** `get(key, default=None)`: the expanded value at `key`, or the expanded
        default when a segment is missing. */
    method Get(key: Key, default: Value := Null) returns (r: Result<Value, ConfigError>)
      ensures r == Read(store.items, key, Some(default), MaxExpansionDepth)
      ensures r.Ok? ==> Resolved(r.value)
      ensures Walk(store.items, Segments(key)) == Err(KeyNotFound) ==> r == Expand(store.items, default, MaxExpansionDepth)
    {
      r := Read(store.items, key, Some(default), MaxExpansionDepth);
      if Walk(store.items, Segments(key)) == Err(KeyNotFound) {
        ReadMissing(store.items, key, default, MaxExpansionDepth);
      }
    }

    /** `config[key]`: the expanded value at `key`; KeyNotFound when a segment is
        missing. */
    method GetItem(key: Key) returns (r: Result<Value, ConfigError>)
      ensures r == Read(store.items, key, None, MaxExpansionDepth)
      ensures r.Ok? ==> Resolved(r.value)
      ensures Walk(store.items, Segments(key)) == Err(KeyNotFound) ==> r == Err(KeyNotFound)
    {
      r := Read(store.items, key, None, MaxExpansionDepth);
    }

    /** `config[key] = value`: stores the raw value by path (no expansion, no new
        intermediate levels); a failed write leaves the tree as it was. */
    method SetItem(key: Key, value: Value) returns (err: Option<ConfigError>)
      modifies store
      ensures Assign(old(store.items), Segments(key), value).Ok? ==>
        err == None && store.items == Assign(old(store.items), Segments(key), value).value
      ensures Assign(old(store.items), Segments(key), value).Err? ==>
        err == Some(Assign(old(store.items), Segments(key), value).error) && store.items == old(store.items)
      ensures err == None ==> GetKey(store.items, key, None) == Ok(value)
      ensures !IsDotted(key) ==> err == None && store.items == old(store.items)[key := value]
    {
      err := SetValue(store, key, value);
    }

    /** `setdefault(key, value)`: stores `value` under the top-level `key` only when
        that key is absent, and returns the raw value the key then holds. */
    method SetDefault(key: Key, value: Value) returns (r: Value)
      modifies store
      ensures key in old(store.items) ==> r == old(store.items)[key] && store.items == old(store.items)
      ensures key !in old(store.items) ==> r == value && store.items == old(store.items)[key := value]
    {
      if key in store.items {
        r := store.items[key];
      } else {
        store.items := store.items[key := value];
        r := value;
      }
    }

    /** `key in config`: presence of `key` among the raw top-level keys, with no
        path splitting and no expansion. */
    predicate Contains(key: Key)
      reads this, store
      ensures !IsDotted(key) ==> (Contains(key) <==> GetKey(store.items, key, None).Ok?)
    {
      key in store.items
    }

    /** `config == other`: the raw root equals the plain mapping `other`. Values are
        compared before expansion, so a placeholder anywhere under a top-level key
        keeps the `Config` from equalling a mapping free of placeholders, whatever
        the placeholder reads as. */
    predicate Equals(other: map<Key, Value>)
      reads this, store
      ensures
        ((exists k :: k in store.items && !Resolved(store.items[k])) &&
         (forall j :: j in other ==> Resolved(other[j])))
        ==> !Equals(other)
    {
      store.items == other
    }
  }

  /** `in` looks at the raw top-level keys only: a dotted key that is not itself a
      top-level key is not in the `Config`, even when the path it spells can be
      read. */
  lemma ContainsIsTopLevel(c: Config, key: Key)
    requires IsDotted(key) && key !in c.store.items
    ensures !c.Contains(key)
  {
  }

}

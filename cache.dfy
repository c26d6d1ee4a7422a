/** The process-local cache: a string-to-string map with lookup, insert-or-
    overwrite and erase, and no capacity bound, expiry or eviction. */
module Cache {
  import opened Wrappers

  /** The map after `upsert(key, value)`: `key` is bound to `value`, every
      other binding is kept, and no key disappears. */
  function Upserted(m: map<string, string>, key: string, value: string): (r: map<string, string>)
    ensures key in r && r[key] == value
    ensures r.Keys == m.Keys + {key}
    ensures forall k :: k in m && k != key ==> r[k] == m[k]
  {
    m[key := value]
  }

  /** The map after `erase(key)`: `key` is unbound and every other binding
      is kept. */
  function Erased(m: map<string, string>, key: string): (r: map<string, string>)
    ensures key !in r
    ensures r.Keys == m.Keys - {key}
    ensures forall k :: k in r ==> r[k] == m[k]
  {
    m - {key}
  }

  /** Erasing a key that is not there changes nothing. */
  lemma EraseAbsentIsNoOp(m: map<string, string>, key: string)
    requires key !in m
    ensures Erased(m, key) == m
  {
  }

  /** Erasing twice is erasing once. */
  lemma EraseIdempotent(m: map<string, string>, key: string)
    ensures Erased(Erased(m, key), key) == Erased(m, key)
  {
    EraseAbsentIsNoOp(Erased(m, key), key);
  }

  /** Two identical upserts leave the same map as one. */
  lemma UpsertIdempotent(m: map<string, string>, key: string, value: string)
    ensures Upserted(Upserted(m, key, value), key, value) == Upserted(m, key, value)
  {
  }

  /** The last of two upserts of one key wins. */
  lemma UpsertOverwrites(m: map<string, string>, key: string, v1: string, v2: string)
    ensures Upserted(Upserted(m, key, v1), key, v2) == Upserted(m, key, v2)
  {
  }

  /** Erasing right after an upsert of the same key forgets the upsert. */
  lemma EraseAfterUpsert(m: map<string, string>, key: string, value: string)
    ensures Erased(Upserted(m, key, value), key) == Erased(m, key)
  {
  }

  /** The cache object: `entries` is the source's `map_`; the reader/writer
      lock around it is not modelled (all calls are sequential here). */
  class LocalCache {
    var entries: map<string, string>

    constructor ()
      ensures entries == map[]
    {
      entries := map[];
    }

    /** `tryGet`: the value bound to `key`, or none; changes nothing. */
    method TryGet(key: string) returns (r: Option<string>)
      ensures r.Some? <==> key in entries
      ensures r.Some? ==> r.value == entries[key]
    {
      if key in entries {
        r := Some(entries[key]);
      } else {
        r := None;
      }
    }

    /** `upsert`: bind `key` to `value`, overwriting any previous value. */
    method Upsert(key: string, value: string)
      modifies this
      ensures entries == Upserted(old(entries), key, value)
    {
      entries := entries[key := value];
    }

    /** `erase`: remove `key`; a no-op when it is absent. */
    method Erase(key: string)
      modifies this
      ensures entries == Erased(old(entries), key)
    {
      entries := entries - {key};
    }
  }
}

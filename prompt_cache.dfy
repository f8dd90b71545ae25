/**
 * `PromptCache` (promptify/prompter/prompt_cache.py). `lru_cache` is applied to
 * the zero-argument `_raw_cache`, so the cache is one plain dict, created
 * once: `cache_size` bounds nothing and no entry is ever evicted. Keys are the
 * prompt strings the prompter stores under.
 */
module PromptCaching {
  import opened PyValues

  /** `d.get(key)`: the stored value, or `None` when `key` is absent. */
  function Lookup(entries: map<string, PyValue>, key: string): (r: PyValue)
    ensures key !in entries ==> r == PyNone
    ensures key in entries ==> r == entries[key]
  {
    if key in entries then entries[key] else PyNone
  }

  /** The dict after `add(key, value)`: written only when `key` is not there yet. */
  function Added(entries: map<string, PyValue>, key: string, value: PyValue): (r: map<string, PyValue>)
    ensures key in r && r.Keys == entries.Keys + {key}
    ensures key in entries ==> r[key] == entries[key]
    ensures key !in entries ==> r[key] == value
    ensures forall k :: k in entries && k != key ==> r[k] == entries[k]
  {
    if key in entries then entries else entries[key := value]
  }

  /** The first write wins: adding under a present key changes nothing, under a new key `get` sees the value. */
  lemma FirstWriteWins(entries: map<string, PyValue>, key: string, value: PyValue)
    ensures key in entries ==> Added(entries, key, value) == entries
    ensures key !in entries ==> Lookup(Added(entries, key, value), key) == value
    ensures forall k :: k != key ==> Lookup(Added(entries, key, value), k) == Lookup(entries, k)
  {
  }

  /** A stored `None` reads exactly like a missing key. */
  lemma StoredNoneIsMiss(entries: map<string, PyValue>, key: string)
    ensures Lookup(entries[key := PyNone], key) == Lookup(entries - {key}, key)
  {
  }

  /** The dict after a run of `add` calls, in order. */
  function AddAll(entries: map<string, PyValue>, writes: seq<(string, PyValue)>): map<string, PyValue>
  {
    if writes == [] then entries
    else
      var last := writes[|writes| - 1];
      Added(AddAll(entries, writes[..|writes| - 1]), last.0, last.1)
  }

  /** The keys a run of `add` calls names. */
  function WrittenKeys(writes: seq<(string, PyValue)>): set<string>
  {
    if writes == [] then {} else WrittenKeys(writes[..|writes| - 1]) + {writes[|writes| - 1].0}
  }

  /**
   * Nothing is evicted, whatever `cache_size` is: after any run of `add` calls
   * every key ever written is present and earlier entries keep their values.
   */
  lemma {:induction false} NoEviction(entries: map<string, PyValue>, writes: seq<(string, PyValue)>)
    ensures AddAll(entries, writes).Keys == entries.Keys + WrittenKeys(writes)
    ensures forall k :: k in entries ==> AddAll(entries, writes)[k] == entries[k]
  {
    if writes != [] {
      NoEviction(entries, writes[..|writes| - 1]);
    }
  }

  class PromptCache {
    /** `cache_size`: stored, never consulted. */
    const cacheSize: int
    /** The dict `_raw_cache()` returned, which every call shares. */
    var entries: map<string, PyValue>

    /** `PromptCache(cache_size)`: a new cache is empty. */
    constructor (cacheSize: int)
      ensures this.cacheSize == cacheSize && entries == map[]
    {
      this.cacheSize := cacheSize;
      entries := map[];
    }

    /** `get(key)`. */
    method Get(key: string) returns (r: PyValue)
      ensures r == Lookup(entries, key)
    {
      if key in entries {
        r := entries[key];
      } else {
        r := PyNone;
      }
    }

    /** `add(key, value)`. */
    method Add(key: string, value: PyValue)
      modifies this
      ensures entries == Added(old(entries), key, value)
    {
      if key !in entries {
        entries := entries[key := value];
      }
    }

    /** `clear()`: afterwards every `get` answers `None`. */
    method Clear()
      modifies this
      ensures entries == map[]
      ensures forall k :: Lookup(entries, k) == PyNone
    {
      entries := map[];
    }
  }
}

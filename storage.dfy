/** The browser key-value store wrapper (static/js/storage.js): a
    once-computed availability flag, an in-memory map that every write
    updates, and the browser's own store, which is used only while the
    availability probe has succeeded. */
module Storage {
  import opened Strings

  /** What the browser offers: whether the page runs in a restricted
      context (a cross-origin frame), whether `window.localStorage` exists,
      and the longest value the store accepts before it throws (a quota;
      0 is a store that refuses every write, as in a private window). */
  datatype Env = Env(restricted: bool, present: bool, capacity: nat)

  /** The key and value of the availability probe. */
  const TestKey: string := "__zen_storage_test__"
  const TestValue: string := "test"

  /** A write of `value` to the browser's store goes through. */
  predicate Fits(env: Env, value: string) {
    |value| <= env.capacity
  }

  /** The outcome of `_testStorage` on its first run: not restricted, the
      store exists, and the test value is written and reads back. */
  predicate Probe(env: Env) {
    !env.restricted && env.present && Fits(env, TestValue)
  }

  /** The contents of the wrapper: the memory fallback and the browser's
      store. */
  datatype Cells = Cells(memory: map<string, string>, local: map<string, string>)

  /** `map.hasOwnProperty(key) ? map[key] : defaultValue`. */
  function Lookup(m: map<string, string>, key: string, default: Option<string>): (r: Option<string>)
    ensures key in m ==> r == Some(m[key])
    ensures key !in m ==> r == default
  {
    if key in m then Some(m[key]) else default
  }

  /** The browser's store after the probe has run once: the probe's key is
      written and removed again when it succeeds; a failing probe writes
      nothing. */
  function ProbedLocal(env: Env, local: map<string, string>): (l: map<string, string>)
    ensures Probe(env) ==> l == local - {TestKey}
    ensures !Probe(env) ==> l == local
  {
    if Probe(env) then local[TestKey := TestValue] - {TestKey} else local
  }

  /** `setItem(key, value)` from cells on which availability is already
      known: the memory always takes the value; the browser's store takes it
      only when it is available and the write fits. The flag says whether
      the browser's store took it. */
  function StoreItem(env: Env, c: Cells, key: string, value: string): (r: (Cells, bool))
    ensures r.1 <==> Probe(env) && Fits(env, value)
    ensures r.0.memory == c.memory[key := value]
    ensures r.0.local == if r.1 then c.local[key := value] else c.local
  {
    var ok := Probe(env) && Fits(env, value);
    (Cells(c.memory[key := value], if ok then c.local[key := value] else c.local), ok)
  }

  /** `getItem(key, defaultValue)`: the browser's store when it is available
      and the read does not throw, the memory fallback otherwise. */
  function ReadItem(env: Env, c: Cells, key: string, default: Option<string>, readThrows: bool): (r: Option<string>)
    ensures Probe(env) && !readThrows ==> r == Lookup(c.local, key, default)
    ensures !Probe(env) || readThrows ==> r == Lookup(c.memory, key, default)
  {
    if Probe(env) && !readThrows then Lookup(c.local, key, default) else Lookup(c.memory, key, default)
  }

  /** `removeItem(key)`: the key leaves the memory, and the browser's store
      when it is available. */
  function DropItem(env: Env, c: Cells, key: string): (r: Cells)
    ensures key !in r.memory && r.memory == c.memory - {key}
    ensures r.local == if Probe(env) then c.local - {key} else c.local
  {
    Cells(c.memory - {key}, if Probe(env) then c.local - {key} else c.local)
  }

  /** `getJSON(key, defaultValue)`: the default when nothing is stored or
      the stored text does not parse. */
  function ReadJson<J>(env: Env, c: Cells, key: string, default: J, parse: string -> Option<J>, readThrows: bool): (r: J)
    ensures ReadItem(env, c, key, None, readThrows).None? ==> r == default
    ensures ReadItem(env, c, key, None, readThrows).Some? ==>
      var p := parse(ReadItem(env, c, key, None, readThrows).value);
      r == if p.Some? then p.value else default
  {
    var text := ReadItem(env, c, key, None, readThrows);
    if text.None? then default
    else
      match parse(text.value)
      case None => default
      case Some(j) => j
  }

  /** `setJSON(key, value)`: a value that cannot be serialised changes
      nothing and reports failure; otherwise `setItem` on its text. */
  function StoreJson<J>(env: Env, c: Cells, key: string, value: J, stringify: J -> Option<string>): (r: (Cells, bool))
    ensures stringify(value).None? ==> r == (c, false)
    ensures stringify(value).Some? ==> r == StoreItem(env, c, key, stringify(value).value)
  {
    match stringify(value)
    case None => (c, false)
    case Some(text) => StoreItem(env, c, key, text)
  }

  /** A stored value reads back unless the browser's store is available and
      refused it (then the browser's earlier value is read), or the read
      throws (then the memory, which always took it, is read). */
  lemma StoreThenRead(env: Env, c: Cells, key: string, value: string, default: Option<string>, readThrows: bool)
    ensures var (after, ok) := StoreItem(env, c, key, value);
      ReadItem(env, after, key, default, readThrows)
        == if ok || !Probe(env) || readThrows then Some(value) else Lookup(c.local, key, default)
  {
  }

  /** Writing one key leaves every other key as it was. */
  lemma StoreOtherKey(env: Env, c: Cells, key: string, value: string, other: string, default: Option<string>, readThrows: bool)
    requires other != key
    ensures ReadItem(env, StoreItem(env, c, key, value).0, other, default, readThrows)
         == ReadItem(env, c, other, default, readThrows)
  {
  }

  /** A removed key reads as the default, whichever map is read. */
  lemma DropThenRead(env: Env, c: Cells, key: string, default: Option<string>, readThrows: bool)
    ensures ReadItem(env, DropItem(env, c, key), key, default, readThrows) == default
  {
  }

  /** A value whose text parses back to it is read back by `getJSON` after
      `setJSON` stored it in the map that is read. */
  lemma JsonThenRead<J>(env: Env, c: Cells, key: string, value: J, default: J,
                        stringify: J -> Option<string>, parse: string -> Option<J>, readThrows: bool)
    requires stringify(value).Some? && parse(stringify(value).value) == Some(value)
    requires Probe(env) && !readThrows ==> Fits(env, stringify(value).value)
    ensures ReadJson(env, StoreJson(env, c, key, value, stringify).0, key, default, parse, readThrows) == value
  {
    var after := StoreJson(env, c, key, value, stringify).0;
    assert ReadItem(env, after, key, None, readThrows) == Some(stringify(value).value);
  }

  /** The `ZenStorage` module object: `_isAvailable` (`null` until the first
      check) and `_memoryFallback`, together with the browser's store it
      wraps. */
  class ZenStorage {
    const env: Env
    var isAvailable: Option<bool>
    var memory: map<string, string>
    var local: map<string, string>

    /** The cached flag, once set, is the outcome of the probe. */
    ghost predicate Valid()
      reads this
    {
      isAvailable.Some? ==> isAvailable.value == Probe(env)
    }

    /** The contents once availability is known: the probe runs only if it
        has not run yet. */
    function Settled(): (c: Cells)
      reads this
      ensures c.memory == memory
      ensures c.local == if isAvailable.None? then ProbedLocal(env, local) else local
    {
      Cells(memory, if isAvailable.None? then ProbedLocal(env, local) else local)
    }

    function Contents(): Cells
      reads this
    {
      Cells(memory, local)
    }

    /** A fresh module over a browser's store: nothing cached, an empty
        memory fallback. */
    constructor (env: Env, local: map<string, string>)
      ensures Valid()
      ensures this.env == env && isAvailable.None?
      ensures memory == map[] && this.local == local
    {
      this.env := env;
      isAvailable := None;
      memory := map[];
      this.local := local;
    }

    /** `_testStorage()` and `isAvailable()`: the first call assumes
        failure, gives up in a restricted context or without a store, and
        otherwise writes the test value, reads it back and removes it; a
        write over the quota throws and leaves the flag false. Later calls
        return the cached flag and touch nothing. */
    method TestStorage() returns (ok: bool)
      requires Valid()
      modifies this
      ensures Valid() && isAvailable == Some(ok)
      ensures ok == Probe(env)
      ensures Contents() == old(Settled())
      ensures old(isAvailable).Some? ==> unchanged(this)
    {
      if isAvailable.Some? {
        return isAvailable.value;
      }
      isAvailable := Some(false);
      if env.restricted {
        return false;
      }
      if !env.present {
        return false;
      }
      if !Fits(env, TestValue) {
        // the write throws: the catch leaves the flag false
        isAvailable := Some(false);
        return false;
      }
      local := local[TestKey := TestValue];
      var result := Lookup(local, TestKey, None);
      local := local - {TestKey};
      if result == Some(TestValue) {
        isAvailable := Some(true);
      }
      ok := isAvailable.value;
    }

    /** `getItem(key, defaultValue)`; `readThrows` is whether the browser's
        `getItem` throws on this call, in which case the memory fallback
        answers. */
    method GetItem(key: string, default: Option<string>, readThrows: bool) returns (r: Option<string>)
      requires Valid()
      modifies this
      ensures Valid() && isAvailable.Some?
      ensures Contents() == old(Settled())
      ensures r == ReadItem(env, old(Settled()), key, default, readThrows)
    {
      var available := TestStorage();
      if !available {
        return Lookup(memory, key, default);
      }
      if readThrows {
        return Lookup(memory, key, default);
      }
      r := Lookup(local, key, default);
    }

    /** `setItem(key, value)`: the memory fallback first, then the browser's
        store when it is available; a write over the quota is caught and
        reported as false. */
    method SetItem(key: string, value: string) returns (ok: bool)
      requires Valid()
      modifies this
      ensures Valid() && isAvailable.Some?
      ensures (Contents(), ok) == StoreItem(env, old(Settled()), key, value)
    {
      memory := memory[key := value];
      var available := TestStorage();
      if !available {
        return false;
      }
      if !Fits(env, value) {
        return false;
      }
      local := local[key := value];
      ok := true;
    }

    /** `removeItem(key)`. */
    method RemoveItem(key: string)
      requires Valid()
      modifies this
      ensures Valid() && isAvailable.Some?
      ensures Contents() == DropItem(env, old(Settled()), key)
    {
      memory := memory - {key};
      var available := TestStorage();
      if !available {
        return;
      }
      local := local - {key};
    }

    /** `getJSON(key, defaultValue)`; `parse` is `JSON.parse`, `None` where
        it throws. */
    method GetJson<J>(key: string, default: J, parse: string -> Option<J>, readThrows: bool) returns (r: J)
      requires Valid()
      modifies this
      ensures Valid() && isAvailable.Some?
      ensures Contents() == old(Settled())
      ensures r == ReadJson(env, old(Settled()), key, default, parse, readThrows)
    {
      var text := GetItem(key, None, readThrows);
      if text.None? {
        return default;
      }
      var parsed := parse(text.value);
      if parsed.None? {
        return default;
      }
      r := parsed.value;
    }

    /** `setJSON(key, value)`; `stringify` is `JSON.stringify`, `None` where
        it throws. A value that cannot be serialised leaves everything,
        the availability flag included, as it was. */
    method SetJson<J>(key: string, value: J, stringify: J -> Option<string>) returns (ok: bool)
      requires Valid()
      modifies this
      ensures Valid()
      ensures stringify(value).None? ==> !ok && unchanged(this)
      ensures stringify(value).Some? ==> isAvailable.Some?
      ensures stringify(value).Some? ==>
        (Contents(), ok) == StoreJson(env, old(Settled()), key, value, stringify)
    {
      var text := stringify(value);
      if text.None? {
        return false;
      }
      ok := SetItem(key, text.value);
    }
  }
}

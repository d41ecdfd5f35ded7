/** The storage singleton (src/storage/storage.ts) and the key/value store its
    driver offers to the rest of the library. */
module ContextStorage {
  import opened Wrappers

  /** An entity manager of the ORM; only its identity matters here. */
  datatype EntityManager = EntityManager(id: nat)

  /** A hook event emitter; only its identity matters here. */
  datatype Emitter = Emitter(id: nat)

  /** A key of the context store: a string, or the key under which the hook
      emitter is kept. The hook key is defined in a constants file that is not
      part of this model; it is assumed to be a symbol, which never equals a
      string, and this datatype builds that assumption in. */
  datatype Key = Text(s: string) | HookSymbol

  /** What the library stores under a key. */
  datatype Value = Null | Manager(em: EntityManager) | Hook(emitter: Emitter)

  /** The context driver: `store` is the key/value scope that the calling
      chain currently sees (`context.get` reads it, `context.set` writes it). */
  class StorageDriver {
    var store: map<Key, Value>

    constructor()
      ensures store == map[]
    {
      store := map[];
    }
  }

  const NoStorageDriverMessage :=
    "No storage driver defined in your app ... please call initializeTransactionalContext() before application start."

  /** Holds the driver once it has been created. */
  class Storage {
    var driver: StorageDriver?

    constructor()
      ensures driver == null
    {
      driver := null;
    }

    /** Installs a driver on first use; later calls hand back the same one. */
    method Create() returns (d: StorageDriver)
      modifies this
      ensures old(driver) != null ==> d == old(driver)
      ensures old(driver) == null ==> fresh(d) && d.store == map[]
      ensures driver == d
    {
      if driver != null {
        return driver;
      }
      d := new StorageDriver();
      driver := d;
    }

    /** The installed driver; throws while none has been created. */
    method Get() returns (r: Outcome<StorageDriver>)
      ensures r.Threw? <==> driver == null
      ensures r.Threw? ==> r.error == Plain(NoStorageDriverMessage)
      ensures r.Returned? ==> r.value == driver
    {
      if driver == null {
        return Threw(Plain(NoStorageDriverMessage));
      }
      return Returned(driver);
    }
  }

  /** Two `create()` calls then a `get()` on a storage: the first call
      installs the driver, the second returns it unchanged, and `get()`
      succeeds with it. */
  method CreateTwiceThenGet(s: Storage) returns (first: StorageDriver, second: StorageDriver, got: Outcome<StorageDriver>)
    modifies s
    ensures old(s.driver) != null ==> first == old(s.driver)
    ensures second == first && s.driver == first
    ensures got == Returned(first)
  {
    first := s.Create();
    second := s.Create();
    got := s.Get();
  }
}

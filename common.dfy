/** The library's shared state (src/common/index.ts): the registry of data
    sources, the options record, and the context slots that hold the active
    entity manager per data source and the hook emitter. */
module Common {
  import opened Wrappers
  import opened ContextStorage

  /** A data source (a `MikroORM` instance); only its identity matters here. */
  datatype DataSource = DataSource(id: nat)

  const DefaultName := "default"

  /** The prefix of the context key of a data source's slot. Its text lives in
      a constants file that is not part of this model; every property here
      holds whatever the prefix is. */
  const DataSourceNamePrefix: string

  /** The context key of the slot for data source `name`. */
  function SlotKey(name: string): Key {
    Text(DataSourceNamePrefix + name)
  }

  /** Distinct data-source names have distinct slot keys. */
  lemma {:induction false} SlotKeyInjective(a: string, b: string)
    requires SlotKey(a) == SlotKey(b)
    ensures a == b
  {
    var p := DataSourceNamePrefix;
    assert (p + a)[|p|..] == a;
    assert (p + b)[|p|..] == b;
  }

  /** The slot of a registered data source is never the hook's key. */
  lemma SlotKeyIsNotHookKey(name: string)
    ensures SlotKey(name) != HookSymbol
  {
  }

  // ---------------------------------------------------------------------
  // Entity-manager slots

  /** The active entity manager of data source `name` in `context`: none for
      a name that is not registered, none when the slot is unset or null,
      the stored manager otherwise. */
  function GetEntityManagerByDataSourceName(dataSources: map<string, DataSource>, context: map<Key, Value>, name: string): (r: Option<EntityManager>)
    ensures name !in dataSources ==> r == None
    ensures r.Some? <==> name in dataSources && SlotKey(name) in context && context[SlotKey(name)].Manager?
    ensures r.Some? ==> context[SlotKey(name)] == Manager(r.value)
  {
    if name !in dataSources then None
    else if SlotKey(name) in context && context[SlotKey(name)].Manager? then Some(context[SlotKey(name)].em)
    else None
  }

  /** The context after writing `em` (or null) into the slot of `name`: a
      no-op for a name that is not registered; otherwise reading the slot
      back gives `em`, and no other data source's slot and not the hook slot
      changes. */
  function SetEntityManagerByDataSourceName(dataSources: map<string, DataSource>, context: map<Key, Value>, name: string, em: Option<EntityManager>): (r: map<Key, Value>)
    ensures name !in dataSources ==> r == context
    ensures name in dataSources ==> GetEntityManagerByDataSourceName(dataSources, r, name) == em
    ensures r.Keys <= context.Keys + {SlotKey(name)}
    ensures forall k :: k in context && k != SlotKey(name) ==> k in r && r[k] == context[k]
    ensures forall n :: n != name ==> GetEntityManagerByDataSourceName(dataSources, r, n) == GetEntityManagerByDataSourceName(dataSources, context, n)
    ensures HookSymbol in r <==> HookSymbol in context
    ensures HookSymbol in r ==> r[HookSymbol] == context[HookSymbol]
  {
    if name !in dataSources then context
    else
      assert forall n :: n != name ==> SlotKey(n) != SlotKey(name) by {
        forall n | SlotKey(n) == SlotKey(name) ensures n == name {
          SlotKeyInjective(n, name);
        }
      }
      context[SlotKey(name) := if em.Some? then Manager(em.value) else Null]
  }

  /** Writing a slot and reading it back, for a registered name, gives what
      was written; for a name that is not registered both are inert. */
  lemma SetThenGet(dataSources: map<string, DataSource>, context: map<Key, Value>, name: string, em: Option<EntityManager>)
    ensures name in dataSources ==>
      GetEntityManagerByDataSourceName(dataSources, SetEntityManagerByDataSourceName(dataSources, context, name, em), name) == em
    ensures name !in dataSources ==>
      GetEntityManagerByDataSourceName(dataSources, context, name) == None
      && SetEntityManagerByDataSourceName(dataSources, context, name, em) == context
  {
  }

  /** Writing back the manager a slot already holds leaves the whole context
      as it was. */
  lemma SetCurrentIsIdentity(dataSources: map<string, DataSource>, context: map<Key, Value>, name: string)
    requires GetEntityManagerByDataSourceName(dataSources, context, name).Some?
    ensures SetEntityManagerByDataSourceName(dataSources, context, name, GetEntityManagerByDataSourceName(dataSources, context, name)) == context
  {
  }

  // ---------------------------------------------------------------------
  // Hook slot

  /** `context?.get(hook)`: absent when there is no context or nothing was
      stored under the hook key, otherwise the stored value. */
  function GetHookInContext(context: Option<map<Key, Value>>): (r: Option<Value>)
    ensures r.Some? <==> context.Some? && HookSymbol in context.value
    ensures r.Some? ==> r.value == context.value[HookSymbol]
  {
    if context.Some? && HookSymbol in context.value then Some(context.value[HookSymbol]) else None
  }

  /** The context after storing `emitter` (or null) under the hook key:
      reading it back gives the emitter set, and no data source's slot
      changes. */
  function SetHookInContext(context: map<Key, Value>, emitter: Option<Emitter>): (r: map<Key, Value>)
    ensures GetHookInContext(Some(r)) == Some(if emitter.Some? then Hook(emitter.value) else Null)
    ensures r.Keys == context.Keys + {HookSymbol}
    ensures forall k :: k != HookSymbol && k in context ==> r[k] == context[k]
  {
    context[HookSymbol := if emitter.Some? then Hook(emitter.value) else Null]
  }

  /** Storing the hook emitter never changes what any data source's slot
      reads as. */
  lemma SetHookKeepsManagers(dataSources: map<string, DataSource>, context: map<Key, Value>, emitter: Option<Emitter>, name: string)
    ensures GetEntityManagerByDataSourceName(dataSources, SetHookInContext(context, emitter), name)
         == GetEntityManagerByDataSourceName(dataSources, context, name)
  {
    SlotKeyIsNotHookKey(name);
  }

  // ---------------------------------------------------------------------
  // Options

  /** A property value of the options record: left `undefined`, or a number
      (an integer here). */
  datatype OptionValue = Undefined | Number(n: int)

  /** An options record, or a partial one: the keys it has and their values. */
  type TransactionalOptions = map<string, OptionValue>

  const MaxHookHandlers := "maxHookHandlers"

  const DefaultOptions: TransactionalOptions := map[MaxHookHandlers := Number(10)]

  /** `{ ...options, ...overrides }`: every key the overrides carry takes the
      overriding value (even `undefined`), every other key keeps its value. */
  function MergeOptions(options: TransactionalOptions, overrides: TransactionalOptions): (r: TransactionalOptions)
    ensures r.Keys == options.Keys + overrides.Keys
    ensures forall k :: k in overrides ==> r[k] == overrides[k]
    ensures forall k :: k in options && k !in overrides ==> r[k] == options[k]
  {
    options + overrides
  }

  /** The default options allow 10 hook handlers. */
  lemma DefaultMaxHookHandlers()
    ensures DefaultOptions[MaxHookHandlers] == Number(10)
  {
  }

  // ---------------------------------------------------------------------
  // Registry of data sources

  /** The argument of `addTransactionalDataSource`: a bare data source, or a
      record with an optional name and an optional patch flag. */
  datatype AddTransactionalDataSourceInput =
    | Bare(source: DataSource)
    | Input(name: Option<string>, dataSource: DataSource, patch: Option<bool>)
  {
    /** The name the data source is registered under. */
    function Name(): string {
      match this
      case Bare(_) => DefaultName
      case Input(name, _, _) => name.GetOr(DefaultName)
    }

    /** The data source itself. */
    function Source(): DataSource {
      match this
      case Bare(s) => s
      case Input(_, s, _) => s
    }
  }

  function DuplicateMessage(name: string): string {
    "MikroORM with name \"" + name + "\" has already added."
  }

  /** The module-level state: the map of added data sources and the options. */
  class Registry {
    var dataSources: map<string, DataSource>
    var options: TransactionalOptions

    constructor()
      ensures dataSources == map[] && options == DefaultOptions
    {
      dataSources := map[];
      options := DefaultOptions;
    }

    /** The data source registered under `name`, if any. */
    function GetDataSourceByName(name: string): (r: Option<DataSource>)
      reads this
      ensures r.Some? <==> name in dataSources
      ensures r.Some? ==> r.value == dataSources[name]
    {
      if name in dataSources then Some(dataSources[name]) else None
    }

    /** Registers a data source under its name (default `'default'`);
        throws, changing nothing, when the name is already taken. */
    method AddTransactionalDataSource(input: AddTransactionalDataSourceInput) returns (r: Outcome<DataSource>)
      modifies this
      ensures var name := input.Name();
        if name in old(dataSources) then
          r == Threw(Plain(DuplicateMessage(name))) && dataSources == old(dataSources)
        else
          r == Returned(input.Source()) && dataSources == old(dataSources)[name := input.Source()]
      ensures options == old(options)
    {
      var name := input.Name();
      if name in dataSources {
        return Threw(Plain(DuplicateMessage(name)));
      }
      dataSources := dataSources[name := input.Source()];
      r := Returned(input.Source());
    }

    /** Removes the data source registered under `name`; tells whether there
        was one. */
    method DeleteDataSourceByName(name: string) returns (existed: bool)
      modifies this
      ensures existed == (name in old(dataSources))
      ensures dataSources == old(dataSources) - {name}
      ensures options == old(options)
    {
      existed := name in dataSources;
      dataSources := dataSources - {name};
    }

    /** The current options record. */
    function GetTransactionalOptions(): TransactionalOptions
      reads this
    {
      options
    }

    /** Merges the overrides, if any, into the current options. */
    method SetTransactionalOptions(overrides: Option<TransactionalOptions>)
      modifies this
      ensures GetTransactionalOptions() == MergeOptions(old(GetTransactionalOptions()), overrides.GetOr(map[]))
      ensures dataSources == old(dataSources)
    {
      options := MergeOptions(options, overrides.GetOr(map[]));
    }
  }

  /** Adding then looking up a data source: the lookup finds exactly the
      one added, and a second add under the same name throws. */
  method AddThenGet(registry: Registry, input: AddTransactionalDataSourceInput)
    returns (added: Outcome<DataSource>, found: Option<DataSource>, again: Outcome<DataSource>)
    modifies registry
    ensures input.Name() !in old(registry.dataSources) ==> added == Returned(input.Source())
    ensures input.Name() !in old(registry.dataSources) ==> found == Some(input.Source())
    ensures again == Threw(Plain(DuplicateMessage(input.Name())))
    ensures registry.dataSources.Keys == old(registry.dataSources).Keys + {input.Name()}
  {
    added := registry.AddTransactionalDataSource(input);
    found := registry.GetDataSourceByName(input.Name());
    again := registry.AddTransactionalDataSource(input);
  }

  /** After `deleteDataSourceByName(name)` the name is unknown, and reading or
      writing its context slot is inert. */
  method DeleteThenUse(registry: Registry, name: string, context: map<Key, Value>, em: Option<EntityManager>)
    returns (found: Option<DataSource>, read: Option<EntityManager>, written: map<Key, Value>)
    modifies registry
    ensures found == None && read == None && written == context
  {
    var _ := registry.DeleteDataSourceByName(name);
    found := registry.GetDataSourceByName(name);
    read := GetEntityManagerByDataSourceName(registry.dataSources, context, name);
    written := SetEntityManagerByDataSourceName(registry.dataSources, context, name, em);
  }

  /** `initializeTransactionalContext`: merges the options, then creates (or
      reuses) the storage driver and returns it. */
  method InitializeTransactionalContext(registry: Registry, storage: Storage, overrides: Option<TransactionalOptions>)
    returns (d: StorageDriver)
    modifies registry, storage
    ensures registry.options == MergeOptions(old(registry.options), overrides.GetOr(map[]))
    ensures registry.dataSources == old(registry.dataSources)
    ensures old(storage.driver) != null ==> d == old(storage.driver)
    ensures old(storage.driver) == null ==> fresh(d) && d.store == map[]
    ensures storage.driver == d
  {
    registry.SetTransactionalOptions(overrides);
    d := storage.Create();
  }
}

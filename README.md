# Transaction propagation for MikroORM, modelled in Dafny

This project models the core of `mikroorm-transactional`: the engine that runs a
unit of work under one of seven propagation modes, and the small amount of state
that engine reads and writes.

- **Propagation** (`propagation.dfy`). `Decide` is the propagation `switch`. From a
  mode and "is a transaction active for this connection", it picks one of five
  actions:
  - join (run the unit of work as it is);
  - run it in a fresh hook scope;
  - run it in a new transaction;
  - suspend (null the slot, run in a fresh hook scope, restore the slot);
  - throw a `TransactionalError`.
- **Wrapped call and executor** (`wrap_in_transaction.dfy`).
  - `WrapInTransaction` checks for a storage driver, applies the connection-name
    default (`'default'`), and checks that a data source is registered under that
    name. It then defaults the mode to `REQUIRED` and runs the switch in a fresh
    `Scope`.
  - `Propagated` and `WithNewTransaction` are pure specifications.
  - The `Scope` methods perform the same steps one at a time, and each is proved
    equal to its specification.
  - What a call does is recorded as a trace of events: `NewHookScope`, `Begin`,
    `Commit`, `Rollback`, and `Invoke` (which carries the manager the unit of work
    finds in its slot).
- **Registry and context slots** (`common.dfy`).
  - `Registry` holds the module-level map of data sources and the options record.
  - The context store is a `map<Key, Value>`. Its data-source slots are keyed by
    prefix + name, and the hook emitter has a key of its own. Reads and writes of a
    slot are inert for names that are not registered.
- **Storage singleton** (`storage.dfy`). `Storage.Create` installs the context
  driver once and is idempotent. `Storage.Get` throws until a driver exists.

Assumptions:
- The ambient asynchronous context is an explicit store. `context.run` gives the
  wrapped call a copy of the caller's store, and what the call writes there is
  never written back. `WrapInTransaction` has no `modifies` clause, so the
  caller's store, the registry and the storage are provably left untouched.
- The unit of work is opaque: it returns a value or throws an error. It is assumed
  not to write the caller's slots itself.
- The driver's `begin`, `commit` and `rollback` are opaque too. Which of them
  throws is an input (`DriverErrors`).

Behaviour of the code that the model follows as written:
- The slot is reset to null in the `finally` of the transaction callback, before
  `commit` is called.
- `commit` is inside the `try`. If it throws, `rollback` runs and the commit error
  is rethrown.
- A throw from `rollback` is not swallowed: it replaces the error being rethrown.
- Under NOT_SUPPORTED the slot is restored only after a normal return (not in a
  `finally`). After a throw it stays null in the call's scope.
- NESTED behaves exactly like REQUIRES_NEW. Neither has savepoint semantics.
- The `if (!context)` check of the wrapper never fires: `storage.get()` throws
  first, with its own message. That error is the one modelled.
- `Storage.create()` called a second time returns the existing driver. It does
  not throw.
- Option merging is an object spread. A key that is present in the overrides
  replaces the old value even when its value is `undefined`.

## Model

| member | source | states |
|---|---|---|
| `ContextStorage.Storage.Create` | src/storage/storage.ts:7-16 | the first call installs a fresh driver with an empty store; later calls return the installed driver and do not replace it; the driver field then holds the returned driver |
| `ContextStorage.Storage.Get` | src/storage/storage.ts:18-26 | throws the "No storage driver defined" error exactly when no driver was created; otherwise returns the installed driver |
| `ContextStorage.CreateTwiceThenGet` | src/storage/storage.ts:7-26 | create is idempotent (the second call returns the first call's driver, and an existing driver is kept); get after create succeeds with that driver |
| `Common.SlotKeyInjective` | src/common/index.ts:68-82 | two names with the same slot key (prefix + name) are the same name, for any prefix |
| `Common.SlotKeyIsNotHookKey` | src/common/index.ts:219-223 | no data-source slot key is the hook key; this holds by construction of `Key`, under the assumption that the hook key is a symbol |
| `Common.GetEntityManagerByDataSourceName` | src/common/index.ts:68-72 | null for an unregistered name; null when the slot is unset or null; otherwise the manager stored in the name's slot |
| `Common.SetEntityManagerByDataSourceName` | src/common/index.ts:74-82 | no change for an unregistered name; for a registered one, reading back gives the value set; every key of the store other than the name's slot keeps its value (so the slots of all other names and the hook slot are unchanged); no key other than the name's slot is added |
| `Common.SetThenGet` | src/common/index.ts:68-82 | set then get returns what was set (null gives null) for a registered name; for an unregistered name get is null and set is a no-op |
| `Common.SetCurrentIsIdentity` | src/common/index.ts:74-82 | writing back the manager a slot already holds gives back exactly the same store |
| `Common.GetHookInContext` | src/common/index.ts:219-220 | undefined when there is no context or nothing is stored under the hook key; otherwise the stored value |
| `Common.SetHookInContext` | src/common/index.ts:222-223 | reading the hook slot back gives the emitter set (or null); every other key keeps its value |
| `Common.SetHookKeepsManagers` | src/common/index.ts:219-223 | storing the hook emitter never changes what any data-source slot reads as |
| `Common.MergeOptions` | src/common/index.ts:140-142 | keys supplied in the overrides take the overriding value; all other keys keep their previous value; the result has exactly the keys of both |
| `Common.DefaultMaxHookHandlers` | src/common/index.ts:60-64 | the default `maxHookHandlers` is 10 |
| `Common.Registry.constructor` | src/common/index.ts:55-64 | the registry starts with no data sources and the default options |
| `Common.Registry.GetDataSourceByName` | src/common/index.ts:215 | the data source registered under the name, and undefined exactly when none is |
| `Common.Registry.AddTransactionalDataSource` | src/common/index.ts:193-213 | the name defaults to `'default'`; a name already registered throws the duplicate error and leaves the registry unchanged; otherwise the data source is added under the name and returned; the options are untouched |
| `Common.Registry.DeleteDataSourceByName` | src/common/index.ts:217 | removes the name, and reports whether it was registered; nothing else changes |
| `Common.Registry.SetTransactionalOptions` | src/common/index.ts:140-144 | the options afterwards are the old options merged with the overrides (none given: unchanged); the data sources are untouched |
| `Common.AddThenGet` | src/common/index.ts:193-215 | after an add under a new name, lookup returns that data source; adding the same name again throws the duplicate error |
| `Common.DeleteThenUse` | src/common/index.ts:215-217 | after delete, lookup is undefined, and slot get and set for that name are inert |
| `Common.InitializeTransactionalContext` | src/common/index.ts:146-191 | merges the options, then returns the storage driver, creating it only if none exists |
| `Propagation.Decide` | src/transactions/wrap-in-transaction.ts:89-134 | the propagation table, as one "if and only if" per action: rejection exactly for MANDATORY without and NEVER with a transaction (with the source's messages); a new transaction exactly for NESTED, REQUIRES_NEW, and REQUIRED without one; suspension exactly for NOT_SUPPORTED with one; a fresh hook scope exactly for NEVER and SUPPORTS without one; joining otherwise |
| `Propagation.NestedIsRequiresNew` | src/transactions/wrap-in-transaction.ts:99-100 | NESTED and REQUIRES_NEW both open a new transaction whether or not one is active |
| `Transactions.Defaults` | src/transactions/wrap-in-transaction.ts:41-50 | with no connection name or mode given, the call uses `'default'` and REQUIRED |
| `Transactions.WithNewTransaction` | src/transactions/wrap-in-transaction.ts:56-85 | the exact trace of every exit path: a failed begin gives [hook scope, begin], throws its error and leaves the store unchanged; otherwise the unit of work sees the new manager and the slot is null on every exit; a return with a successful commit gives [hook scope, begin, invoke, commit] and the unit's value; a throw of the unit gives [hook scope, begin, invoke, rollback]; a failed commit gives [hook scope, begin, invoke, commit, rollback]; both failures rethrow the unit's (or commit's) error unless rollback throws, whose error replaces it; the call returns exactly when begin, the unit and commit all succeed; every other key of the store keeps its value |
| `Transactions.Propagated` | src/transactions/wrap-in-transaction.ts:87-135 | a rejection throws a TransactionalError with no events and no store change; `begin` happens exactly when a new transaction is decided; no other path commits or rolls back, and every path other than a rejection or a new transaction returns or throws what the unit of work does; every key of the store other than the connection's slot keeps its value |
| `Transactions.MandatoryPropagation` | src/transactions/wrap-in-transaction.ts:90-97 | with no current transaction: throws the MANDATORY TransactionalError, with no events (so no `begin`, `commit` or `rollback`) and no store change; with one: runs the unit of work directly, and it sees that transaction |
| `Transactions.NeverPropagation` | src/transactions/wrap-in-transaction.ts:102-109 | with a current transaction: throws the NEVER TransactionalError with no events; without one: a fresh hook scope, the unit of work sees no transaction, and nothing begins |
| `Transactions.RequiredPropagation` | src/transactions/wrap-in-transaction.ts:122-127 | joins a current transaction (the unit of work sees the same manager, nothing begins); otherwise behaves as a new transaction |
| `Transactions.RequiresNewAndNestedPropagation` | src/transactions/wrap-in-transaction.ts:129-130 | REQUIRES_NEW and NESTED both run as a new transaction whatever the slot holds; when the name is registered and begin succeeds, the unit of work sees the new manager |
| `Transactions.SupportsPropagation` | src/transactions/wrap-in-transaction.ts:132-133 | runs the unit of work directly when a transaction is present; otherwise in a fresh hook scope with no transaction and no `begin` |
| `Transactions.NotSupportedPropagation` | src/transactions/wrap-in-transaction.ts:111-120 | with a current transaction, the unit of work runs in a fresh hook scope and sees a null slot. After a normal return the store is restored exactly, with the same manager back in the slot. After a throw the slot stays null. Without a current transaction the unit of work simply runs |
| `Transactions.Scope.constructor` | src/transactions/wrap-in-transaction.ts:87 | the scope of `context.run` starts as a copy of the caller's store with no events |
| `Transactions.Scope.RunOriginal` | src/transactions/wrap-in-transaction.ts:53 | runs the unit of work against the scope's store as it is |
| `Transactions.Scope.RunWithNewHook` | src/transactions/wrap-in-transaction.ts:54 | the same, after opening a fresh hook scope |
| `Transactions.Scope.RunWithNewTransaction` | src/transactions/wrap-in-transaction.ts:56-85 | the step-by-step begin / set slot / run / reset slot / commit-or-rollback sequence yields exactly `WithNewTransaction`'s result, store and events |
| `Transactions.Scope.Dispatch` | src/transactions/wrap-in-transaction.ts:88-134 | the step-by-step switch, including NOT_SUPPORTED's null-then-restore of the slot, yields exactly `Propagated`'s result, store and events |
| `Transactions.WrapInTransaction` | src/transactions/wrap-in-transaction.ts:33-135 | with no storage driver, it throws the storage error, with no events. With an unregistered connection name (default `'default'`), it throws the data-source error, with no events. Otherwise the result and events are those of `Propagated` for the mode (default REQUIRED) on a copy of the caller's store. Nothing of the caller's is modified |
| `Transactions.InnerCallKeepsOuterTransaction` | tests/simple.test.ts:413-455 | an inner wrapped call leaves the caller's transaction for that connection unchanged, whatever its mode; under REQUIRES_NEW the inner unit of work sees the inner manager; under NOT_SUPPORTED it sees none, in a fresh hook scope |

## Left out

- The asynchronous context driver (`src/storage/driver/async-local-storage`) is not part of this model. Its per-chain isolation is not modelled, and neither is the interleaving of concurrent call chains. `context.run` is modelled only as "the call works on a copy of the caller's store".
- The hooks module (`runInNewHookContext`, `runOnTransactionCommit`/`Rollback`/`Complete`) is not part of this model. Opening a fresh hook scope is recorded as a `NewHookScope` event, and no firing of callbacks is modelled.
- The patching of MikroORM is left out, because it redefines properties of a foreign library. This covers:
  - `patchDataSource`;
  - `patchManager` and the `getRepository` override inside `initializeTransactionalContext`;
  - `getEntityManagerInContext`, which only those patches use;
  - the write of the registered name onto the data source object.
  
  As a result, which entity manager `dataSource.em` yields when a transaction begins is an input (`manager`). The `patch` flag is accepted and has no effect.
- The `Transactional` decorator is left out: it is metadata copying and renaming.
- `isDataSource` is left out: it is a constructor-name check. The two argument forms of `addTransactionalDataSource` are the `Bare` and `Input` constructors.
- Several values are opaque: the isolation level (passed through to `begin` unchanged), the values the unit of work returns (integers), and the `this`/arguments it is applied to. The `name` field of the wrapper options is left out because the wrapper never reads it.
- The text of the data-source slot prefix and the hook key are not part of this model: they are defined in a constants file. The prefix is an unspecified string, and every property holds for any value of it. The hook key is assumed to be a symbol, so no string key equals it, and `SlotKeyIsNotHookKey` holds by construction of `Key`. If the real hook key is a string, keeping the two apart depends on the prefix.
- `maxHookHandlers` values are integers. JavaScript's non-integer numbers and `Infinity` are not modelled.
- `Common.Registry.GetTransactionalOptions` has no contract of its own. It returns the options field, and `SetTransactionalOptions` is stated through it.
- `getTransactionalContext` is `storage.get()`. The wrapper calls `Storage.Get` directly.
- Synchronous throws and promise rejections are not told apart: the storage and data-source errors are thrown by the wrapper itself before any promise exists (src/transactions/wrap-in-transaction.ts:34-47), while a `TransactionalError` and the errors of the unit of work or the driver reject the promise that `context.run` returns. `Threw` stands for both.
- Awaiting is not modelled: each wrapped call runs to completion before its caller continues.

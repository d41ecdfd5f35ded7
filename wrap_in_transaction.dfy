/** `wrapInTransaction` (src/transactions/wrap-in-transaction.ts): the checks
    a wrapped call makes, the propagation decision, and the executor that
    opens, commits and rolls back a new transaction.

    The ambient context: `context.run` gives the wrapped call a fresh scope
    that starts as a copy of the caller's store; what the call writes there is
    not written back to the caller. A `Scope` object is that copy.

    The unit of work is opaque: `work` says whether it returns (and what) or
    throws (and what). It is assumed not to write the caller's slots itself;
    nested wrapped calls inside it write only their own copies. What the
    driver's `begin`, `commit` and `rollback` do is opaque too: `DriverErrors`
    says which of them, if any, throws. */
module Transactions {
  import opened Wrappers
  import opened ContextStorage
  import opened Common
  import opened Propagation

  /** An isolation level of the ORM, passed through to `begin`. */
  datatype IsolationLevel = IsolationLevel(name: string)

  datatype WrapInTransactionOptions = WrapInTransactionOptions(
    connectionName: Option<string>,
    propagation: Option<Propagation>,
    isolationLevel: Option<IsolationLevel>)

  /** The connection used: `options?.connectionName ?? 'default'`. */
  function ConnectionName(options: Option<WrapInTransactionOptions>): string {
    if options.Some? then options.value.connectionName.GetOr(DefaultName) else DefaultName
  }

  /** The mode used: `options?.propagation ?? Propagation.REQUIRED`. */
  function PropagationOf(options: Option<WrapInTransactionOptions>): Propagation {
    if options.Some? then options.value.propagation.GetOr(Required) else Required
  }

  function IsolationLevelOf(options: Option<WrapInTransactionOptions>): Option<IsolationLevel> {
    if options.Some? then options.value.isolationLevel else None
  }

  /** Without options, or without those two fields, the call propagates with
      REQUIRED on the `'default'` connection. */
  lemma Defaults(options: Option<WrapInTransactionOptions>)
    requires options.Some? ==> options.value.connectionName.None? && options.value.propagation.None?
    ensures ConnectionName(options) == "default" && PropagationOf(options) == Required
  {
  }

  /** What a wrapped call does that an observer can see, in order: opening a
      fresh hook scope, the three driver calls (recorded when made, whether or
      not they then throw), and running the unit of work, together with the
      entity manager it finds in its connection's slot. */
  datatype Event =
    | NewHookScope
    | Begin(isolationLevel: Option<IsolationLevel>)
    | Commit
    | Rollback
    | Invoke(observed: Option<EntityManager>)

  /** The error each driver call throws, if it throws. */
  datatype DriverErrors = DriverErrors(onBegin: Option<Error>, onCommit: Option<Error>, onRollback: Option<Error>)

  /** Everything a wrapped call is given: the registered data sources, the
      connection name, the entity manager that `dataSource.em` yields when a
      transaction begins, the isolation level, the driver's behaviour and the
      unit of work. */
  datatype Call = Call(
    dataSources: map<string, DataSource>,
    name: string,
    manager: EntityManager,
    isolationLevel: Option<IsolationLevel>,
    driver: DriverErrors,
    work: Outcome<int>)

  /** The result of a run, the scope's store when it ends, and its events. */
  datatype Run = Run(result: Outcome<int>, context: map<Key, Value>, trace: seq<Event>)

  /** The transaction active for the call's connection in `context`. */
  function Current(c: Call, context: map<Key, Value>): Option<EntityManager> {
    GetEntityManagerByDataSourceName(c.dataSources, context, c.name)
  }

  /** `runOriginal`: the unit of work runs against `context` as it is. */
  function Original(c: Call, context: map<Key, Value>): Run {
    Run(c.work, context, [Invoke(Current(c, context))])
  }

  /** `runWithNewHook`: the same, inside a fresh hook scope. */
  function WithNewHook(c: Call, context: map<Key, Value>): Run {
    Run(c.work, context, [NewHookScope, Invoke(Current(c, context))])
  }

  /** The unit of work's run inside a new transaction: it finds the new
      manager in its slot (a name that is not registered has no slot). */
  function InvokeInTransaction(c: Call): Event {
    Invoke(if c.name in c.dataSources then Some(c.manager) else None)
  }

  /** `runWithNewTransaction`. In a fresh hook scope, `begin`; if it throws,
      that error propagates and nothing else happens. Otherwise the unit of
      work runs with the new manager in the slot; the slot is reset to null on
      every exit; `commit` follows a normal return, and the result is returned
      if it succeeds. A throw of the unit of work or of `commit` leads to
      `rollback` and is rethrown, unless `rollback` throws, whose error then
      replaces it. Only the connection's own slot changes. */
  function WithNewTransaction(c: Call, context: map<Key, Value>): (r: Run)
    ensures |r.trace| >= 2 && r.trace[..2] == [NewHookScope, Begin(c.isolationLevel)]
    ensures c.driver.onBegin.Some? ==>
      r.result == Threw(c.driver.onBegin.value) && r.context == context && |r.trace| == 2
    ensures c.driver.onBegin.None? ==> Current(c, r.context) == None
    ensures c.driver.onBegin.None? && c.work.Returned? && c.driver.onCommit.None? ==>
      r.result == c.work
      && r.trace == [NewHookScope, Begin(c.isolationLevel), InvokeInTransaction(c), Commit]
    ensures c.driver.onBegin.None? && c.work.Threw? ==>
      r.result == Threw(c.driver.onRollback.GetOr(c.work.error))
      && r.trace == [NewHookScope, Begin(c.isolationLevel), InvokeInTransaction(c), Rollback]
    ensures c.driver.onBegin.None? && c.work.Returned? && c.driver.onCommit.Some? ==>
      r.result == Threw(c.driver.onRollback.GetOr(c.driver.onCommit.value))
      && r.trace == [NewHookScope, Begin(c.isolationLevel), InvokeInTransaction(c), Commit, Rollback]
    ensures r.result.Returned? <==> c.driver.onBegin.None? && c.work.Returned? && c.driver.onCommit.None?
    ensures r.context.Keys <= context.Keys + {SlotKey(c.name)}
    ensures forall k :: k in context && k != SlotKey(c.name) ==> k in r.context && r.context[k] == context[k]
    ensures forall n :: n != c.name ==>
      GetEntityManagerByDataSourceName(c.dataSources, r.context, n) == GetEntityManagerByDataSourceName(c.dataSources, context, n)
  {
    var started := [NewHookScope, Begin(c.isolationLevel)];
    if c.driver.onBegin.Some? then
      Run(Threw(c.driver.onBegin.value), context, started)
    else
      var inTransaction := SetEntityManagerByDataSourceName(c.dataSources, context, c.name, Some(c.manager));
      var ran := Original(c, inTransaction);
      var cleared := SetEntityManagerByDataSourceName(c.dataSources, inTransaction, c.name, None);
      if c.work.Returned? && c.driver.onCommit.None? then
        Run(c.work, cleared, started + ran.trace + [Commit])
      else
        var error := if c.work.Threw? then c.work.error else c.driver.onCommit.value;
        var closing := if c.work.Returned? then [Commit, Rollback] else [Rollback];
        Run(Threw(c.driver.onRollback.GetOr(error)), cleared, started + ran.trace + closing)
  }

  /** The body that `context.run` executes: the propagation `switch`. A
      rejection throws a `TransactionalError` and does nothing else; only a
      new transaction calls the driver; every other path returns or throws
      exactly what the unit of work does. */
  function Propagated(propagation: Propagation, c: Call, context: map<Key, Value>): (r: Run)
    ensures var a := Decide(propagation, Current(c, context).Some?);
      && (a.Reject? ==> r == Run(Threw(TransactionalError(a.message)), context, []))
      && (Begin(c.isolationLevel) in r.trace <==> a == RunWithNewTransaction)
      && (a != RunWithNewTransaction ==> Commit !in r.trace && Rollback !in r.trace)
      && (!a.Reject? && a != RunWithNewTransaction ==> r.result == c.work)
    ensures r.context.Keys <= context.Keys + {SlotKey(c.name)}
    ensures forall k :: k in context && k != SlotKey(c.name) ==> k in r.context && r.context[k] == context[k]
    ensures forall n :: n != c.name ==>
      GetEntityManagerByDataSourceName(c.dataSources, r.context, n) == GetEntityManagerByDataSourceName(c.dataSources, context, n)
  {
    var current := Current(c, context);
    match Decide(propagation, current.Some?)
    case Reject(message) => Run(Threw(TransactionalError(message)), context, [])
    case RunOriginal => Original(c, context)
    case RunWithNewHook => WithNewHook(c, context)
    case RunWithNewTransaction => WithNewTransaction(c, context)
    case Suspend =>
      var suspended := SetEntityManagerByDataSourceName(c.dataSources, context, c.name, None);
      var ran := WithNewHook(c, suspended);
      if ran.result.Returned? then
        ran.(context := SetEntityManagerByDataSourceName(c.dataSources, ran.context, c.name, current))
      else
        ran
  }

  // -----------------------------------------------------------------------
  // The propagation modes, one by one

  /** MANDATORY: without a transaction it throws a `TransactionalError`,
      never runs the unit of work and calls no driver operation; with one it
      runs the unit of work directly, which sees that transaction. */
  lemma MandatoryPropagation(c: Call, context: map<Key, Value>)
    ensures var r := Propagated(Mandatory, c, context);
      if Current(c, context).None? then
        r == Run(Threw(TransactionalError(MandatoryMessage)), context, [])
      else
        r == Run(c.work, context, [Invoke(Current(c, context))])
  {
  }

  /** NEVER: with a transaction it throws a `TransactionalError` and calls no
      driver operation; without one it runs the unit of work in a fresh hook
      scope and begins nothing. */
  lemma NeverPropagation(c: Call, context: map<Key, Value>)
    ensures var r := Propagated(Never, c, context);
      if Current(c, context).Some? then
        r == Run(Threw(TransactionalError(NeverMessage)), context, [])
      else
        r == Run(c.work, context, [NewHookScope, Invoke(None)])
  {
  }

  /** REQUIRED: with a transaction it joins it (no `begin`, the unit of work
      sees the same manager); without one it opens a new transaction. */
  lemma RequiredPropagation(c: Call, context: map<Key, Value>)
    ensures var r := Propagated(Required, c, context);
      if Current(c, context).Some? then
        r == Run(c.work, context, [Invoke(Current(c, context))])
      else
        r == WithNewTransaction(c, context)
  {
  }

  /** REQUIRES_NEW and NESTED open a new transaction whatever the slot holds;
      the unit of work then sees the new manager, not the outer one. */
  lemma RequiresNewAndNestedPropagation(c: Call, context: map<Key, Value>)
    ensures Propagated(RequiresNew, c, context) == Propagated(Nested, c, context) == WithNewTransaction(c, context)
    ensures c.name in c.dataSources && c.driver.onBegin.None? ==>
      Propagated(RequiresNew, c, context).trace[..3] == [NewHookScope, Begin(c.isolationLevel), Invoke(Some(c.manager))]
  {
  }

  /** SUPPORTS: it joins an active transaction, and otherwise runs the unit
      of work in a fresh hook scope without beginning one. */
  lemma SupportsPropagation(c: Call, context: map<Key, Value>)
    ensures var r := Propagated(Supports, c, context);
      if Current(c, context).Some? then
        r == Run(c.work, context, [Invoke(Current(c, context))])
      else
        r == Run(c.work, context, [NewHookScope, Invoke(None)])
  {
  }

  /** NOT_SUPPORTED with a transaction: the unit of work sees a null slot in
      a fresh hook scope; after a normal return the store is exactly as it was
      (the same manager back in the slot); after a throw the slot stays null.
      Without a transaction it simply runs the unit of work. */
  lemma NotSupportedPropagation(c: Call, context: map<Key, Value>)
    ensures var r := Propagated(NotSupported, c, context);
      if Current(c, context).Some? then
        && r.result == c.work
        && r.trace == [NewHookScope, Invoke(None)]
        && (c.work.Returned? ==> r.context == context)
        && (c.work.Threw? ==> Current(c, r.context) == None)
      else
        r == Run(c.work, context, [Invoke(None)])
  {
  }

  // -----------------------------------------------------------------------
  // The executor, step by step

  /** The scope `context.run` opens for one wrapped call: its own store,
      which starts as a copy of the caller's, and the events so far. */
  class Scope {
    const call: Call
    var context: map<Key, Value>
    var trace: seq<Event>

    constructor(call: Call, context: map<Key, Value>)
      ensures this.call == call && this.context == context && trace == []
    {
      this.call := call;
      this.context := context;
      trace := [];
    }

    /** `setEntityManagerByDataSourceName(context, connectionName, em)`. */
    method SetSlot(em: Option<EntityManager>)
      modifies this
      ensures context == SetEntityManagerByDataSourceName(call.dataSources, old(context), call.name, em)
      ensures trace == old(trace)
    {
      context := SetEntityManagerByDataSourceName(call.dataSources, context, call.name, em);
    }

    method RunOriginal() returns (r: Outcome<int>)
      modifies this
      ensures var s := Original(call, old(context));
        r == s.result && context == s.context && trace == old(trace) + s.trace
    {
      trace := trace + [Invoke(Current(call, context))];
      r := call.work;
    }

    method RunWithNewHook() returns (r: Outcome<int>)
      modifies this
      ensures var s := WithNewHook(call, old(context));
        r == s.result && context == s.context && trace == old(trace) + s.trace
    {
      trace := trace + [NewHookScope];
      r := RunOriginal();
    }

    method RunWithNewTransaction() returns (r: Outcome<int>)
      modifies this
      ensures var s := WithNewTransaction(call, old(context));
        r == s.result && context == s.context && trace == old(trace) + s.trace
    {
      trace := trace + [NewHookScope, Begin(call.isolationLevel)];
      if call.driver.onBegin.Some? {
        return Threw(call.driver.onBegin.value);
      }
      // transactionCallback: install the manager, run, reset in `finally`
      SetSlot(Some(call.manager));
      var outcome := RunOriginal();
      SetSlot(None);
      if outcome.Returned? {
        trace := trace + [Commit];
        if call.driver.onCommit.None? {
          return outcome;
        }
        outcome := Threw(call.driver.onCommit.value);
      }
      // catch: roll back and rethrow
      trace := trace + [Rollback];
      r := Threw(call.driver.onRollback.GetOr(outcome.error));
    }

    /** The propagation `switch`, run in this scope. */
    method Dispatch(propagation: Propagation) returns (r: Outcome<int>)
      modifies this
      ensures var s := Propagated(propagation, call, old(context));
        r == s.result && context == s.context && trace == old(trace) + s.trace
    {
      var current := Current(call, context);
      match Decide(propagation, current.Some?)
      case Reject(message) =>
        r := Threw(TransactionalError(message));
      case RunOriginal =>
        r := RunOriginal();
      case RunWithNewHook =>
        r := RunWithNewHook();
      case RunWithNewTransaction =>
        r := RunWithNewTransaction();
      case Suspend =>
        SetSlot(None);
        r := RunWithNewHook();
        if r.Returned? {
          SetSlot(current);
        }
    }
  }

  const NoDataSourcesMessage :=
    "No data sources defined in your app ... please call addTransactionalDataSources() before application start."

  /** A call of the wrapped function. It throws, before touching any slot or
      the driver, when no storage driver exists or when no data source is
      registered under the connection name; otherwise it runs the propagation
      in a copy of the caller's store and reports its result and events. It
      has no `modifies` clause: the caller's store, the registry and the
      storage are left as they were. */
  method WrapInTransaction(
    storage: Storage,
    registry: Registry,
    options: Option<WrapInTransactionOptions>,
    manager: EntityManager,
    driver: DriverErrors,
    work: Outcome<int>)
    returns (r: Outcome<int>, trace: seq<Event>)
    ensures storage.driver == null ==> r == Threw(Plain(NoStorageDriverMessage)) && trace == []
    ensures storage.driver != null && ConnectionName(options) !in registry.dataSources ==>
      r == Threw(Plain(NoDataSourcesMessage)) && trace == []
    ensures storage.driver != null && ConnectionName(options) in registry.dataSources ==>
      var c := Call(registry.dataSources, ConnectionName(options), manager, IsolationLevelOf(options), driver, work);
      var s := Propagated(PropagationOf(options), c, storage.driver.store);
      r == s.result && trace == s.trace
  {
    var got := storage.Get();
    if got.Threw? {
      return Threw(got.error), [];
    }
    var context := got.value;
    var name := ConnectionName(options);
    if registry.GetDataSourceByName(name).None? {
      return Threw(Plain(NoDataSourcesMessage)), [];
    }
    var call := Call(registry.dataSources, name, manager, IsolationLevelOf(options), driver, work);
    var scope := new Scope(call, context.store);
    r := scope.Dispatch(PropagationOf(options));
    trace := scope.trace;
  }

  /** An inner wrapped call made while the caller holds a transaction on the
      same connection: whatever its mode, the caller's transaction is the
      same afterwards. With REQUIRES_NEW the inner unit of work sees the
      inner transaction's manager, with NOT_SUPPORTED it sees none. */
  method InnerCallKeepsOuterTransaction(
    storage: Storage,
    registry: Registry,
    options: Option<WrapInTransactionOptions>,
    manager: EntityManager,
    driver: DriverErrors,
    work: Outcome<int>)
    returns (before: Option<EntityManager>, r: Outcome<int>, trace: seq<Event>, after: Option<EntityManager>)
    requires storage.driver != null
    ensures after == before
    ensures (ConnectionName(options) in registry.dataSources && before.Some? && driver.onBegin.None?
             && PropagationOf(options) == RequiresNew) ==> Invoke(Some(manager)) in trace
    ensures (ConnectionName(options) in registry.dataSources && before.Some?
             && PropagationOf(options) == NotSupported) ==> trace == [NewHookScope, Invoke(None)]
  {
    var name := ConnectionName(options);
    before := GetEntityManagerByDataSourceName(registry.dataSources, storage.driver.store, name);
    r, trace := WrapInTransaction(storage, registry, options, manager, driver, work);
    after := GetEntityManagerByDataSourceName(registry.dataSources, storage.driver.store, name);
    if name in registry.dataSources && before.Some? && driver.onBegin.None? && PropagationOf(options) == RequiresNew {
      assert trace[2] == Invoke(Some(manager));
    }
  }
}

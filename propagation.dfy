/** The propagation modes and the decision the propagation `switch` of
    src/transactions/wrap-in-transaction.ts makes from a mode and from whether
    a transaction is already active for the connection. */
module Propagation {

  datatype Propagation =
    | Mandatory
    | Nested
    | Never
    | NotSupported
    | Required
    | RequiresNew
    | Supports

  /** What the wrapper does with the unit of work. */
  datatype Action =
    | RunOriginal             // join: run it as it is
    | RunWithNewHook          // run it in a fresh hook scope, no transaction
    | RunWithNewTransaction   // run it in a new transaction
    | Suspend                 // null the active slot, run it in a fresh hook scope, restore the slot
    | Reject(message: string) // throw a `TransactionalError`

  const MandatoryMessage := "No existing transaction found for transaction marked with propagation 'MANDATORY'"
  const NeverMessage := "Found an existing transaction, transaction marked with propagation 'NEVER'"

  /** The action for `propagation` when a transaction is (`active`) or is not
      present, stated action by action. */
  function Decide(propagation: Propagation, active: bool): (a: Action)
    ensures a.Reject? <==> (propagation == Mandatory && !active) || (propagation == Never && active)
    ensures a.Reject? ==> a.message == (if propagation == Mandatory then MandatoryMessage else NeverMessage)
    ensures a == RunWithNewTransaction <==> propagation in {Nested, RequiresNew} || (propagation == Required && !active)
    ensures a == Suspend <==> propagation == NotSupported && active
    ensures a == RunWithNewHook <==> !active && propagation in {Never, Supports}
    ensures a == RunOriginal <==> (active && propagation in {Mandatory, Required, Supports}) || (!active && propagation == NotSupported)
  {
    match propagation
    case Mandatory => if !active then Reject(MandatoryMessage) else RunOriginal
    case Nested => RunWithNewTransaction
    case Never => if active then Reject(NeverMessage) else RunWithNewHook
    case NotSupported => if active then Suspend else RunOriginal
    case Required => if active then RunOriginal else RunWithNewTransaction
    case RequiresNew => RunWithNewTransaction
    case Supports => if active then RunOriginal else RunWithNewHook
  }

  /** NESTED gets no savepoint semantics: like REQUIRES_NEW it always opens a
      new transaction, whether or not one is active. */
  lemma NestedIsRequiresNew(active: bool)
    ensures Decide(Nested, active) == Decide(RequiresNew, active) == RunWithNewTransaction
  {
  }
}

/** The payment states and the transition table (internal/payments/models.go, state_machine.go). */
module PaymentStates {

  datatype Status = Created | Creating | CreationUnknown | Pending | Succeeded | Canceled {
    predicate Terminal() {
      this == Succeeded || this == Canceled
    }
  }

  datatype OperationStatus = OpPending | OpInProgress | OpSucceeded | OpFailed | OpUnknown | OpNeedsReview

  /** The one table that decides which status changes are legal. */
  function AllowedTransitions(from: Status): set<Status> {
    match from
    case Created => {Creating, Canceled}
    case Creating => {Pending, CreationUnknown, Canceled}
    case CreationUnknown => {Pending, Succeeded, Canceled}
    case Pending => {Succeeded, Canceled}
    case Succeeded => {}
    case Canceled => {}
  }

  predicate CanTransition(from: Status, to: Status) {
    to in AllowedTransitions(from)
  }

  /** The edges of the table that some statement of the payment core really takes. */
  predicate CodeEdge(from: Status, to: Status) {
    || (from == Created && to == Creating)
    || (from == Creating && (to == Pending || to == CreationUnknown || to == Canceled))
    || (from == Pending && (to == Succeeded || to == Canceled))
  }

  /** How many table edges can still follow a state. */
  function Rank(s: Status): nat {
    match s
    case Created => 4
    case Creating => 3
    case CreationUnknown => 2
    case Pending => 1
    case Succeeded => 0
    case Canceled => 0
  }

  /** How many code edges can still follow a state. */
  function CodeRank(s: Status): nat {
    match s
    case Created => 3
    case Creating => 2
    case Pending => 1
    case CreationUnknown => 0
    case Succeeded => 0
    case Canceled => 0
  }

  /** The table is acyclic, leaves no terminal state, and contains every edge the code takes. */
  lemma TableIsRanked(from: Status, to: Status)
    ensures CanTransition(from, to) ==> Rank(to) < Rank(from) <= 4 && !from.Terminal()
    ensures CodeEdge(from, to) ==> CanTransition(from, to) && CodeRank(to) < CodeRank(from) <= 3
    ensures from.Terminal() <==> AllowedTransitions(from) == {}
  {
    if from == Pending { assert Succeeded in AllowedTransitions(from); }
    if from == Created || from == Creating || from == CreationUnknown {
      assert Canceled in AllowedTransitions(from);
    }
  }

  /** The table's edges that no statement takes: cancel-before-call and every way out of creation_unknown. */
  lemma EdgesNeverTaken(from: Status, to: Status)
    ensures CanTransition(from, to) && !CodeEdge(from, to)
            <==> (from == Created && to == Canceled) || (from == CreationUnknown && (to == Pending || to.Terminal()))
  {
  }
}

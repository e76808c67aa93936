/**
 * The records the transaction engine works on: the lifecycle states, a step,
 * a transaction and the outcome of a commit or rollback, with the default
 * values their declarations give.
 */
module Models {

  datatype Option<T> = None | Some(value: T)

  /** Lifecycle states of a transaction. Each member's string value is its own name. */
  datatype TransactionState = Pending | Active | Committed | RolledBack | Failed {

    /** The string value the member carries (what a persisted transaction stores). */
    function Value(): string {
      match this
      case Pending => "pending"
      case Active => "active"
      case Committed => "committed"
      case RolledBack => "rolled_back"
      case Failed => "failed"
    }
  }

  /** Every member of the enumeration, in declaration order. */
  const AllStates: seq<TransactionState> := [Pending, Active, Committed, RolledBack, Failed]

  /** Looks a member up by its string value, as constructing the enumeration from a value does. */
  function ParseState(s: string): (r: Option<TransactionState>)
    ensures r.Some? ==> r.value.Value() == s
    ensures r.None? ==> forall st: TransactionState :: st.Value() != s
  {
    if s == "pending" then Some(Pending)
    else if s == "active" then Some(Active)
    else if s == "committed" then Some(Committed)
    else if s == "rolled_back" then Some(RolledBack)
    else if s == "failed" then Some(Failed)
    else None
  }

  /** The enumeration has exactly five members, and their values tell them apart. */
  lemma StatesAreExactlyFive()
    ensures |AllStates| == 5
    ensures forall st: TransactionState :: st in AllStates
    ensures forall i, j :: 0 <= i < j < |AllStates| ==> AllStates[i].Value() != AllStates[j].Value()
    ensures forall st: TransactionState :: ParseState(st.Value()) == Some(st)
  {
    forall st: TransactionState
      ensures st in AllStates && ParseState(st.Value()) == Some(st)
    {
      match st
      case Pending =>
      case Active =>
      case Committed =>
      case RolledBack =>
      case Failed =>
    }
  }

  /** The payload handed to a handler: an opaque key-value map. */
  type Payload = map<string, string>

  /** One unit of work: a forward action with an optional compensating (undo) action. */
  datatype TransactionStep = TransactionStep(
    stepId: string,
    agentId: string,
    action: string,
    data: Payload,
    compensatingAction: Option<string>)

  /** A step built from its required fields only. */
  function NewStep(stepId: string, agentId: string, action: string): (s: TransactionStep)
    ensures s.stepId == stepId && s.agentId == agentId && s.action == action
    ensures s.data == map[] && s.compensatingAction == None
  {
    TransactionStep(stepId, agentId, action, map[], None)
  }

  /** Timeout a transaction gets when none is given. */
  const DefaultTimeoutSeconds: int := 60

  /**
   * The last representable instant, 9999-12-31 23:59:59.999999, counted in
   * microseconds from the first one, 0001-01-01 00:00:00.
   */
  const MaxInstant: int := 315537897599999999

  /** A point in time as the datetime type can represent it: microseconds since 0001-01-01. */
  type Instant = t: int | 0 <= t <= MaxInstant

  /**
   * A transaction. The manager changes `steps` and `state` in place, so every
   * holder of a reference sees the changes; the other fields never change.
   * Times are instants counted in microseconds.
   */
  class Transaction {
    const transactionId: string
    var steps: seq<TransactionStep>
    var state: TransactionState
    const createdAt: Instant
    const timeoutSeconds: int

    constructor (transactionId: string, steps: seq<TransactionStep>, state: TransactionState,
                 createdAt: Instant, timeoutSeconds: int)
      ensures this.transactionId == transactionId && this.steps == steps && this.state == state
      ensures this.createdAt == createdAt && this.timeoutSeconds == timeoutSeconds
    {
      this.transactionId := transactionId;
      this.steps := steps;
      this.state := state;
      this.createdAt := createdAt;
      this.timeoutSeconds := timeoutSeconds;
    }

    /** A transaction built from its required fields only. */
    constructor WithDefaults(transactionId: string, createdAt: Instant)
      ensures this.transactionId == transactionId && this.createdAt == createdAt
      ensures steps == [] && state == Pending && timeoutSeconds == DefaultTimeoutSeconds
    {
      this.transactionId := transactionId;
      this.createdAt := createdAt;
      steps := [];
      state := Pending;
      timeoutSeconds := DefaultTimeoutSeconds;
    }
  }

  /** Outcome snapshot of a commit or rollback. */
  datatype TransactionResult = TransactionResult(
    transactionId: string,
    state: TransactionState,
    completedSteps: seq<string>,
    failedStep: Option<string>,
    error: Option<string>)

  /** A result built from its required fields only. */
  function NewResult(transactionId: string, state: TransactionState): (r: TransactionResult)
    ensures r.transactionId == transactionId && r.state == state
    ensures r.completedSteps == [] && r.failedStep == None && r.error == None
  {
    TransactionResult(transactionId, state, [], None, None)
  }
}

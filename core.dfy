/**
 * The saga engine: a transaction manager that creates transactions, appends
 * steps, commits them (forward actions in order, reverse-order compensation
 * on the first failure) or rolls them back, and an orchestrator that batches
 * begin, add-step and commit into one call.
 *
 * Handlers are modelled as a table from action name to a function of the
 * payload giving `Ok` or `Err(message)`; a missing entry is a no-op. The
 * manager keeps a ghost trace of every handler it actually invokes, so that
 * which handlers run, and in what order, can be stated.
 */
module Core {
  import opened Seqs
  import opened Models

  /** What a handler call does: return normally, or raise with a message. */
  datatype Outcome = Ok | Err(message: string)

  type Handler = Payload -> Outcome

  /** One call of a handler: the name it is registered under and the payload it got. */
  datatype Invocation = Invocation(action: string, data: Payload)

  /** Why an operation on a transaction was refused. */
  datatype TransactionError =
      /** A step was added to, or a commit asked of, a transaction that is not pending. */
      InvalidState(transactionId: string, state: TransactionState)
      /** The deadline of the transaction lies outside the representable instants. */
    | DeadlineOverflow(transactionId: string)

  datatype Result<T> = Success(value: T) | Failure(error: TransactionError)

  const MicrosPerSecond: int := 1000000

  const TimeoutMessage: string := "Transaction timed out before commit"

  // ---------------------------------------------------------------------
  // Specification: what one handler, a forward pass and a compensation do
  // ---------------------------------------------------------------------

  /** Calling the handler registered for `name`; no handler means nothing happens. */
  function Invoke(handlers: map<string, Handler>, name: string, data: Payload): Outcome {
    if name in handlers then handlers[name](data) else Ok
  }

  /** The trace of calling the handler registered for `name`. */
  function CallOf(handlers: map<string, Handler>, name: string, data: Payload): seq<Invocation> {
    if name in handlers then [Invocation(name, data)] else []
  }

  /** Outcome of a step's forward action. */
  function Forward(handlers: map<string, Handler>, step: TransactionStep): Outcome {
    Invoke(handlers, step.action, step.data)
  }

  /** The trace of a step's undo: a call only if it declares one and a handler is registered. */
  function UndoOf(handlers: map<string, Handler>, step: TransactionStep): seq<Invocation> {
    if step.compensatingAction.Some? then CallOf(handlers, step.compensatingAction.value, step.data)
    else []
  }

  function StepIds(steps: seq<TransactionStep>): (ids: seq<string>)
    ensures |ids| == |steps|
    ensures forall i :: 0 <= i < |steps| ==> ids[i] == steps[i].stepId
  {
    seq(|steps|, i requires 0 <= i < |steps| => steps[i].stepId)
  }

  lemma StepIdsSnoc(steps: seq<TransactionStep>, i: nat)
    requires i < |steps|
    ensures StepIds(steps[..i + 1]) == StepIds(steps[..i]) + [steps[i].stepId]
  {
  }

  /** Result of running the forward actions in order up to the first that raises. */
  datatype ForwardRun = AllDone | FailedAt(index: nat, message: string)

  function RunForward(handlers: map<string, Handler>, steps: seq<TransactionStep>): (r: ForwardRun)
    ensures r.AllDone? <==> forall i :: 0 <= i < |steps| ==> Forward(handlers, steps[i]).Ok?
    ensures r.FailedAt? ==> r.index < |steps| && Forward(handlers, steps[r.index]) == Err(r.message)
    ensures r.FailedAt? ==> forall i :: 0 <= i < r.index ==> Forward(handlers, steps[i]).Ok?
  {
    if |steps| == 0 then AllDone
    else match Forward(handlers, steps[0])
      case Err(msg) => FailedAt(0, msg)
      case Ok =>
        match RunForward(handlers, steps[1..])
        case AllDone => AllDone
        case FailedAt(k, msg) => FailedAt(k + 1, msg)
  }

  /** The forward pass stops at the first step whose handler raises, with that handler's message. */
  lemma {:induction false} RunForwardStopsAt(handlers: map<string, Handler>, steps: seq<TransactionStep>, k: nat, msg: string)
    requires k < |steps|
    requires forall i :: 0 <= i < k ==> Forward(handlers, steps[i]).Ok?
    requires Forward(handlers, steps[k]) == Err(msg)
    ensures RunForward(handlers, steps) == FailedAt(k, msg)
  {
    if k > 0 {
      assert Forward(handlers, steps[0]).Ok?;
      RunForwardStopsAt(handlers, steps[1..], k - 1, msg);
    }
  }

  /** The forward calls made for `steps`, in insertion order. */
  function ForwardCalls(handlers: map<string, Handler>, steps: seq<TransactionStep>): (calls: seq<Invocation>)
    ensures |calls| <= |steps|
  {
    if |steps| == 0 then []
    else ForwardCalls(handlers, steps[..|steps| - 1]) + CallOf(handlers, steps[|steps| - 1].action, steps[|steps| - 1].data)
  }

  /** Running one more step adds that step's forward call at the end. */
  lemma ForwardCallsSnoc(handlers: map<string, Handler>, steps: seq<TransactionStep>, i: nat)
    requires i < |steps|
    ensures ForwardCalls(handlers, steps[..i + 1]) == ForwardCalls(handlers, steps[..i]) + CallOf(handlers, steps[i].action, steps[i].data)
  {
    assert steps[..i + 1][..i] == steps[..i];
  }

  /** The undo calls that `steps` declare, in insertion order. */
  function UndoCalls(handlers: map<string, Handler>, steps: seq<TransactionStep>): (calls: seq<Invocation>)
    ensures |calls| <= |steps|
  {
    if |steps| == 0 then [] else UndoOf(handlers, steps[0]) + UndoCalls(handlers, steps[1..])
  }

  /** Ids the compensation pass reports: the steps whose id is in `done`, last step first. */
  function CompensatedIds(steps: seq<TransactionStep>, done: set<string>): (ids: seq<string>)
    ensures |ids| <= |steps|
  {
    if |steps| == 0 then []
    else CompensatedIds(steps[1..], done) + (if steps[0].stepId in done then [steps[0].stepId] else [])
  }

  /** Undo calls the compensation pass makes: those of the steps whose id is in `done`, last step first. */
  function CompensationCalls(handlers: map<string, Handler>, steps: seq<TransactionStep>, done: set<string>): (calls: seq<Invocation>)
    ensures |calls| <= |steps|
  {
    if |steps| == 0 then []
    else CompensationCalls(handlers, steps[1..], done) + (if steps[0].stepId in done then UndoOf(handlers, steps[0]) else [])
  }

  /**
   * The deadline `createdAt + timeoutSeconds`, or `None` when it falls
   * outside the representable instants and computing it raises.
   */
  function Deadline(createdAt: Instant, timeoutSeconds: int): (d: Option<Instant>)
    ensures d.Some? <==> 0 <= createdAt + timeoutSeconds * MicrosPerSecond <= MaxInstant
    ensures d.Some? ==> d.value - createdAt == timeoutSeconds * MicrosPerSecond
  {
    var t := createdAt + timeoutSeconds * MicrosPerSecond;
    if 0 <= t <= MaxInstant then Some(t) else None
  }

  /**
   * Whether the clock reading `now` lies strictly past the deadline; `None`
   * when the deadline cannot be computed.
   */
  function TimedOut(createdAt: Instant, timeoutSeconds: int, now: Instant): (r: Option<bool>)
    ensures r.None? <==> Deadline(createdAt, timeoutSeconds).None?
    ensures r == Some(true) ==> now - createdAt > timeoutSeconds * MicrosPerSecond
    ensures r == Some(false) ==> now - createdAt <= timeoutSeconds * MicrosPerSecond
  {
    match Deadline(createdAt, timeoutSeconds)
    case None => None
    case Some(d) => Some(now > d)
  }

  /** The result a commit of a pending transaction returns. */
  function CommitResult(handlers: map<string, Handler>, txId: string, steps: seq<TransactionStep>, timedOut: bool): (r: TransactionResult)
    ensures r.transactionId == txId
    ensures r.state in {Committed, RolledBack, Failed}
    ensures r.state == Failed <==> timedOut
    ensures r.failedStep.Some? <==> r.state == RolledBack
    ensures r.error.None? <==> r.state == Committed
    ensures |r.completedSteps| <= |steps|
  {
    if timedOut then NewResult(txId, Failed).(error := Some(TimeoutMessage))
    else match RunForward(handlers, steps)
      case AllDone => NewResult(txId, Committed).(completedSteps := StepIds(steps))
      case FailedAt(k, msg) =>
        TransactionResult(txId, RolledBack, CompensatedIds(steps, Elements(StepIds(steps[..k]))),
                          Some(steps[k].stepId), Some(msg))
  }

  /** The handler calls a commit of a pending transaction makes, in order. */
  function CommitCalls(handlers: map<string, Handler>, steps: seq<TransactionStep>, timedOut: bool): (calls: seq<Invocation>)
    ensures timedOut ==> calls == []
    ensures |calls| <= 2 * |steps|
  {
    if timedOut then []
    else match RunForward(handlers, steps)
      case AllDone => ForwardCalls(handlers, steps)
      case FailedAt(k, _) =>
        ForwardCalls(handlers, steps[..k + 1]) + CompensationCalls(handlers, steps, Elements(StepIds(steps[..k])))
  }

  // ---------------------------------------------------------------------
  // Properties of the specification
  // ---------------------------------------------------------------------

  lemma {:induction false} CompensationSplits(handlers: map<string, Handler>, a: seq<TransactionStep>, b: seq<TransactionStep>, done: set<string>)
    ensures CompensatedIds(a + b, done) == CompensatedIds(b, done) + CompensatedIds(a, done)
    ensures CompensationCalls(handlers, a + b, done) == CompensationCalls(handlers, b, done) + CompensationCalls(handlers, a, done)
  {
    if |a| == 0 {
      assert a + b == b;
    } else {
      assert (a + b)[1..] == a[1..] + b;
      CompensationSplits(handlers, a[1..], b, done);
    }
  }

  /** Steps whose ids are all outside `done` are neither reported nor undone. */
  lemma {:induction false} CompensationSkipsOthers(handlers: map<string, Handler>, steps: seq<TransactionStep>, done: set<string>)
    requires forall i :: 0 <= i < |steps| ==> steps[i].stepId !in done
    ensures CompensatedIds(steps, done) == []
    ensures CompensationCalls(handlers, steps, done) == []
  {
    if |steps| > 0 {
      CompensationSkipsOthers(handlers, steps[1..], done);
    }
  }

  /** When every step counts as completed, compensation reports every id, last first. */
  lemma {:induction false} CompensateAllIds(steps: seq<TransactionStep>, done: set<string>)
    requires forall i :: 0 <= i < |steps| ==> steps[i].stepId in done
    ensures CompensatedIds(steps, done) == Reverse(StepIds(steps))
  {
    if |steps| > 0 {
      CompensateAllIds(steps[1..], done);
      assert StepIds(steps) == [steps[0].stepId] + StepIds(steps[1..]);
      ReverseAppend([steps[0].stepId], StepIds(steps[1..]));
    }
  }

  /** When every step counts as completed, compensation runs every declared, registered undo, last first. */
  lemma {:induction false} CompensateAllCalls(handlers: map<string, Handler>, steps: seq<TransactionStep>, done: set<string>)
    requires forall i :: 0 <= i < |steps| ==> steps[i].stepId in done
    ensures CompensationCalls(handlers, steps, done) == Reverse(UndoCalls(handlers, steps))
  {
    if |steps| > 0 {
      CompensateAllCalls(handlers, steps[1..], done);
      ReverseAppend(UndoOf(handlers, steps[0]), UndoCalls(handlers, steps[1..]));
    }
  }

  /**
   * When every step counts as completed, compensation reports every id last
   * first and runs every declared, registered undo last first. This is what
   * rollback relies on; it needs no assumption about distinct ids.
   */
  lemma CompensateAll(handlers: map<string, Handler>, steps: seq<TransactionStep>, done: set<string>)
    requires forall i :: 0 <= i < |steps| ==> steps[i].stepId in done
    ensures CompensatedIds(steps, done) == Reverse(StepIds(steps))
    ensures CompensationCalls(handlers, steps, done) == Reverse(UndoCalls(handlers, steps))
  {
    CompensateAllIds(steps, done);
    CompensateAllCalls(handlers, steps, done);
  }

  /** With pairwise distinct step ids, no step from `k` on shares an id with the first `k`. */
  lemma LaterIdsAreFresh(steps: seq<TransactionStep>, k: nat)
    requires k <= |steps|
    requires Distinct(StepIds(steps))
    ensures forall i :: 0 <= i < |steps[k..]| ==> steps[k..][i].stepId !in Elements(StepIds(steps[..k]))
  {
    forall i | 0 <= i < |steps[k..]|
      ensures steps[k..][i].stepId !in Elements(StepIds(steps[..k]))
    {
      assert forall j :: 0 <= j < k ==> StepIds(steps[..k])[j] == StepIds(steps)[j] != StepIds(steps)[k + i];
    }
  }

  /**
   * With pairwise distinct step ids, compensating the first `k` steps reports
   * exactly their ids in reverse order and runs exactly their undos in
   * reverse order; no later step is touched.
   */
  lemma CompensatePrefix(handlers: map<string, Handler>, steps: seq<TransactionStep>, k: nat)
    requires k <= |steps|
    requires Distinct(StepIds(steps))
    ensures CompensatedIds(steps, Elements(StepIds(steps[..k]))) == Reverse(StepIds(steps[..k]))
    ensures CompensationCalls(handlers, steps, Elements(StepIds(steps[..k]))) == Reverse(UndoCalls(handlers, steps[..k]))
  {
    var done := Elements(StepIds(steps[..k]));
    assert steps == steps[..k] + steps[k..];
    CompensationSplits(handlers, steps[..k], steps[k..], done);
    CompensateAll(handlers, steps[..k], done);
    LaterIdsAreFresh(steps, k);
    CompensationSkipsOthers(handlers, steps[k..], done);
  }

  /** With every action registered, the forward calls are all the steps' actions, in insertion order. */
  lemma {:induction false} ForwardCallsInOrder(handlers: map<string, Handler>, steps: seq<TransactionStep>)
    requires forall i :: 0 <= i < |steps| ==> steps[i].action in handlers
    ensures ForwardCalls(handlers, steps) == seq(|steps|, i requires 0 <= i < |steps| => Invocation(steps[i].action, steps[i].data))
  {
    if |steps| > 0 {
      ForwardCallsInOrder(handlers, steps[..|steps| - 1]);
    }
  }

  /** With no handlers at all (a dry run), nothing is ever invoked. */
  lemma {:induction false} DryRunInvokesNothing(steps: seq<TransactionStep>)
    ensures ForwardCalls(map[], steps) == []
    ensures UndoCalls(map[], steps) == []
  {
    if |steps| > 0 {
      DryRunInvokesNothing(steps[..|steps| - 1]);
      DryRunInvokesNothing(steps[1..]);
    }
  }

  /** Every forward call goes to a registered handler. */
  lemma {:induction false} ForwardCallsRegistered(handlers: map<string, Handler>, steps: seq<TransactionStep>)
    ensures forall k :: 0 <= k < |ForwardCalls(handlers, steps)| ==> ForwardCalls(handlers, steps)[k].action in handlers
  {
    if |steps| > 0 {
      ForwardCallsRegistered(handlers, steps[..|steps| - 1]);
    }
  }

  /** Every undo call of a compensation pass goes to a registered handler. */
  lemma {:induction false} CompensationCallsRegistered(handlers: map<string, Handler>, steps: seq<TransactionStep>, done: set<string>)
    ensures forall k :: 0 <= k < |CompensationCalls(handlers, steps, done)| ==>
      CompensationCalls(handlers, steps, done)[k].action in handlers
  {
    if |steps| > 0 {
      CompensationCallsRegistered(handlers, steps[1..], done);
    }
  }

  /** A compensation pass reports only ids from the completed set. */
  lemma {:induction false} CompensatedIdsAreDone(steps: seq<TransactionStep>, done: set<string>)
    ensures forall k :: 0 <= k < |CompensatedIds(steps, done)| ==> CompensatedIds(steps, done)[k] in done
  {
    if |steps| > 0 {
      CompensatedIdsAreDone(steps[1..], done);
    }
  }

  /** A commit only ever calls registered handlers. */
  lemma CommitCallsRegistered(handlers: map<string, Handler>, steps: seq<TransactionStep>, timedOut: bool)
    ensures forall k :: 0 <= k < |CommitCalls(handlers, steps, timedOut)| ==>
      CommitCalls(handlers, steps, timedOut)[k].action in handlers
  {
    if !timedOut {
      match RunForward(handlers, steps)
      case AllDone =>
        ForwardCallsRegistered(handlers, steps);
      case FailedAt(k, _) =>
        ForwardCallsRegistered(handlers, steps[..k + 1]);
        CompensationCallsRegistered(handlers, steps, Elements(StepIds(steps[..k])));
    }
  }

  /** A commit caught by the timeout fails, reports nothing completed and calls no handler. */
  lemma CommitTimesOut(handlers: map<string, Handler>, txId: string, steps: seq<TransactionStep>)
    ensures CommitResult(handlers, txId, steps, true)
         == TransactionResult(txId, Failed, [], None, Some(TimeoutMessage))
    ensures CommitCalls(handlers, steps, true) == []
  {
  }

  /** The deadline itself is not past the deadline; one microsecond later is. */
  lemma TimeoutBoundary(createdAt: Instant, timeoutSeconds: int)
    requires 0 <= createdAt + timeoutSeconds * MicrosPerSecond < MaxInstant
    ensures TimedOut(createdAt, timeoutSeconds, createdAt + timeoutSeconds * MicrosPerSecond) == Some(false)
    ensures TimedOut(createdAt, timeoutSeconds, createdAt + timeoutSeconds * MicrosPerSecond + 1) == Some(true)
  {
  }

  /**
   * A timeout of 10^12 seconds lies past the last representable instant,
   * and one of -4 * 10^11 seconds before the first, whenever the
   * transaction was created: computing either deadline raises.
   */
  lemma HugeTimeoutOverflows(createdAt: Instant, now: Instant)
    ensures TimedOut(createdAt, 1000000000000, now).None?
    ensures TimedOut(createdAt, -400000000000, now).None?
  {
  }

  /** The default timeout can be computed for any transaction created at least a minute before the last instant. */
  lemma DefaultTimeoutFits(createdAt: Instant, now: Instant)
    requires createdAt <= MaxInstant - DefaultTimeoutSeconds * MicrosPerSecond
    ensures TimedOut(createdAt, DefaultTimeoutSeconds, now).Some?
  {
  }

  /** When no forward handler raises, the commit ends committed and reports every id in order. */
  lemma CommitSucceeds(handlers: map<string, Handler>, txId: string, steps: seq<TransactionStep>)
    requires forall i :: 0 <= i < |steps| ==> Forward(handlers, steps[i]).Ok?
    ensures CommitResult(handlers, txId, steps, false)
         == TransactionResult(txId, Committed, StepIds(steps), None, None)
    ensures CommitCalls(handlers, steps, false) == ForwardCalls(handlers, steps)
  {
  }

  /**
   * When step `k` is the first whose forward handler raises, the commit ends
   * rolled back naming step `k`, and compensates the ids of steps 0..k-1.
   */
  lemma CommitStopsAt(handlers: map<string, Handler>, txId: string, steps: seq<TransactionStep>, k: nat, msg: string)
    requires k < |steps|
    requires forall i :: 0 <= i < k ==> Forward(handlers, steps[i]).Ok?
    requires Forward(handlers, steps[k]) == Err(msg)
    ensures CommitResult(handlers, txId, steps, false)
         == TransactionResult(txId, RolledBack, CompensatedIds(steps, Elements(StepIds(steps[..k]))),
                              Some(steps[k].stepId), Some(msg))
    ensures CommitCalls(handlers, steps, false)
         == ForwardCalls(handlers, steps[..k + 1]) + CompensationCalls(handlers, steps, Elements(StepIds(steps[..k])))
  {
    RunForwardStopsAt(handlers, steps, k, msg);
  }

  /**
   * When step `k` is the first whose forward handler raises: the commit ends
   * rolled back, names step `k` as failed with its message, reports the ids
   * of steps 0..k-1 last first, and the calls made are the forward calls of
   * steps 0..k followed by the undos of steps 0..k-1 last first.
   */
  lemma CommitFailsAt(handlers: map<string, Handler>, txId: string, steps: seq<TransactionStep>, k: nat, msg: string)
    requires k < |steps|
    requires forall i :: 0 <= i < k ==> Forward(handlers, steps[i]).Ok?
    requires Forward(handlers, steps[k]) == Err(msg)
    requires Distinct(StepIds(steps))
    ensures CommitResult(handlers, txId, steps, false)
         == TransactionResult(txId, RolledBack, Reverse(StepIds(steps[..k])), Some(steps[k].stepId), Some(msg))
    ensures CommitCalls(handlers, steps, false)
         == ForwardCalls(handlers, steps[..k + 1]) + Reverse(UndoCalls(handlers, steps[..k]))
  {
    CommitStopsAt(handlers, txId, steps, k, msg);
    CompensatePrefix(handlers, steps, k);
  }

  /** A handler table in which the third forward action fails and everything else succeeds. */
  const ScenarioHandlers: map<string, Handler> :=
    map["step_a" := (d: Payload) => Ok, "step_b" := (d: Payload) => Ok,
        "step_c" := (d: Payload) => Err("fail at step_c"),
        "undo_a" := (d: Payload) => Ok, "undo_b" := (d: Payload) => Ok]

  /** Three steps: the first two have undo actions, the third has none. */
  const ScenarioSteps: seq<TransactionStep> :=
    [TransactionStep("s1", "agent", "step_a", map[], Some("undo_a")),
     TransactionStep("s2", "agent", "step_b", map[], Some("undo_b")),
     TransactionStep("s3", "agent", "step_c", map[], None)]

  /** The scenario's steps fail first at the third one, and their ids are distinct. */
  lemma ScenarioFailsAtThird()
    ensures Distinct(StepIds(ScenarioSteps))
    ensures RunForward(ScenarioHandlers, ScenarioSteps) == FailedAt(2, "fail at step_c")
  {
    var h, steps := ScenarioHandlers, ScenarioSteps;
    assert StepIds(steps) == ["s1", "s2", "s3"];
    assert Forward(h, steps[0]) == Ok && Forward(h, steps[1]) == Ok;
    assert Forward(h, steps[2]) == Err("fail at step_c");
    RunForwardStopsAt(h, steps, 2, "fail at step_c");
  }

  /**
   * When the third of three steps fails, the result names the first two
   * steps, last first, as compensated, and the third as the failed one.
   */
  lemma ThirdStepFailsResult()
    ensures CommitResult(ScenarioHandlers, "t1", ScenarioSteps, false)
      == TransactionResult("t1", RolledBack, ["s2", "s1"], Some("s3"), Some("fail at step_c"))
  {
    var h, steps := ScenarioHandlers, ScenarioSteps;
    ScenarioFailsAtThird();
    CompensatePrefix(h, steps, 2);
    assert StepIds(steps[..2]) == ["s1", "s2"];
  }

  /** The scenario's forward actions run in insertion order. */
  lemma ScenarioForwardCalls()
    ensures ForwardCalls(ScenarioHandlers, ScenarioSteps[..3])
      == [Invocation("step_a", map[]), Invocation("step_b", map[]), Invocation("step_c", map[])]
  {
    var h, steps := ScenarioHandlers, ScenarioSteps;
    ForwardCallsSnoc(h, steps, 0);
    ForwardCallsSnoc(h, steps, 1);
    ForwardCallsSnoc(h, steps, 2);
    assert steps[..0] == [];
  }

  /** The undo actions the scenario's first two steps declare, in insertion order. */
  lemma ScenarioUndoCalls()
    ensures UndoCalls(ScenarioHandlers, ScenarioSteps[..2])
      == [Invocation("undo_a", map[]), Invocation("undo_b", map[])]
  {
    var h, steps := ScenarioHandlers, ScenarioSteps;
    assert "undo_a" in h && "undo_b" in h;
    assert steps[..2][1..] == [steps[1]];
    assert UndoCalls(h, [steps[1]]) == UndoOf(h, steps[1]) by {
      assert [steps[1]][1..] == [];
    }
  }

  /**
   * When the third of three steps fails, the handlers run are the three
   * forward actions, then the second step's undo, then the first's.
   */
  lemma ThirdStepFailsCalls()
    ensures CommitCalls(ScenarioHandlers, ScenarioSteps, false)
      == [Invocation("step_a", map[]), Invocation("step_b", map[]), Invocation("step_c", map[]),
          Invocation("undo_b", map[]), Invocation("undo_a", map[])]
  {
    ScenarioFailsAtThird();
    CommitFailsAt(ScenarioHandlers, "t1", ScenarioSteps, 2, "fail at step_c");
    ScenarioForwardCalls();
    ScenarioUndoCalls();
  }

  // ---------------------------------------------------------------------
  // The manager
  // ---------------------------------------------------------------------

  class TransactionManager {
    const handlers: map<string, Handler>
    var transactions: map<string, Transaction>
    /** Every handler call made so far, in order. */
    ghost var trace: seq<Invocation>

    /** The registry is keyed by each transaction's own id. */
    ghost predicate Valid()
      reads this`transactions
    {
      forall id :: id in transactions ==> transactions[id].transactionId == id
    }

    /** A manager with the given handler table, or an empty one when none is given. */
    constructor (actionHandlers: Option<map<string, Handler>> := None)
      ensures Valid()
      ensures handlers == if actionHandlers.Some? then actionHandlers.value else map[]
      ensures transactions == map[] && trace == []
    {
      handlers := if actionHandlers.Some? then actionHandlers.value else map[];
      transactions := map[];
      trace := [];
    }

    /** Creates a pending transaction under the fresh id `transactionId`, created at `now`. */
    method Begin(transactionId: string, now: Instant, timeoutSeconds: int := DefaultTimeoutSeconds) returns (tx: Transaction)
      requires Valid()
      requires transactionId !in transactions
      modifies this`transactions
      ensures Valid() && fresh(tx)
      ensures tx.transactionId == transactionId && tx.state == Pending && tx.steps == []
      ensures tx.createdAt == now && tx.timeoutSeconds == timeoutSeconds
      ensures transactions == old(transactions)[transactionId := tx]
    {
      tx := new Transaction(transactionId, [], Pending, now, timeoutSeconds);
      transactions := transactions[transactionId := tx];
    }

    /** Appends a step with the fresh id `stepId`; refused unless `tx` is pending. */
    method AddStep(tx: Transaction, stepId: string, agentId: string, action: string,
                   data: Payload, compensatingAction: Option<string> := None)
      returns (r: Result<TransactionStep>)
      requires Valid()
      modifies this`transactions, tx`steps
      ensures Valid()
      ensures tx.state == old(tx.state)
      ensures old(tx.state) != Pending ==>
        r == Failure(InvalidState(tx.transactionId, tx.state))
        && tx.steps == old(tx.steps) && transactions == old(transactions)
      ensures old(tx.state) == Pending ==>
        r == Success(TransactionStep(stepId, agentId, action, data, compensatingAction))
        && tx.steps == old(tx.steps) + [r.value]
        && transactions == old(transactions)[tx.transactionId := tx]
    {
      if tx.state != Pending {
        return Failure(InvalidState(tx.transactionId, tx.state));
      }
      var step := TransactionStep(stepId, agentId, action, data, compensatingAction);
      tx.steps := tx.steps + [step];
      transactions := transactions[tx.transactionId := tx];
      r := Success(step);
    }

    /**
     * Runs the forward actions in order; on the first that raises, compensates
     * the completed steps last first and ends rolled back. The timeout is
     * checked once, on entry, against the clock reading `now`; when the
     * deadline itself cannot be computed the commit raises and leaves the
     * transaction active.
     */
    method Commit(tx: Transaction, now: Instant) returns (r: Result<TransactionResult>)
      requires Valid()
      modifies this`transactions, this`trace, tx`state
      ensures Valid()
      ensures old(tx.state) != Pending ==>
        r == Failure(InvalidState(tx.transactionId, tx.state)) && tx.state == old(tx.state)
        && transactions == old(transactions) && trace == old(trace)
      ensures old(tx.state) == Pending ==> transactions == old(transactions)[tx.transactionId := tx]
      ensures old(tx.state) == Pending && TimedOut(tx.createdAt, tx.timeoutSeconds, now).None? ==>
        r == Failure(DeadlineOverflow(tx.transactionId)) && tx.state == Active && trace == old(trace)
      ensures old(tx.state) == Pending && TimedOut(tx.createdAt, tx.timeoutSeconds, now).Some? ==>
        r == Success(CommitResult(handlers, tx.transactionId, tx.steps, TimedOut(tx.createdAt, tx.timeoutSeconds, now).value))
      ensures old(tx.state) == Pending && r.Success? ==> tx.state == r.value.state
      ensures old(tx.state) == Pending && TimedOut(tx.createdAt, tx.timeoutSeconds, now).Some? ==>
        trace == old(trace) + CommitCalls(handlers, tx.steps, TimedOut(tx.createdAt, tx.timeoutSeconds, now).value)
    {
      if tx.state != Pending {
        return Failure(InvalidState(tx.transactionId, tx.state));
      }
      SetState(tx, Active);
      var timedOut := TimedOut(tx.createdAt, tx.timeoutSeconds, now);
      if timedOut.None? {
        return Failure(DeadlineOverflow(tx.transactionId));
      }
      if timedOut.value {
        SetState(tx, Failed);
        CommitTimesOut(handlers, tx.transactionId, tx.steps);
        return Success(NewResult(tx.transactionId, Failed).(error := Some(TimeoutMessage)));
      }
      var result := RunSteps(tx);
      r := Success(result);
    }

    /**
     * The body of a commit once the transaction is active and in time: runs
     * the forward actions in order; on the first that raises, compensates the
     * steps completed so far, last first, and ends rolled back; otherwise ends
     * committed.
     */
    method RunSteps(tx: Transaction) returns (r: TransactionResult)
      requires Valid() && tx.state == Active
      requires tx.transactionId in transactions && transactions[tx.transactionId] == tx
      modifies this`transactions, this`trace, tx`state
      ensures Valid()
      ensures r == CommitResult(handlers, tx.transactionId, tx.steps, false)
      ensures tx.state == r.state
      ensures transactions == old(transactions)
      ensures trace == old(trace) + CommitCalls(handlers, tx.steps, false)
    {
      var steps := tx.steps;
      var completed: seq<string> := [];
      var failure: Option<string> := None;
      var i := 0;
      while i < |steps|
        invariant 0 <= i <= |steps|
        invariant completed == StepIds(steps[..i])
        invariant forall j :: 0 <= j < i ==> Forward(handlers, steps[j]).Ok?
        invariant trace == old(trace) + ForwardCalls(handlers, steps[..i])
        invariant failure == None
        modifies this`trace
      {
        var outcome := ExecuteStep(steps[i]);
        ForwardCallsSnoc(handlers, steps, i);
        AppendAssoc(old(trace), ForwardCalls(handlers, steps[..i]), CallOf(handlers, steps[i].action, steps[i].data));
        if outcome.Err? {
          failure := Some(outcome.message);
          break;
        }
        StepIdsSnoc(steps, i);
        completed := completed + [steps[i].stepId];
        i := i + 1;
      }
      if failure.Some? {
        // Step i raised: undo what completed before it.
        r := AbortAt(tx, completed, i, failure.value);
        AppendAssoc(old(trace), ForwardCalls(handlers, steps[..i + 1]),
                    CompensationCalls(handlers, steps, Elements(completed)));
        CommitStopsAt(handlers, tx.transactionId, steps, i, failure.value);
      } else {
        assert steps[..i] == steps;
        CommitSucceeds(handlers, tx.transactionId, steps);
        SetState(tx, Committed);
        r := NewResult(tx.transactionId, Committed).(completedSteps := completed);
      }
    }

    /**
     * What a commit does when the forward action of step `i` raised `message`:
     * compensates the completed steps and ends rolled back, naming step `i`.
     */
    method AbortAt(tx: Transaction, completed: seq<string>, i: nat, message: string) returns (r: TransactionResult)
      requires Valid() && i < |tx.steps|
      requires tx.transactionId in transactions && transactions[tx.transactionId] == tx
      modifies this`transactions, this`trace, tx`state
      ensures Valid() && transactions == old(transactions)
      ensures r == TransactionResult(tx.transactionId, RolledBack, CompensatedIds(tx.steps, Elements(completed)),
                                     Some(tx.steps[i].stepId), Some(message))
      ensures tx.state == r.state
      ensures trace == old(trace) + CompensationCalls(handlers, tx.steps, Elements(completed))
    {
      var compensated := ExecuteRollback(tx, completed);
      SetState(tx, RolledBack);
      r := TransactionResult(tx.transactionId, RolledBack, compensated, Some(tx.steps[i].stepId), Some(message));
    }

    /** Compensates every step, whatever the state, and ends rolled back. */
    method Rollback(tx: Transaction) returns (r: TransactionResult)
      requires Valid()
      modifies this`transactions, this`trace, tx`state
      ensures Valid()
      ensures r == TransactionResult(tx.transactionId, RolledBack, Reverse(StepIds(tx.steps)), None, None)
      ensures tx.state == RolledBack
      ensures transactions == old(transactions)[tx.transactionId := tx]
      ensures trace == old(trace) + Reverse(UndoCalls(handlers, tx.steps))
    {
      var allStepIds := StepIds(tx.steps);
      var compensated := ExecuteRollback(tx, allStepIds);
      CompensateAll(handlers, tx.steps, Elements(allStepIds));
      SetState(tx, RolledBack);
      r := NewResult(tx.transactionId, RolledBack).(completedSteps := compensated);
    }

    /** The registered transaction with id `transactionId`, if any. */
    function GetTransaction(transactionId: string): (r: Option<Transaction>)
      reads this
      requires Valid()
      ensures r.Some? <==> transactionId in transactions
      ensures r.Some? ==> r.value.transactionId == transactionId
      ensures r.Some? ==> r.value == transactions[transactionId]
    {
      if transactionId in transactions then Some(transactions[transactionId]) else None
    }

    /** Every registered transaction, each once, in no particular order. */
    method GetAllTransactions() returns (txs: seq<Transaction>)
      requires Valid()
      ensures |txs| == |transactions|
      ensures forall tx :: tx in txs <==> tx in transactions.Values
    {
      txs := [];
      var keys := transactions.Keys;
      while keys != {}
        invariant keys <= transactions.Keys
        invariant |txs| + |keys| == |transactions|
        invariant forall i :: 0 <= i < |txs| ==>
          txs[i].transactionId in transactions.Keys - keys && transactions[txs[i].transactionId] == txs[i]
        invariant forall id :: id in transactions.Keys - keys ==> transactions[id] in txs
        decreases keys
      {
        var id :| id in keys;
        txs := txs + [transactions[id]];
        keys := keys - {id};
      }
      assert transactions.Keys - keys == transactions.Keys;
    }

    /** Inserts, or replaces, `tx` under its own id. */
    method RegisterTransaction(tx: Transaction)
      requires Valid()
      modifies this`transactions
      ensures Valid()
      ensures transactions == old(transactions)[tx.transactionId := tx]
    {
      transactions := transactions[tx.transactionId := tx];
    }

    /** Runs the forward handler of `step`, if one is registered. */
    method ExecuteStep(step: TransactionStep) returns (outcome: Outcome)
      modifies this`trace
      ensures outcome == Forward(handlers, step)
      ensures trace == old(trace) + CallOf(handlers, step.action, step.data)
    {
      outcome := Ok;
      if step.action in handlers {
        outcome := handlers[step.action](step.data);
        trace := trace + [Invocation(step.action, step.data)];
      }
    }

    /**
     * Visits the steps last first, skipping those not in `completed`; for each
     * one visited runs its undo handler when it declares one and one is
     * registered, discarding any error, and reports its id either way.
     */
    method ExecuteRollback(tx: Transaction, completed: seq<string>) returns (compensated: seq<string>)
      modifies this`trace
      ensures compensated == CompensatedIds(tx.steps, Elements(completed))
      ensures trace == old(trace) + CompensationCalls(handlers, tx.steps, Elements(completed))
    {
      var done := Elements(completed);
      compensated := [];
      var i := |tx.steps|;
      while i > 0
        invariant 0 <= i <= |tx.steps|
        invariant compensated == CompensatedIds(tx.steps[i..], done)
        invariant trace == old(trace) + CompensationCalls(handlers, tx.steps[i..], done)
      {
        i := i - 1;
        var step := tx.steps[i];
        assert tx.steps[i..][1..] == tx.steps[i + 1..];
        if step.stepId !in done {
          continue;
        }
        if step.compensatingAction.Some? {
          var undo := step.compensatingAction.value;
          if undo in handlers {
            // Best effort: the outcome of an undo is discarded.
            var _ := handlers[undo](step.data);
            trace := trace + [Invocation(undo, step.data)];
          }
        }
        compensated := compensated + [step.stepId];
      }
    }

    /** Sets the state in place and keeps the registry pointing at the same object. */
    method SetState(tx: Transaction, state: TransactionState)
      requires Valid()
      modifies this`transactions, tx`state
      ensures Valid()
      ensures tx.state == state
      ensures transactions == old(transactions)[tx.transactionId := tx]
      ensures tx.transactionId in old(transactions) && old(transactions)[tx.transactionId] == tx ==>
                transactions == old(transactions)
    {
      tx.state := state;
      transactions := transactions[tx.transactionId := tx];
    }
  }

  // ---------------------------------------------------------------------
  // The orchestrator
  // ---------------------------------------------------------------------

  /** A registered participant step, before it becomes part of a transaction. */
  datatype StepSpec = StepSpec(agentId: string, action: string, data: Payload, compensatingAction: Option<string>)

  /** The steps `add_step` builds from `specs` when handed the fresh ids `stepIds`. */
  function BuildSteps(stepIds: seq<string>, specs: seq<StepSpec>): (steps: seq<TransactionStep>)
    requires |stepIds| == |specs|
    ensures |steps| == |specs|
    ensures forall i :: 0 <= i < |specs| ==>
      steps[i] == TransactionStep(stepIds[i], specs[i].agentId, specs[i].action, specs[i].data, specs[i].compensatingAction)
  {
    seq(|specs|, i requires 0 <= i < |specs| =>
      TransactionStep(stepIds[i], specs[i].agentId, specs[i].action, specs[i].data, specs[i].compensatingAction))
  }

  class SagaOrchestrator {
    const manager: TransactionManager
    var specs: seq<StepSpec>

    /** Wraps `manager`, or a new manager without handlers when none is given. */
    constructor (manager: TransactionManager? := null)
      ensures manager != null ==> this.manager == manager
      ensures manager == null ==>
                fresh(this.manager) && this.manager.Valid()
                && this.manager.handlers == map[] && this.manager.transactions == map[]
      ensures specs == []
    {
      var m: TransactionManager;
      if manager == null {
        m := new TransactionManager(None);
      } else {
        m := manager;
      }
      this.manager := m;
      specs := [];
    }

    /** Records a participant step; nothing reaches the manager yet. */
    method Register(agentId: string, action: string, data: Payload, compensatingAction: Option<string> := None)
      modifies this`specs
      ensures specs == old(specs) + [StepSpec(agentId, action, data, compensatingAction)]
    {
      specs := specs + [StepSpec(agentId, action, data, compensatingAction)];
    }

    /**
     * Begins a transaction under the fresh id `transactionId` at clock reading
     * `createdAt`, adds every registered step in order (with the fresh ids
     * `stepIds`) and commits it at clock reading `now`.
     */
    method Execute(transactionId: string, stepIds: seq<string>, createdAt: Instant, now: Instant,
                   timeoutSeconds: int := DefaultTimeoutSeconds)
      returns (r: Result<TransactionResult>)
      requires manager.Valid()
      requires transactionId !in manager.transactions
      requires |stepIds| == |specs|
      modifies manager`transactions, manager`trace
      ensures manager.Valid()
      ensures transactionId in manager.transactions && fresh(manager.transactions[transactionId])
      ensures manager.transactions == old(manager.transactions)[transactionId := manager.transactions[transactionId]]
      ensures |manager.transactions| == |old(manager.transactions)| + 1
      ensures manager.transactions[transactionId].steps == BuildSteps(stepIds, specs)
      ensures TimedOut(createdAt, timeoutSeconds, now).None? ==>
        r == Failure(DeadlineOverflow(transactionId))
        && manager.transactions[transactionId].state == Active
        && manager.trace == old(manager.trace)
      ensures TimedOut(createdAt, timeoutSeconds, now).Some? ==>
        r == Success(CommitResult(manager.handlers, transactionId, BuildSteps(stepIds, specs),
                                  TimedOut(createdAt, timeoutSeconds, now).value))
      ensures r.Success? ==> manager.transactions[transactionId].state == r.value.state
      ensures TimedOut(createdAt, timeoutSeconds, now).Some? ==>
        manager.trace == old(manager.trace)
                       + CommitCalls(manager.handlers, BuildSteps(stepIds, specs), TimedOut(createdAt, timeoutSeconds, now).value)
    {
      var tx := manager.Begin(transactionId, createdAt, timeoutSeconds);
      var i := 0;
      while i < |specs|
        invariant 0 <= i <= |specs|
        invariant manager.Valid() && fresh(tx)
        invariant tx.transactionId == transactionId && tx.state == Pending
        invariant tx.createdAt == createdAt && tx.timeoutSeconds == timeoutSeconds
        invariant tx.steps == BuildSteps(stepIds[..i], specs[..i])
        invariant manager.transactions == old(manager.transactions)[transactionId := tx]
        invariant manager.trace == old(manager.trace)
      {
        var spec := specs[i];
        var added := manager.AddStep(tx, stepIds[i], spec.agentId, spec.action, spec.data, spec.compensatingAction);
        assert BuildSteps(stepIds[..i + 1], specs[..i + 1]) == BuildSteps(stepIds[..i], specs[..i]) + [added.value];
        i := i + 1;
      }
      assert stepIds[..i] == stepIds && specs[..i] == specs;
      r := manager.Commit(tx, now);
    }
  }

  /**
   * Committing twice: whatever the first commit does, it leaves the
   * transaction out of `pending`, so a second commit and a further step are
   * both refused with the state it left.
   */
  method CommitTwice(m: TransactionManager, tx: Transaction, now: Instant)
    returns (first: Result<TransactionResult>, second: Result<TransactionResult>, late: Result<TransactionStep>)
    requires m.Valid() && tx.state == Pending
    modifies m`transactions, m`trace, tx`state, tx`steps
    ensures tx.state != Pending
    ensures first.Failure? ==> first == Failure(DeadlineOverflow(tx.transactionId)) && tx.state == Active
    ensures second == Failure(InvalidState(tx.transactionId, tx.state))
    ensures late == Failure(InvalidState(tx.transactionId, tx.state))
  {
    first := m.Commit(tx, now);
    second := m.Commit(tx, now);
    late := m.AddStep(tx, "", "", "", map[]);
  }

  /**
   * After a commit the registry hands back the very object committed, so a
   * lookup by id sees the state the commit left.
   */
  method CommitThenLookup(m: TransactionManager, tx: Transaction, now: Instant)
    returns (r: Result<TransactionResult>, found: Option<Transaction>)
    requires m.Valid() && tx.state == Pending
    modifies m`transactions, m`trace, tx`state
    ensures found == Some(tx)
    ensures r.Success? ==> found.value.state == r.value.state
    ensures r.Failure? ==> found.value.state == Active
  {
    r := m.Commit(tx, now);
    found := m.GetTransaction(tx.transactionId);
  }
}

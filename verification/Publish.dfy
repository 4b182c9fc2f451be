/**
  The publish protocol (src/agentWork/publishOnce.ts) as a state machine. Every SQL statement is one
  step and every fence check is a step of its own, so an environment step may come between a check and
  the write it guards. A call may vanish at any step.
 */
module Publish {
  import opened Wrappers
  import opened Leases
  import opened Intents

  /**
    The items and keys are fixed; the decoder is an arbitrary total function (None: it throws). The
    mutate() and recover() of a void operation yield undefined, as those of a verdict close do.
   */
  datatype Config = Config(
    items: Items,
    delegatedOps: set<string>,
    voidOps: set<string>,
    decode: Option<Json> -> Option<Option<Json>>)

  /** An execution is a granted (work item, epoch); inside it, calls for one key are sequential. */
  datatype CallId = CallId(workItem: WorkItemId, epoch: nat, operation: string)

  datatype Outcome =
    | Unanswered          // mutate() was called and nothing is known yet, perhaps for ever
    | Accepted
    | Rejected            // the error proves that the remote did not accept
    | Doubtful            // an error that proves nothing

  /** One call of mutate(). */
  datatype Send = Send(key: IntentKey, epoch: nat, outcome: Outcome)

  datatype Mode = OnReconciled | OnInFlight | OnDoubt

  /** Where a call stands. `armed` and `sole` are bookkeeping: the code never looks at them. */
  datatype Pc =
    | Fence(checks: nat, next: Pc)                      // so many lease checks still to pass, then next
    | Parent                                            // :513
    | ParentReset                                       // :524
    | Persist                                           // :572
    | Query                                             // :605
    | Arm(sole: bool)                                   // :613
    | Mark(armed: bool, sole: bool)                     // :635
    | Enter                                             // :548, delegated calls only
    | Mutate                                            // :654
    | Sending(index: nat)
    | PersistAgain                                      // :704
    | Recover(target: IntentKey, mode: Mode)            // :366 and :279
    | Stash(patch: Detail, value: Option<Json>)         // :662
    | Settle(target: IntentKey, status: Status, patch: Detail, next: Pc)   // every reconcileOperationIntent
    | ReleaseUnsent                                     // :686
    | Threw
    | Sent(value: Option<Json>)                         // returned what mutate() returned
    | Done(value: Option<Json>)                         // returned without calling mutate()

  datatype Call = Call(recovers: bool, voidOk: bool, pc: Pc)

  datatype State = State(
    now: int,
    leases: Table,
    executions: set<Holder>,
    rows: Rows,
    clock: nat,
    calls: map<CallId, Call>,
    log: seq<Send>)

  function Init(): State { State(0, map[], {}, map[], 0, map[], []) }

  datatype Evidence =
    | RecoverThrows(record: bool)
    | Absent(record: bool)
    | Found(value: Option<Json>)

  datatype Answer = Ok(value: Option<Json>) | NoAcceptance | Unclear(persistFirst: bool)

  /** What the environment decides for a call's next step. */
  datatype Choice =
    | Go(extra: Detail)
    | Fetched(target: Option<IntentKey>)
    | Observed(evidence: Evidence, extra: Detail)
    | Answered(answer: Answer, extra: Detail)
    | GiveUp(knownNoAcceptance: bool, persistFirst: bool, extra: Detail)   // an error before anything was sent

  datatype Step =
    | Tick(delta: nat)
    | Grant(w: WorkItemId, ttl: nat)
    | Renew(w: WorkItemId, epoch: nat, ttl: nat)
    | ReleaseLease(key: LeaseKey, epoch: nat)
    | Supersede(key: LeaseKey, holders: set<Holder>)
    | SettleByOther(target: IntentKey, status: Status, patch: Detail)  // failClosed, reconcilePendingIntents
    | SettleSaved(target: IntentKey)                                   // publishRecordRepository.ts:394
    | SettleVoid(target: IntentKey, closer: Option<nat>)               // reviewVerdict.ts:461
    | Begin(c: CallId, recovers: bool, voidOk: bool)
    | Advance(c: CallId, choice: Choice)
    | Vanish(c: CallId)

  // ----- Helpers -----

  function KeyOf(c: CallId): IntentKey { IntentKey(c.workItem, c.operation) }

  predicate Open(s: State, c: CallId) { Held(s.leases, c.workItem, c.epoch, s.now) }

  /** Checks from assertMutationReady, assertPrActorLeaseHeld and fencedWrite in front of a step. */
  function Checked(checks: nat, pc: Pc): Pc
    requires checks > 0
  {
    if pc.Fence? then Fence(checks + pc.checks, pc.next) else Fence(checks, pc)
  }

  function Core(pc: Pc): Pc { if pc.Fence? then pc.next else pc }

  predicate Finished(pc: Pc) { pc.Threw? || pc.Sent? || pc.Done? }

  /** undefined is stored as JSON null, and a stored null is read back as undefined. */
  function Stored(value: Option<Json>): Json { value.GetOr(JNull) }

  function Unstored(value: Json): Option<Json> { if value == JNull then None else Some(value) }

  function SettleWithResult(target: IntentKey, extra: Detail, result: Json, value: Option<Json>): Pc {
    Checked(2, Settle(target, Reconciled, extra[Result := result], Done(value)))
  }

  /** The local decision on the row that persist returned, publishOnce.ts:584-603. */
  function Decide(cfg: Config, key: IntentKey, seen: Intent): Pc {
    if Result in seen.detail then
      var decoded := cfg.decode(Unstored(seen.detail[Result]));
      if decoded == None then Threw
      else if seen.status == Reconciled then Done(decoded.value)
      else SettleWithResult(key, map[], seen.detail[Result], decoded.value)
    else if seen.status == OutcomeUnknown && Terminal(seen.detail) then Threw
    else if seen.status == Reconciled then Recover(key, OnReconciled)
    else if seen.status == OutcomeUnknown then Recover(key, OnInFlight)
    else Query
  }

  function Entry(): Pc { Checked(2, Persist) }

  /** The delegated prologue, publishOnce.ts:513-543. */
  function DecideParent(key: IntentKey, seen: Intent): Pc {
    if seen.status == Failed then Checked(1, ParentReset)
    else if InFlight(seen) && IsFalse(seen.detail, DelegationEntered) then
      Checked(1, Settle(key, Failed, map[Mutating := JBool(false)], Entry()))
    else Entry()
  }

  function VoidSuccess(cfg: Config, target: IntentKey, extra: Detail): Pc {
    match cfg.decode(None)
    case None => Threw
    case Some(value) => SettleWithResult(target, extra, JNull, value)
  }

  function GiveUpOnUnknown(target: IntentKey, extra: Detail, terminal: bool): Pc {
    var patch := extra[Mutating := JBool(false)];
    Checked(2, Settle(target, OutcomeUnknown, if terminal then patch[UnknownResolution := TERMINAL] else patch, Threw))
  }

  /** publishOnce.ts:279-438, after the recovery oracle answered. */
  function AfterEvidence(cfg: Config, call: Call, target: IntentKey, mode: Mode, e: Evidence, extra: Detail): Pc {
    match e
    case Found(value) =>
      (match cfg.decode(value)
       case None => Threw
       case Some(decoded) => SettleWithResult(target, extra, Stored(value), decoded))
    case RecoverThrows(record) =>
      if mode != OnInFlight || !record then Threw
      else if call.voidOk then VoidSuccess(cfg, target, extra)
      else GiveUpOnUnknown(target, extra, false)
    case Absent(record) =>
      match mode
      case OnReconciled => if call.voidOk then VoidSuccess(cfg, target, extra) else Threw
      case OnInFlight =>
        if record && call.voidOk then VoidSuccess(cfg, target, extra) else GiveUpOnUnknown(target, extra, true)
      case OnDoubt => Checked(1, Settle(target, OutcomeUnknown, extra[Mutating := JBool(false)], Threw))
  }

  /** The catch block for an error thrown before a send, or one that came back from it, :700-730. */
  function AfterError(key: IntentKey, known: bool, persistFirst: bool, extra: Detail): Pc {
    if known then Checked(1, Settle(key, Failed, extra[Mutating := JBool(false)], Threw))
    else if persistFirst then Checked(1, PersistAgain)
    else Checked(1, Settle(key, OutcomeUnknown, extra[Mutating := JBool(false)], Threw))
  }

  // ----- One step of a call: its statement, and where it goes next -----

  predicate Fits(s: State, cfg: Config, c: CallId, choice: Choice) {
    && c in s.calls
    && var call := s.calls[c];
    match choice
    case Go(extra) => Unreserved(extra) && !Finished(call.pc) && !call.pc.Query? && !call.pc.Recover? && !call.pc.Sending?
    case Fetched(target) => call.pc.Query?
    case Observed(evidence, extra) =>
      && call.pc.Recover? && Unreserved(extra) && (call.recovers || evidence.Absent?)
      && (call.pc.target == KeyOf(c) && evidence.Found? ==> FitsVoid(cfg, c, evidence.value))
    case Answered(answer, extra) =>
      && call.pc.Sending? && Unreserved(extra)
      && (answer.Ok? ==> FitsVoid(cfg, c, answer.value))
    case GiveUp(_, _, extra) => Unreserved(extra) && (Core(call.pc).Mark? || Core(call.pc).Enter? || call.pc.Mutate?)
  }

  predicate FitsVoid(cfg: Config, c: CallId, value: Option<Json>) { c.operation in cfg.voidOps ==> value == None }

  function RowsAfter(s: State, c: CallId, choice: Choice): Rows
    requires c in s.calls
  {
    var key, epoch, open := KeyOf(c), Some(c.epoch), Open(s, c);
    if !choice.Go? then s.rows
    else
      match s.calls[c].pc
      case Parent => PersistStmt(s.rows, key, epoch, open, choice.extra[DelegationEntered := JBool(false)], s.clock)
      case ParentReset => MergeStmt(s.rows, key, epoch, open, map[DelegationEntered := JBool(false), Mutating := JBool(false)])
      case Persist => PersistStmt(s.rows, key, epoch, open, choice.extra, s.clock)
      case PersistAgain => PersistStmt(s.rows, key, epoch, open, choice.extra, s.clock)
      case Arm(_) => MergeStmt(s.rows, key, epoch, open, ArmPatch(choice.extra, c.epoch))
      case Mark(_, _) => MergeStmt(s.rows, key, epoch, open, map[SendStarted := JBool(true)])
      case Enter => MergeStmt(s.rows, key, epoch, open, map[DelegationEntered := JBool(true)])
      case Stash(patch, _) => MergeStmt(s.rows, key, epoch, open, patch)
      case Settle(target, status, patch, _) => ReconcileStmt(s.rows, target, status, None, epoch, open, patch)
      case ReleaseUnsent => ReleaseStmt(s.rows, key, c.epoch)
      case _ => s.rows
  }

  function ArmPatch(extra: Detail, epoch: nat): Detail {
    extra + map[Mutating := JBool(true), SendStarted := JBool(false), MutatingEpoch := JNum(epoch)]
  }

  function LogAfter(s: State, c: CallId, choice: Choice): seq<Send>
    requires c in s.calls
  {
    match s.calls[c].pc
    case Mutate => if choice.Go? then s.log + [Send(KeyOf(c), c.epoch, Unanswered)] else s.log
    case Sending(i) =>
      if choice.Answered? && i < |s.log| then
        s.log[i := s.log[i].(outcome := match choice.answer
                                        case Ok(_) => Accepted
                                        case NoAcceptance => Rejected
                                        case Unclear(_) => Doubtful)]
      else s.log
    case _ => s.log
  }

  predicate Delegated(cfg: Config, c: CallId) { c.operation in cfg.delegatedOps }

  function PcAfter(s: State, cfg: Config, c: CallId, choice: Choice): Pc
    requires c in s.calls
  {
    var call, key := s.calls[c], KeyOf(c);
    match choice
    case Go(_) => PcAfterGo(s, cfg, c, RowsAfter(s, c, choice))
    case GiveUp(known, persistFirst, extra) => AfterError(key, known, persistFirst, extra)
    case Fetched(target) =>
      if target.Some? then Recover(target.value, OnInFlight) else Checked(1, Arm(Open(s, c)))
    case Observed(evidence, extra) =>
      if call.pc.Recover? then AfterEvidence(cfg, call, call.pc.target, call.pc.mode, evidence, extra) else Threw
    case Answered(answer, extra) =>
      match answer
      case Ok(value) =>
        if cfg.decode(value) == None then Threw
        else Checked(2, Stash(extra[Result := Stored(value)], value))
      case NoAcceptance => AfterError(key, true, false, extra)
      case Unclear(persistFirst) => AfterError(key, false, persistFirst, extra)
  }

  /** Where a statement leads; `written` is what it left in the table. */
  function PcAfterGo(s: State, cfg: Config, c: CallId, written: Rows): Pc
    requires c in s.calls
  {
    var key, open := KeyOf(c), Open(s, c);
    match s.calls[c].pc
    case Fence(checks, next) =>
      if !open then (if next.Mark? then ReleaseUnsent else Threw)
      else if checks > 1 then Fence(checks - 1, next)
      else next
    case Parent => if open && key in written then DecideParent(key, written[key]) else Threw
    case ParentReset => Entry()
    case Persist => if open && key in written then Checked(1, Decide(cfg, key, written[key])) else Threw
    case PersistAgain => if open then Recover(key, OnDoubt) else Threw
    case Arm(sole) => Checked(3, Mark(open, sole))
    case Mark(_, _) =>
      if !(open && Mergeable(s.rows, key)) then ReleaseUnsent
      else if Delegated(cfg, c) then Checked(1, Enter)
      else Mutate
    case Enter => if open && Mergeable(s.rows, key) then Mutate else AfterError(key, true, false, map[])
    case Mutate => Sending(|s.log|)
    case Stash(patch, value) => Checked(1, Settle(key, Reconciled, patch, Sent(value)))
    case Settle(_, _, _, next) => next
    case _ => Threw
  }

  // ----- The machine -----

  /** A verdict close and its publishOnce call run under one session lock, publishRecordRepository.ts:598. */
  predicate Unlocked(s: State, key: IntentKey) { forall c :: c in s.calls && KeyOf(c) == key ==> Finished(s.calls[c].pc) }

  function VoidRows(s: State, target: IntentKey, closer: Option<nat>): Rows {
    var open := closer.Some? ==> Held(s.leases, target.workItem, closer.value, s.now);
    ReconcileStmt(s.rows, target, Reconciled, None, closer, open, map[Result := JNull])
  }

  predicate Enabled(s: State, cfg: Config, step: Step) {
    match step
    case Grant(w, _) => w in cfg.items && Available(s.leases, cfg.items[w], s.now)
    case Renew(w, _, _) => w in cfg.items
    case SettleByOther(_, status, patch) => status in {Reconciled, OutcomeUnknown} && Result !in patch
    case SettleSaved(target) => target in s.rows && Result in s.rows[target].detail
    case SettleVoid(target, _) => target.operation in cfg.voidOps && Unlocked(s, target)
    case Begin(c, recovers, voidOk) =>
      && Holder(c.workItem, c.epoch) in s.executions
      && (c in s.calls ==> Finished(s.calls[c].pc))
      && (!recovers ==> voidOk)
    case Advance(c, choice) => Fits(s, cfg, c, choice)
    case _ => true
  }

  /** The in-flight query answers with what the rows and leases say at that moment. */
  ghost predicate Legal(s: State, cfg: Config, step: Step) {
    && Enabled(s, cfg, step)
    && (step.Advance? && step.choice.Fetched? ==>
          FirstInFlight(s.rows, cfg.items, s.leases, s.now, KeyOf(step.c), step.choice.target))
  }

  function Apply(s: State, cfg: Config, step: Step): State
    requires Enabled(s, cfg, step)
  {
    match step
    case Tick(delta) => s.(now := s.now + delta)
    case Grant(w, ttl) =>
      var leases := AcquireRow(s.leases, cfg.items[w], w, s.now, ttl);
      s.(leases := leases, executions := s.executions + {Holder(w, leases[cfg.items[w]].epoch)})
    case Renew(w, epoch, ttl) => s.(leases := RenewRow(s.leases, cfg.items[w], w, epoch, s.now, ttl))
    case ReleaseLease(key, epoch) => s.(leases := ReleaseRow(s.leases, key, epoch, s.now))
    case Supersede(key, holders) => s.(leases := ReleaseHolders(s.leases, key, holders, s.now))
    case SettleByOther(target, status, patch) =>
      s.(rows := ReconcileStmt(s.rows, target, status, None, None, true, patch))
    case SettleSaved(target) => s.(rows := s.rows[target := s.rows[target].(status := Reconciled)])
    case SettleVoid(target, closer) => s.(rows := VoidRows(s, target, closer))
    case Begin(c, recovers, voidOk) =>
      s.(calls := s.calls[c := Call(recovers, voidOk, if Delegated(cfg, c) then Checked(1, Parent) else Entry())])
    case Advance(c, choice) =>
      s.(rows := RowsAfter(s, c, choice),
         log := LogAfter(s, c, choice),
         clock := s.clock + 1,
         calls := s.calls[c := s.calls[c].(pc := PcAfter(s, cfg, c, choice))])
    case Vanish(c) => s.(calls := s.calls - {c})
  }

  /** A finite run: every step is legal where it is taken. */
  ghost predicate IsRun(s: State, cfg: Config, steps: seq<Step>)
    decreases |steps|
  {
    steps == [] || (Legal(s, cfg, steps[0]) && IsRun(Apply(s, cfg, steps[0]), cfg, steps[1..]))
  }

  ghost function End(s: State, cfg: Config, steps: seq<Step>): State
    requires IsRun(s, cfg, steps)
    decreases |steps|
  {
    if steps == [] then s else End(Apply(s, cfg, steps[0]), cfg, steps[1..])
  }

  // ----- What is to be shown -----

  /** At most one mutate() per (work item, operation key) is not proven to have been refused. */
  ghost predicate AtMostOnce(log: seq<Send>) {
    forall i, j :: 0 <= i < j < |log| && log[i].key == log[j].key ==> log[i].outcome.Rejected? || log[j].outcome.Rejected?
  }

  /** This step sets the send marker and thereby commits the call to mutate(). */
  predicate Marks(s: State, step: Step) {
    && step.Advance? && step.choice.Go? && step.c in s.calls && s.calls[step.c].pc.Mark?
    && Open(s, step.c) && Mergeable(s.rows, KeyOf(step.c))
  }

  /** The marked row still carries the armed flag. */
  predicate ArmedMark(s: State, step: Step) {
    Marks(s, step) ==> IsTrue(s.rows[KeyOf(step.c)].detail, Mutating)
  }

  ghost predicate ArmedRun(s: State, cfg: Config, steps: seq<Step>)
    requires IsRun(s, cfg, steps)
    decreases |steps|
  {
    steps == [] || (ArmedMark(s, steps[0]) && ArmedRun(Apply(s, cfg, steps[0]), cfg, steps[1..]))
  }
}

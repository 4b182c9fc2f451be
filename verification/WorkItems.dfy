/**
  The lifecycle of a work item: the guarded UPDATE of workItemTransitions.ts and the call sites that
  fill it in (workItemStateRepository.ts, autoWorkEnqueue.ts, intake/workItemRepository.ts).
 */
module WorkItems {
  import opened Wrappers
  import opened Leases

  datatype WorkStatus = Queued | Running | Superseded | Cancelled | Completed | Failed

  datatype Item = Item(
    key: LeaseKey,
    auto: bool,
    status: WorkStatus,
    cancelRequested: bool,
    started: bool,
    attempts: nat,
    epoch: Option<nat>,
    rescheduled: bool)

  type Items = map<WorkItemId, Item>

  /** The extra WHERE fragments of the call sites. `Given` is a condition on other tables. */
  datatype Where = Given(holds: bool) | StoredEpoch(epoch: Option<nat>) | IsRescheduled | LostAfterCancelRequest(lost: bool)

  datatype Spec = Spec(
    from: set<WorkStatus>,
    to: WorkStatus,
    unlessCancelRequested: bool,
    fence: Option<nat>,
    requestCancel: bool,
    executionEpoch: Option<Option<nat>>,
    where: Where)

  /** Every call site of transition. */
  datatype Operation =
    | Claim(epoch: Option<nat>)
    | Complete(epoch: Option<nat>)
    | ForceComplete(at: nat)
    | Fail(epoch: Option<nat>)
    | Retry(epoch: Option<nat>)
    | Cancel(epoch: Option<nat>)
    | CancelLost(linked: bool, lost: bool)
    | FailLost(oldAndLost: bool)
    | CancelQueued
    | CancelQueuedAt(epoch: Option<nat>)
    | CancelExecution(at: nat)
    | SupersedeQueued(preserved: bool)
    | SupersedeRunning
    | CancelActiveQueued
    | CancelActiveRunning

  function SpecOf(op: Operation): Spec {
    match op
    case Claim(epoch) => Spec({Queued, Running}, Running, true, epoch, false, Some(epoch), Given(true))
    case Complete(epoch) => Spec({Running}, Completed, true, epoch, false, None, Given(true))
    case ForceComplete(at) => Spec({Running, Queued}, Completed, true, Some(at), false, None, IsRescheduled)
    case Fail(epoch) => Spec({Running}, Failed, true, epoch, false, None, Given(true))
    case Retry(epoch) => Spec({Running}, Queued, true, epoch, false, None, Given(true))
    case Cancel(epoch) => Spec({Queued, Running}, Cancelled, false, epoch, false, None, Given(true))
    case CancelLost(linked, lost) =>
      Spec({Running}, if linked then Superseded else Cancelled, false, None, false, None, LostAfterCancelRequest(lost))
    case FailLost(oldAndLost) => Spec({Running}, Failed, true, None, false, None, Given(oldAndLost))
    case CancelQueued => Spec({Queued}, Cancelled, false, None, true, None, Given(true))
    case CancelQueuedAt(epoch) => Spec({Queued}, Cancelled, false, None, true, None, StoredEpoch(epoch))
    case CancelExecution(at) => Spec({Queued, Running}, Cancelled, false, Some(at), true, None, StoredEpoch(Some(at)))
    case SupersedeQueued(preserved) => Spec({Queued}, Superseded, false, None, false, None, Given(!preserved))
    case SupersedeRunning => Spec({Running}, Superseded, false, None, true, None, Given(true))
    case CancelActiveQueued => Spec({Queued}, Cancelled, false, None, false, None, Given(true))
    case CancelActiveRunning => Spec({Running}, Cancelled, false, None, true, None, Given(true))
  }

  predicate Meets(item: Item, where: Where) {
    match where
    case Given(holds) => holds
    case StoredEpoch(epoch) => item.epoch == epoch
    case IsRescheduled => item.rescheduled
    case LostAfterCancelRequest(lost) => item.cancelRequested && lost
  }

  /** The WHERE clause. A transition that sets the execution epoch is not fenced by it. */
  predicate Selected(item: Item, spec: Spec, w: WorkItemId, leases: Table, now: int) {
    && item.status in spec.from
    && (spec.unlessCancelRequested ==> !item.cancelRequested)
    && Meets(item, spec.where)
    && (spec.fence.Some? && spec.executionEpoch.None? ==> Held(leases, w, spec.fence.value, now))
  }

  function After(item: Item, spec: Spec): Item {
    item.(status := spec.to,
          started := item.started || spec.to == Running,
          cancelRequested := item.cancelRequested || spec.requestCancel,
          epoch := if spec.executionEpoch.Some? && spec.executionEpoch.value.Some? then spec.executionEpoch.value else item.epoch)
  }

  predicate Applies(items: Items, w: WorkItemId, op: Operation, leases: Table, now: int) {
    w in items && Selected(items[w], SpecOf(op), w, leases, now)
  }

  function Transitioned(items: Items, w: WorkItemId, op: Operation, leases: Table, now: int): Items {
    if Applies(items, w, op, leases, now) then items[w := After(items[w], SpecOf(op))] else items
  }

  // ----- Attempts -----

  datatype Attempt = Started(attempt: nat) | Exhausted(attempts: nat) | Unavailable

  predicate MayStart(items: Items, w: WorkItemId) {
    w in items && items[w].status == Running && !items[w].cancelRequested
  }

  function AttemptBegun(items: Items, w: WorkItemId, limit: nat): (r: (Items, Attempt)) {
    if !MayStart(items, w) then (items, Unavailable)
    else if items[w].attempts >= limit then (items, Exhausted(items[w].attempts))
    else (items[w := items[w].(attempts := items[w].attempts + 1)], Started(items[w].attempts + 1))
  }

  /** Terminal statuses. */
  predicate Terminal(s: WorkStatus) { s != Queued && s != Running }
}

/** What every sequence of transitions and attempts keeps. */
module WorkItemRuns {
  import opened Wrappers
  import opened Leases
  import opened WorkItems

  /** An execution's admission is remembered, so it begins at most one attempt (durableJob.ts:160-164). */
  datatype Execution = Execution(workItem: WorkItemId, run: nat)

  type Admissions = map<Execution, Attempt>

  datatype Step =
    | Transit(w: WorkItemId, op: Operation, leases: Table, now: int)
    | Admit(execution: Execution, ownsLease: bool)
    | Create(w: WorkItemId, key: LeaseKey, auto: bool)

  datatype State = State(items: Items, admissions: Admissions)

  /** Without the lease beginWorkAttempt throws before it touches the item; that rejection is remembered too. */
  function Apply(s: State, limit: nat, step: Step): State {
    match step
    case Transit(w, op, leases, now) => s.(items := Transitioned(s.items, w, op, leases, now))
    case Admit(e, ownsLease) =>
      if e in s.admissions then s
      else
        var (items, attempt) := if ownsLease then AttemptBegun(s.items, e.workItem, limit) else (s.items, Unavailable);
        State(items, s.admissions[e := attempt])
    case Create(w, key, auto) =>
      if w in s.items then s else s.(items := s.items[w := Item(key, auto, Queued, false, false, 0, None, false)])
  }

  function Run(s: State, limit: nat, steps: seq<Step>): State
    decreases |steps|
  {
    if steps == [] then s else Run(Apply(s, limit, steps[0]), limit, steps[1..])
  }

  // ----- The status graph -----

  const EDGES: set<(WorkStatus, WorkStatus)> := {
    (Queued, Running), (Running, Running), (Running, Queued),
    (Queued, Superseded), (Queued, Cancelled), (Queued, Completed),
    (Running, Superseded), (Running, Cancelled), (Running, Completed), (Running, Failed)}

  /** A pair of statuses is an edge exactly when some call site moves some item along it. */
  lemma EdgesAreExact(a: WorkStatus, b: WorkStatus)
    ensures (a, b) in EDGES <==>
              exists item: Item, op: Operation, w: WorkItemId, leases: Table, now: int ::
                item.status == a && Selected(item, SpecOf(op), w, leases, now) && After(item, SpecOf(op)).status == b
  {
    if (a, b) in EDGES {
      var key := LeaseKey("pr", Review);
      var item := Item(key, true, a, false, false, 0, None, true);
      var op := match b
        case Running => Claim(None)
        case Queued => Retry(None)
        case Superseded => if a == Queued then SupersedeQueued(false) else SupersedeRunning
        case Cancelled => Cancel(None)
        case Failed => Fail(None)
        case Completed => ForceComplete(1);
      var leases: Table := map[key := Row(1, Some(0), 1)];
      assert HeldAt(leases, key, 0, 1, 0);
      assert Selected(item, SpecOf(op), 0, leases, 0) && After(item, SpecOf(op)).status == b;
    }
  }

  predicate SameLife(i: Item, i': Item) { i'.status == i.status && i'.cancelRequested == i.cancelRequested }

  /** What one step may do to an existing item. */
  lemma StepOnItem(s: State, limit: nat, step: Step, w: WorkItemId)
    requires w in s.items
    ensures var i, s' := s.items[w], Apply(s, limit, step);
            && w in s'.items
            && (Terminal(i.status) ==> SameLife(i, s'.items[w]))
            && (i.cancelRequested ==> s'.items[w].cancelRequested
                                      && (SameLife(i, s'.items[w]) || s'.items[w].status == Cancelled || s'.items[w].status == Superseded))
  {
  }

  /** Terminal statuses are absorbing. */
  lemma {:induction false} TerminalIsAbsorbing(s: State, limit: nat, steps: seq<Step>, w: WorkItemId)
    requires w in s.items && Terminal(s.items[w].status)
    ensures w in Run(s, limit, steps).items && Run(s, limit, steps).items[w].status == s.items[w].status
    decreases |steps|
  {
    if steps != [] {
      StepOnItem(s, limit, steps[0], w);
      TerminalIsAbsorbing(Apply(s, limit, steps[0]), limit, steps[1..], w);
    }
  }

  /** After a cancel request only cancelled and superseded are reachable. */
  lemma {:induction false} CancelRequestIsFinal(s: State, limit: nat, steps: seq<Step>, w: WorkItemId)
    requires w in s.items && s.items[w].cancelRequested
    ensures var end := Run(s, limit, steps);
            && w in end.items && end.items[w].cancelRequested
            && end.items[w].status in {s.items[w].status, Cancelled, Superseded}
    decreases |steps|
  {
    if steps != [] {
      var next := Apply(s, limit, steps[0]);
      StepOnItem(s, limit, steps[0], w);
      CancelRequestIsFinal(next, limit, steps[1..], w);
      if next.items[w].status != s.items[w].status { TerminalIsAbsorbing(next, limit, steps[1..], w); }
    }
  }

  // ----- Which call site does what -----

  predicate FencedBy(epoch: Option<nat>, w: WorkItemId, leases: Table, now: int) { epoch.Some? ==> Held(leases, w, epoch.value, now) }

  predicate Active(i: Item) { i.status == Queued || i.status == Running }

  /** A step moves an item that is not yet in this status into it. */
  predicate Becomes(s: State, limit: nat, step: Step, w: WorkItemId, status: WorkStatus)
    requires w in s.items
  {
    var s' := Apply(s, limit, step);
    s.items[w].status != status && w in s'.items && s'.items[w].status == status
  }

  /** Only markWorkCompleted and the forced completion of a rescheduled item complete it. */
  lemma CompletedExactly(s: State, limit: nat, step: Step, w: WorkItemId)
    requires w in s.items
    ensures var i := s.items[w];
            Becomes(s, limit, step, w, Completed) <==>
              step.Transit? && step.w == w && !i.cancelRequested && match step.op
                case Complete(epoch) => i.status == Running && FencedBy(epoch, w, step.leases, step.now)
                case ForceComplete(at) => Active(i) && i.rescheduled && Held(step.leases, w, at, step.now)
                case _ => false
  {
  }

  lemma FailedExactly(s: State, limit: nat, step: Step, w: WorkItemId)
    requires w in s.items
    ensures var i := s.items[w];
            Becomes(s, limit, step, w, Failed) <==>
              step.Transit? && step.w == w && i.status == Running && !i.cancelRequested && match step.op
                case Fail(epoch) => FencedBy(epoch, w, step.leases, step.now)
                case FailLost(oldAndLost) => oldAndLost
                case _ => false
  {
  }

  /** An item goes back to the queue only to be retried. */
  lemma RequeuedExactly(s: State, limit: nat, step: Step, w: WorkItemId)
    requires w in s.items
    ensures var i := s.items[w];
            Becomes(s, limit, step, w, Queued) <==>
              && step.Transit? && step.w == w && step.op.Retry? && i.status == Running && !i.cancelRequested
              && FencedBy(step.op.epoch, w, step.leases, step.now)
  {
  }

  /** And it runs once it is claimed, whatever its lease. */
  lemma RunningExactly(s: State, limit: nat, step: Step, w: WorkItemId)
    requires w in s.items
    ensures var i := s.items[w];
            Becomes(s, limit, step, w, Running) <==> step.Transit? && step.w == w && step.op.Claim? && i.status == Queued && !i.cancelRequested
  {
  }

  /** Supersession takes the queued items that are not preserved and the running ones; a lost, linked one follows its request. */
  lemma SupersededExactly(s: State, limit: nat, step: Step, w: WorkItemId)
    requires w in s.items
    ensures var i := s.items[w];
            Becomes(s, limit, step, w, Superseded) <==>
              step.Transit? && step.w == w && match step.op
                case SupersedeQueued(preserved) => i.status == Queued && !preserved
                case SupersedeRunning => i.status == Running
                case CancelLost(linked, lost) => linked && lost && i.status == Running && i.cancelRequested
                case _ => false
  {
  }

  lemma CancelledExactly(s: State, limit: nat, step: Step, w: WorkItemId)
    requires w in s.items
    ensures var i := s.items[w];
            Becomes(s, limit, step, w, Cancelled) <==>
              step.Transit? && step.w == w && match step.op
                case Cancel(epoch) => Active(i) && FencedBy(epoch, w, step.leases, step.now)
                case CancelLost(linked, lost) => !linked && lost && i.status == Running && i.cancelRequested
                case CancelQueued => i.status == Queued
                case CancelQueuedAt(epoch) => i.status == Queued && i.epoch == epoch
                case CancelExecution(at) => Active(i) && i.epoch == Some(at) && Held(step.leases, w, at, step.now)
                case CancelActiveQueued => i.status == Queued
                case CancelActiveRunning => i.status == Running
                case _ => false
  {
  }

  predicate RequestsCancel(s: State, limit: nat, step: Step, w: WorkItemId)
    requires w in s.items
  {
    && (Becomes(s, limit, step, w, Cancelled) || Becomes(s, limit, step, w, Superseded))
    && (step.op.CancelQueued? || step.op.CancelQueuedAt? || step.op.CancelExecution? || step.op.SupersedeRunning? || step.op.CancelActiveRunning?)
  }

  lemma CancelRequestsExactly(s: State, limit: nat, step: Step, w: WorkItemId)
    requires w in s.items
    ensures var i, s' := s.items[w], Apply(s, limit, step);
            w in s'.items && (s'.items[w].cancelRequested <==> (i.cancelRequested || RequestsCancel(s, limit, step, w)))
  {
  }

  /** A claim starts the item and records its epoch; nothing else does, and nothing else of an item ever changes. */
  lemma ClaimsRecordEpochs(s: State, limit: nat, step: Step, w: WorkItemId)
    requires w in s.items
    ensures var i, s' := s.items[w], Apply(s, limit, step);
            var claimed := step.Transit? && step.w == w && step.op.Claim? && Active(i) && !i.cancelRequested;
            && w in s'.items
            && s'.items[w].key == i.key && s'.items[w].auto == i.auto && s'.items[w].rescheduled == i.rescheduled
            && (s'.items[w].started <==> i.started || claimed)
            && s'.items[w].epoch == (if claimed && step.op.epoch.Some? then step.op.epoch else i.epoch)
  {
  }

  /** An attempt is counted for the first admission of an execution that owns the lease of a running item below the limit. */
  lemma AttemptsExactly(s: State, limit: nat, step: Step, w: WorkItemId)
    requires w in s.items
    ensures var i, s' := s.items[w], Apply(s, limit, step);
            var counts := && step.Admit? && step.execution.workItem == w && step.execution !in s.admissions && step.ownsLease
                          && i.status == Running && !i.cancelRequested && i.attempts < limit;
            w in s'.items && s'.items[w].attempts == i.attempts + (if counts then 1 else 0)
  {
  }

  /** A running item nobody asked to cancel is completed by the execution that holds its lease, for good. */
  lemma CompletionIsFinal(s: State, limit: nat, w: WorkItemId, epoch: Option<nat>, leases: Table, now: int, steps: seq<Step>)
    requires w in s.items && s.items[w].status == Running && !s.items[w].cancelRequested && FencedBy(epoch, w, leases, now)
    ensures var end := Run(Apply(s, limit, Transit(w, Complete(epoch), leases, now)), limit, steps);
            w in end.items && end.items[w].status == Completed
  {
    CompletedExactly(s, limit, Transit(w, Complete(epoch), leases, now), w);
    TerminalIsAbsorbing(Apply(s, limit, Transit(w, Complete(epoch), leases, now)), limit, steps, w);
  }

  // ----- Attempts -----

  /** The executions of w that began an attempt. */
  function Starters(s: State, w: WorkItemId): set<Execution> {
    set e | e in s.admissions && e.workItem == w && s.admissions[e].Started?
  }

  ghost predicate AttemptsCounted(s: State, limit: nat) {
    && (forall w :: w in s.items ==> s.items[w].attempts == |Starters(s, w)| <= limit)
    && (forall e :: e in s.admissions && s.admissions[e].Started? ==> e.workItem in s.items)
  }

  lemma AdmissionCounts(s: State, limit: nat, e: Execution, ownsLease: bool, w: WorkItemId)
    requires AttemptsCounted(s, limit) && e !in s.admissions && w in s.items
    ensures var s' := Apply(s, limit, Admit(e, ownsLease)); w in s'.items && s'.items[w].attempts == |Starters(s', w)| <= limit
  {
    var s' := Apply(s, limit, Admit(e, ownsLease));
    if s'.admissions[e].Started? && e.workItem == w {
      assert Starters(s', w) == Starters(s, w) + {e};
    } else {
      assert Starters(s', w) == Starters(s, w);
    }
  }

  lemma StepCounts(s: State, limit: nat, step: Step)
    requires AttemptsCounted(s, limit)
    ensures AttemptsCounted(Apply(s, limit, step), limit)
  {
    var s' := Apply(s, limit, step);
    forall w | w in s'.items ensures s'.items[w].attempts == |Starters(s', w)| <= limit {
      if step.Admit? && step.execution !in s.admissions {
        AdmissionCounts(s, limit, step.execution, step.ownsLease, w);
      } else if w !in s.items {
        assert Starters(s', w) == {};
      } else {
        assert Starters(s', w) == Starters(s, w);
      }
    }
  }

  /**
    Over any number of claims, retries, lease hops and repeated admissions, a work item's attempt count is
    the number of executions that started on it, one each, and never exceeds the limit of retryLimit + 1.
   */
  lemma {:induction false} OneAttemptPerExecution(s: State, retryLimit: nat, steps: seq<Step>, w: WorkItemId)
    requires AttemptsCounted(s, retryLimit + 1) && w in Run(s, retryLimit + 1, steps).items
    ensures var end := Run(s, retryLimit + 1, steps); end.items[w].attempts == |Starters(end, w)| <= retryLimit + 1
    decreases |steps|
  {
    if steps != [] {
      StepCounts(s, retryLimit + 1, steps[0]);
      OneAttemptPerExecution(Apply(s, retryLimit + 1, steps[0]), retryLimit, steps[1..], w);
    }
  }
}

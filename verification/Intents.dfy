/**
  Operation intents (src/agentWork/operationIntentRepository.ts): one row per (work item, operation
  key). The statements are functions of the rows; the repository object runs them behind the lease
  fence of fencedWrite.ts.
 */
module Intents {
  import opened Wrappers
  import opened Leases

  /** A stored JSON value. Payloads the protocol never inspects are opaque. */
  datatype Json = JNull | JBool(b: bool) | JNum(n: int) | JText(text: string) | JOpaque(payload: nat)

  /** The keys of an intent's detail: the ones the protocol reads, and everything else. */
  datatype Field = Mutating | SendStarted | MutatingEpoch | Result | UnknownResolution | DelegationEntered | Other(name: string)

  /** jsonb; the `||` of the statements is map union, the right side winning. */
  type Detail = map<Field, Json>

  const TERMINAL: Json := JText("terminal")

  datatype Status = Pending | Reconciled | Failed | OutcomeUnknown

  datatype Intent = Intent(
    status: Status,
    publishRecord: Option<nat>,
    leaseEpoch: Option<nat>,
    detail: Detail,
    createdAt: nat)

  datatype IntentKey = IntentKey(workItem: WorkItemId, operation: string)

  type Rows = map<IntentKey, Intent>

  predicate IsTrue(d: Detail, f: Field) { f in d && d[f] == JBool(true) }

  predicate IsFalse(d: Detail, f: Field) { f in d && d[f] == JBool(false) }

  predicate Terminal(d: Detail) { UnknownResolution in d && d[UnknownResolution] == TERMINAL }

  /** Details callers may supply: they never carry the protocol's own keys. */
  predicate Unreserved(d: Detail) { forall f :: f in d ==> f.Other? }

  function OrElse<T>(preferred: Option<T>, fallback: Option<T>): Option<T> {
    if preferred.Some? then preferred else fallback
  }

  // ----- The statements. `open` is the EXISTS over the lease table, or true without an epoch. -----

  function PersistStmt(rows: Rows, key: IntentKey, epoch: Option<nat>, open: bool, detail: Detail, clock: nat): Rows {
    if !open then rows
    else if key in rows then rows[key := rows[key].(leaseEpoch := OrElse(epoch, rows[key].leaseEpoch))]
    else rows[key := Intent(Pending, None, epoch, detail, clock)]
  }

  predicate Mergeable(rows: Rows, key: IntentKey) {
    key in rows && (rows[key].status == Pending || rows[key].status == Failed)
  }

  function MergeStmt(rows: Rows, key: IntentKey, epoch: Option<nat>, open: bool, patch: Detail): Rows {
    if open && Mergeable(rows, key)
    then rows[key := rows[key].(status := Pending, leaseEpoch := OrElse(epoch, rows[key].leaseEpoch), detail := rows[key].detail + patch)]
    else rows
  }

  function MergeAnswer(rows: Rows, key: IntentKey, epoch: Option<nat>, patch: Detail): Option<Intent> {
    if Mergeable(rows, key) then Some(MergeStmt(rows, key, epoch, true, patch)[key]) else None
  }

  predicate UnsentArmedBy(r: Intent, epoch: nat) {
    && r.status == Pending
    && IsTrue(r.detail, Mutating)
    && Result !in r.detail
    && IsFalse(r.detail, SendStarted)
    && MutatingEpoch in r.detail
    && r.detail[MutatingEpoch] == JNum(epoch)
  }

  function ReleaseStmt(rows: Rows, key: IntentKey, epoch: nat): Rows {
    if key in rows && UnsentArmedBy(rows[key], epoch)
    then rows[key := rows[key].(detail := rows[key].detail[Mutating := JBool(false)])]
    else rows
  }

  predicate MayBecome(current: Status, next: Status) {
    current == Pending || current == next || (current == OutcomeUnknown && next == Reconciled)
  }

  function ReconcileStmt(rows: Rows, key: IntentKey, status: Status, record: Option<nat>, epoch: Option<nat>, open: bool, patch: Detail): Rows {
    if open && key in rows && MayBecome(rows[key].status, status)
    then rows[key := rows[key].(
                status := status,
                publishRecord := OrElse(record, rows[key].publishRecord),
                leaseEpoch := OrElse(epoch, rows[key].leaseEpoch),
                detail := rows[key].detail + patch)]
    else rows
  }

  /** What the reconcile call answers: the written row, or a row already reconciled. */
  function ReconcileAnswer(rows: Rows, key: IntentKey, status: Status, record: Option<nat>, epoch: Option<nat>, open: bool, patch: Detail): Option<Intent> {
    if key !in rows then None
    else if open && MayBecome(rows[key].status, status) then Some(ReconcileStmt(rows, key, status, record, epoch, open, patch)[key])
    else if status in {OutcomeUnknown, Failed} && rows[key].status == Reconciled then Some(rows[key])
    else None
  }

  // ----- The in-flight query -----

  type Items = map<WorkItemId, LeaseKey>

  predicate HoldsLease(items: Items, leases: Table, w: WorkItemId, now: int) {
    w in items && items[w] in leases && leases[items[w]].holder == Some(w) && leases[items[w]].expiresAt > now
  }

  /** Armed, not sent, and the arming epoch is no longer live at the caller's key. */
  predicate DeadUnsent(r: Intent, leases: Table, key: LeaseKey, now: int) {
    && IsFalse(r.detail, SendStarted)
    && MutatingEpoch in r.detail
    && r.detail[MutatingEpoch].JNum?
    && !(key in leases && leases[key].epoch == r.detail[MutatingEpoch].n && leases[key].expiresAt > now)
  }

  predicate InFlight(r: Intent) {
    r.status == Pending && IsTrue(r.detail, Mutating) && Result !in r.detail
  }

  predicate BlocksCaller(rows: Rows, items: Items, leases: Table, now: int, caller: IntentKey, k: IntentKey) {
    && k in rows
    && k.workItem in items && caller.workItem in items
    && items[k.workItem] == items[caller.workItem]
    && InFlight(rows[k])
    && !DeadUnsent(rows[k], leases, items[caller.workItem], now)
    && (k == caller || (k.workItem != caller.workItem && HoldsLease(items, leases, caller.workItem, now)))
  }

  /** ORDER BY created_at LIMIT 1: none when nothing blocks, otherwise an oldest blocking row. */
  ghost predicate FirstInFlight(rows: Rows, items: Items, leases: Table, now: int, caller: IntentKey, found: Option<IntentKey>) {
    match found
    case None => forall k :: k in rows ==> !BlocksCaller(rows, items, leases, now, caller, k)
    case Some(first) =>
      && BlocksCaller(rows, items, leases, now, caller, first)
      && forall k :: k in rows && BlocksCaller(rows, items, leases, now, caller, k) ==> rows[first].createdAt <= rows[k].createdAt
  }

}

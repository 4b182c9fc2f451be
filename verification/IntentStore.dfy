/**
  The intent repository as an object over a lease table: each call is the lease check of fencedWrite.ts
  followed by one statement, here in one step. Module Publish splits the two.
 */
module IntentStores {
  import opened Wrappers
  import opened Leases
  import opened Intents

  datatype Answer<+T> = Wrote(value: T) | LeaseLost

  predicate FenceOpen(leases: Table, w: WorkItemId, epoch: Option<nat>, now: int) {
    epoch.Some? ==> Held(leases, w, epoch.value, now)
  }

  const FROM_RECORD: Detail := map[Other("reconciledFromPublishRecord") := JBool(true)]

  function PendingKeys(rows: Rows, w: WorkItemId): set<IntentKey> {
    set k | k in rows && k.workItem == w && rows[k].status == Pending
  }

  /** Pending rows of a work item for which a completed publish record is found. */
  function CompletableKeys(rows: Rows, w: WorkItemId, records: map<IntentKey, nat>): set<IntentKey> {
    PendingKeys(rows, w) * records.Keys
  }

  function Completed(rows: Rows, records: map<IntentKey, nat>, epoch: Option<nat>, k: IntentKey): Intent
    requires k in rows && k in records
  {
    rows[k].(status := Reconciled, publishRecord := Some(records[k]),
             leaseEpoch := OrElse(epoch, rows[k].leaseEpoch), detail := rows[k].detail + FROM_RECORD)
  }

  /** The rows after the pending ones in `done` were reconciled from their publish record. */
  function Swept(rows: Rows, done: set<IntentKey>, records: map<IntentKey, nat>, epoch: Option<nat>): Rows {
    map k | k in rows :: if k in done && k in records then Completed(rows, records, epoch, k) else rows[k]
  }

  lemma SweepOneMore(rows: Rows, done: set<IntentKey>, records: map<IntentKey, nat>, epoch: Option<nat>, k: IntentKey)
    requires k in rows && k !in done && k in records && rows[k].status == Pending
    ensures ReconcileStmt(Swept(rows, done, records, epoch), k, Reconciled, Some(records[k]), epoch, true, FROM_RECORD)
            == Swept(rows, done + {k}, records, epoch)
  {
  }

  lemma SweptStatus(rows: Rows, w: WorkItemId, records: map<IntentKey, nat>, epoch: Option<nat>, k: IntentKey)
    requires k in rows
    ensures var done := CompletableKeys(rows, w, records); var after := Swept(rows, done, records, epoch);
            k in PendingKeys(after, w) <==> k in PendingKeys(rows, w) && k !in done
  {
  }

  /** Reconciled with its record, marked as found this way, and under the epoch of the sweep; or as it was. */
  function RowAfterSweep(rows: Rows, w: WorkItemId, records: map<IntentKey, nat>, epoch: Option<nat>, k: IntentKey): Intent
    requires k in rows
  {
    var row := rows[k];
    if k.workItem == w && row.status == Pending && k in records
    then Intent(Reconciled, Some(records[k]), if epoch.Some? then epoch else row.leaseEpoch,
                row.detail[Other("reconciledFromPublishRecord") := JBool(true)], row.createdAt)
    else row
  }

  /** A sweep leaves pending exactly the rows without a record. */
  lemma SweepLeavesTheRest(rows: Rows, w: WorkItemId, records: map<IntentKey, nat>, epoch: Option<nat>)
    ensures var done := CompletableKeys(rows, w, records);
            && done <= PendingKeys(rows, w)
            && (forall k :: k in rows ==> Swept(rows, done, records, epoch)[k] == RowAfterSweep(rows, w, records, epoch, k))
            && PendingKeys(Swept(rows, done, records, epoch), w) == PendingKeys(rows, w) - done
  {
    var done := CompletableKeys(rows, w, records);
    var after := Swept(rows, done, records, epoch);
    forall k | k in done ensures rows[k].detail + FROM_RECORD == rows[k].detail[Other("reconciledFromPublishRecord") := JBool(true)] {}
    forall k | k in rows ensures k in PendingKeys(after, w) <==> k in PendingKeys(rows, w) && k !in done {
      SweptStatus(rows, w, records, epoch, k);
    }
  }

  lemma SplitCount<T>(all: set<T>, part: set<T>)
    requires part <= all
    ensures |all| == |part| + |all - part|
  {
    assert all == part + (all - part);
  }

  /** What the listing of pending intents answers: each of them once, in the order of their creation. */
  ghost predicate Listing(rows: Rows, w: WorkItemId, pending: seq<IntentKey>) {
    && (forall k :: k in pending <==> k in PendingKeys(rows, w))
    && (forall i, j :: 0 <= i < j < |pending| ==> pending[i] != pending[j])
    && (forall i, j :: 0 <= i < j < |pending| ==> NotLater(rows, pending[i], pending[j]))
  }

  predicate NotLater(rows: Rows, k: IntentKey, k': IntentKey) { k in rows && k' in rows && rows[k].createdAt <= rows[k'].createdAt }

  /** Those among the first n listed intents for which a record is found. */
  function Done(pending: seq<IntentKey>, n: nat, records: map<IntentKey, nat>): set<IntentKey>
    requires n <= |pending|
  {
    set i | 0 <= i < n && pending[i] in records :: pending[i]
  }

  lemma ListingIsComplete(rows: Rows, w: WorkItemId, pending: seq<IntentKey>, records: map<IntentKey, nat>)
    requires Listing(rows, w, pending)
    ensures Done(pending, |pending|, records) == CompletableKeys(rows, w, records)
  {
    forall k ensures k in Done(pending, |pending|, records) <==> k in CompletableKeys(rows, w, records) {
      if k in pending {
        var i :| 0 <= i < |pending| && pending[i] == k;
        assert k in PendingKeys(rows, w);
      }
    }
  }

  lemma DoneOneMore(rows: Rows, w: WorkItemId, pending: seq<IntentKey>, n: nat, records: map<IntentKey, nat>)
    requires Listing(rows, w, pending) && n < |pending|
    ensures pending[n] in rows && rows[pending[n]].status == Pending && pending[n] !in Done(pending, n, records)
    ensures var done, next := Done(pending, n, records), Done(pending, n + 1, records);
            && next == (if pending[n] in records then done + {pending[n]} else done)
            && |next| == |done| + (if pending[n] in records then 1 else 0)
  {
    assert pending[n] in pending;
  }

  /** The counts that a finished sweep reports. */
  lemma SweepCounts(rows: Rows, w: WorkItemId, pending: seq<IntentKey>, records: map<IntentKey, nat>, epoch: Option<nat>)
    requires Listing(rows, w, pending)
    ensures var done := Done(pending, |pending|, records);
            && done == CompletableKeys(rows, w, records)
            && |PendingKeys(rows, w)| == |done| + |PendingKeys(Swept(rows, done, records, epoch), w)|
  {
    SweepLeavesTheRest(rows, w, records, epoch);
    SplitCount(PendingKeys(rows, w), CompletableKeys(rows, w, records));
    ListingIsComplete(rows, w, pending, records);
  }

  /**
    A sweep that was cut short leaves nothing to repair: the next one, under whatever epoch, reconciles
    the rest, and the rows differ from those of an uninterrupted sweep at most in the epoch they name.
   */
  lemma SweepResumes(rows: Rows, w: WorkItemId, records: map<IntentKey, nat>, pending: seq<IntentKey>, n: nat,
                     first: Option<nat>, second: Option<nat>, k: IntentKey)
    requires Listing(rows, w, pending) && n <= |pending| && k in rows
    ensures var cut := Swept(rows, Done(pending, n, records), records, first);
            var resumed := Swept(cut, CompletableKeys(cut, w, records), records, second);
            var whole := Swept(rows, CompletableKeys(rows, w, records), records, second);
            && k in resumed && k in whole
            && resumed[k] == whole[k].(leaseEpoch := resumed[k].leaseEpoch)
            && (first == second ==> resumed[k] == whole[k])
  {
    ListingIsComplete(rows, w, pending, records);
    var done := Done(pending, n, records);
    assert done <= Done(pending, |pending|, records);
    var cut := Swept(rows, done, records, first);
    assert k in PendingKeys(cut, w) <==> k in PendingKeys(rows, w) && k !in done;
  }

  /** The leases and the clock that one statement of a loop meets. */
  datatype Moment = Moment(leases: Table, now: int)

  predicate OpenAt(m: Moment, w: WorkItemId, epoch: Option<nat>) { FenceOpen(m.leases, w, epoch, m.now) }

  /** The fence was open wherever one of the first n listed intents was written. */
  ghost predicate OpenSoFar(pending: seq<IntentKey>, n: nat, records: map<IntentKey, nat>, at: nat -> Moment, w: WorkItemId, epoch: Option<nat>)
    requires n <= |pending|
  {
    forall i :: 0 <= i < n && pending[i] in records ==> OpenAt(at(i), w, epoch)
  }

  /** The sweep has dealt with the first n listed intents. */
  ghost predicate SweptTo(before: Rows, rows: Rows, pending: seq<IntentKey>, n: nat, records: map<IntentKey, nat>, epoch: Option<nat>, reconciled: nat) {
    && n <= |pending|
    && rows == Swept(before, Done(pending, n, records), records, epoch)
    && reconciled == |Done(pending, n, records)|
  }

  lemma NothingSwept(rows: Rows, pending: seq<IntentKey>, records: map<IntentKey, nat>, epoch: Option<nat>)
    ensures SweptTo(rows, rows, pending, 0, records, epoch, 0)
  {
    assert Done(pending, 0, records) == {} && Swept(rows, {}, records, epoch) == rows;
  }

  datatype Sweep = Sweep(reconciled: nat, stillPending: nat)

  /** assertPrActorLeaseHeld in front of a write; a call without an epoch is not fenced. */
  method CheckFence(leases: LeaseTable, w: WorkItemId, epoch: Option<nat>, now: int) returns (open: bool)
    ensures open <==> FenceOpen(leases.rows, w, epoch, now)
  {
    match epoch
    case None => open := true;
    case Some(e) => open := leases.IsHeld(w, e, now);
  }

  class IntentStore {
    var rows: Rows
    var clock: nat
    const leases: LeaseTable

    constructor (leases: LeaseTable)
      ensures rows == map[] && this.leases == leases
    {
      rows, clock, this.leases := map[], 0, leases;
    }

    method Persist(key: IntentKey, epoch: Option<nat>, detail: Detail, now: int) returns (r: Answer<Intent>)
      modifies this
      ensures rows == PersistStmt(old(rows), key, epoch, FenceOpen(leases.rows, key.workItem, epoch, now), detail, old(clock))
      ensures clock >= old(clock)
      ensures r.Wrote? <==> FenceOpen(leases.rows, key.workItem, epoch, now)
      ensures r.Wrote? ==> key in rows && r.value == rows[key]
      ensures r.Wrote? && key in old(rows) ==> r.value.status == old(rows)[key].status && r.value.detail == old(rows)[key].detail
    {
      var open := CheckFence(leases, key.workItem, epoch, now);
      if !open { return LeaseLost; }
      rows := PersistStmt(rows, key, epoch, true, detail, clock);
      clock := clock + 1;
      r := Wrote(rows[key]);
    }

    method Merge(key: IntentKey, epoch: Option<nat>, patch: Detail, now: int) returns (r: Answer<Option<Intent>>)
      modifies this`rows
      ensures rows == MergeStmt(old(rows), key, epoch, FenceOpen(leases.rows, key.workItem, epoch, now), patch)
      ensures r.LeaseLost? <==> !FenceOpen(leases.rows, key.workItem, epoch, now)
      ensures r.Wrote? ==> r.value == MergeAnswer(old(rows), key, epoch, patch)
      ensures r.Wrote? && r.value.Some? ==> r.value.value == rows[key] && rows[key].status == Pending
    {
      var open := CheckFence(leases, key.workItem, epoch, now);
      if !open { return LeaseLost; }
      r := Wrote(MergeAnswer(rows, key, epoch, patch));
      rows := MergeStmt(rows, key, epoch, true, patch);
    }

    method ReleaseUnsent(key: IntentKey, epoch: nat)
      modifies this`rows
      ensures rows == ReleaseStmt(old(rows), key, epoch)
      ensures key in rows ==> !UnsentArmedBy(rows[key], epoch)
    {
      rows := ReleaseStmt(rows, key, epoch);
    }

    method Reconcile(key: IntentKey, status: Status, record: Option<nat>, epoch: Option<nat>, fenceOf: WorkItemId, patch: Detail, now: int)
      returns (r: Answer<Option<Intent>>)
      requires status != Pending
      modifies this`rows
      ensures rows == ReconcileStmt(old(rows), key, status, record, epoch, FenceOpen(leases.rows, fenceOf, epoch, now), patch)
      ensures r.LeaseLost? <==> !FenceOpen(leases.rows, fenceOf, epoch, now)
      ensures r.Wrote? ==> r.value == ReconcileAnswer(old(rows), key, status, record, epoch, true, patch)
      ensures r.Wrote? && r.value.Some? ==> r.value.value == rows[key] && (rows[key].status == status || rows[key].status == Reconciled)
    {
      var open := CheckFence(leases, fenceOf, epoch, now);
      if !open { return LeaseLost; }
      r := Wrote(ReconcileAnswer(rows, key, status, record, epoch, true, patch));
      rows := ReconcileStmt(rows, key, status, record, epoch, true, patch);
    }

    /** ORDER BY created_at LIMIT 1 over the join of the in-flight query. */
    method FindInFlight(items: Items, caller: IntentKey, now: int) returns (found: Option<IntentKey>)
      ensures FirstInFlight(rows, items, leases.rows, now, caller, found)
    {
      var keys := rows.Keys;
      found := None;
      while keys != {}
        invariant keys <= rows.Keys
        invariant found.Some? ==> BlocksCaller(rows, items, leases.rows, now, caller, found.value)
        invariant forall k :: k in rows && k !in keys && BlocksCaller(rows, items, leases.rows, now, caller, k) ==>
                    found.Some? && rows[found.value].createdAt <= rows[k].createdAt
        decreases |keys|
      {
        var k :| k in keys;
        if BlocksCaller(rows, items, leases.rows, now, caller, k)
           && (found == None || rows[k].createdAt < rows[found.value].createdAt) {
          found := Some(k);
        }
        keys := keys - {k};
      }
    }

    method ReconcileFromRecord(k: IntentKey, w: WorkItemId, records: map<IntentKey, nat>, epoch: Option<nat>, now: int,
                               ghost before: Rows, ghost done: set<IntentKey>)
      returns (lost: bool)
      requires rows == Swept(before, done, records, epoch) && k !in done
      requires k in before && before[k].status == Pending && k in records
      modifies this`rows
      ensures lost <==> !FenceOpen(leases.rows, w, epoch, now)
      ensures rows == if lost then old(rows) else Swept(before, done + {k}, records, epoch)
    {
      SweepOneMore(before, done, records, epoch, k);
      var row := Reconcile(k, Reconciled, Some(records[k]), epoch, w, FROM_RECORD, now);
      lost := row.LeaseLost?;
    }

    /** The loop body: the row is reconciled if a record was found for it. */
    method SweepRow(k: IntentKey, w: WorkItemId, epoch: Option<nat>, records: map<IntentKey, nat>, now: int,
                    ghost before: Rows, ghost done: set<IntentKey>)
      returns (lost: bool, wrote: bool)
      requires rows == Swept(before, done, records, epoch) && k !in done && k in before && before[k].status == Pending
      modifies this`rows
      ensures lost <==> k in records && !FenceOpen(leases.rows, w, epoch, now)
      ensures wrote <==> k in records && !lost
      ensures rows == if wrote then Swept(before, done + {k}, records, epoch) else old(rows)
    {
      lost, wrote := false, false;
      if k in records {
        lost := ReconcileFromRecord(k, w, records, epoch, now, before, done);
        wrote := !lost;
      }
    }

    /** Other sessions acquire, renew and release in between. */
    method Meanwhile(m: Moment)
      modifies leases
      ensures leases.rows == m.leases
    {
      leases.rows := m.leases;
    }

    method Oldest(keys: set<IntentKey>) returns (oldest: IntentKey)
      requires keys != {} && keys <= rows.Keys
      ensures oldest in keys && forall k :: k in keys ==> NotLater(rows, oldest, k)
    {
      var todo := keys;
      oldest :| oldest in keys;
      while todo != {}
        invariant todo <= keys && oldest in keys
        invariant forall k :: k in keys && k !in todo ==> NotLater(rows, oldest, k)
        decreases |todo|
      {
        var k :| k in todo;
        if rows[k].createdAt < rows[oldest].createdAt { oldest := k; }
        todo := todo - {k};
      }
    }

    /** ORDER BY created_at over the pending intents of the work item. */
    method ListPending(w: WorkItemId) returns (pending: seq<IntentKey>)
      ensures Listing(rows, w, pending) && |pending| == |PendingKeys(rows, w)|
    {
      var todo := PendingKeys(rows, w);
      pending := [];
      while todo != {}
        invariant todo <= PendingKeys(rows, w) && |pending| + |todo| == |PendingKeys(rows, w)|
        invariant forall k :: k in PendingKeys(rows, w) ==> (k in pending <==> k !in todo)
        invariant forall k :: k in pending ==> k in PendingKeys(rows, w)
        invariant forall i, j :: 0 <= i < j < |pending| ==> pending[i] != pending[j] && NotLater(rows, pending[i], pending[j])
        invariant forall i, k :: 0 <= i < |pending| && k in todo ==> NotLater(rows, pending[i], k)
        decreases |todo|
      {
        var k := Oldest(todo);
        pending, todo := pending + [k], todo - {k};
      }
    }

    /** One round of the loop, at the moment `m`. */
    method SweepNext(pending: seq<IntentKey>, i: nat, w: WorkItemId, epoch: Option<nat>, records: map<IntentKey, nat>, m: Moment, sofar: nat,
                     ghost before: Rows)
      returns (lost: bool, reconciled: nat)
      requires Listing(before, w, pending) && i < |pending| && SweptTo(before, rows, pending, i, records, epoch, sofar)
      modifies this`rows, leases
      ensures lost <==> pending[i] in records && !OpenAt(m, w, epoch)
      ensures lost ==> rows == old(rows) && reconciled == sofar
      ensures !lost ==> SweptTo(before, rows, pending, i + 1, records, epoch, reconciled)
    {
      Meanwhile(m);
      DoneOneMore(before, w, pending, i, records);
      var wrote;
      lost, wrote := SweepRow(pending[i], w, epoch, records, m.now, before, Done(pending, i, records));
      reconciled := if wrote then sofar + 1 else sofar;
    }

    /** The loop over the listed intents. Row i is written at the moment `at(i)`. */
    method SweepRows(pending: seq<IntentKey>, w: WorkItemId, epoch: Option<nat>, records: map<IntentKey, nat>, at: nat -> Moment)
      returns (lost: bool, reconciled: nat, ghost stop: nat)
      requires Listing(rows, w, pending)
      modifies this`rows, leases
      ensures stop <= |pending| && (lost <==> stop < |pending|)
      ensures OpenSoFar(pending, stop, records, at, w, epoch)
      ensures lost ==> pending[stop] in records && !OpenAt(at(stop), w, epoch)
      ensures SweptTo(old(rows), rows, pending, stop, records, epoch, reconciled)
    {
      ghost var before := rows;
      var i := 0;
      lost, reconciled, stop := false, 0, 0;
      NothingSwept(rows, pending, records, epoch);
      while i < |pending|
        invariant i <= |pending| && !lost && stop == i
        invariant OpenSoFar(pending, i, records, at, w, epoch)
        invariant SweptTo(before, rows, pending, i, records, epoch, reconciled)
      {
        lost, reconciled := SweepNext(pending, i, w, epoch, records, at(i), reconciled, before);
        if lost { return; }
        i, stop := i + 1, i + 1;
      }
    }

    /**
      reconcilePendingIntents.ts:132-165. `records` holds the completed publish record found for a key.
      Exactly the pending rows with a record are reconciled, oldest first, and the counts add up. Where
      the lease is found lost, the loop stops; what it wrote before stays written.
     */
    method ReconcilePending(w: WorkItemId, epoch: Option<nat>, records: map<IntentKey, nat>, at: nat -> Moment)
      returns (r: Answer<Sweep>, ghost pending: seq<IntentKey>, ghost stop: nat)
      modifies this`rows, leases
      ensures Listing(old(rows), w, pending) && stop <= |pending|
      ensures rows == Swept(old(rows), Done(pending, stop, records), records, epoch)
      ensures OpenSoFar(pending, stop, records, at, w, epoch)
      ensures r.LeaseLost? ==> stop < |pending| && pending[stop] in records && !OpenAt(at(stop), w, epoch)
      ensures r.Wrote? ==> stop == |pending| && Done(pending, stop, records) == CompletableKeys(old(rows), w, records)
      ensures r.Wrote? ==> r.value.reconciled == |CompletableKeys(old(rows), w, records)|
      ensures r.Wrote? ==> r.value.reconciled + r.value.stillPending == |PendingKeys(old(rows), w)|
      ensures r.Wrote? ==> r.value.stillPending == |PendingKeys(rows, w)|
    {
      var listed := ListPending(w);
      SweepCounts(rows, w, listed, records, epoch);
      var lost, reconciled;
      pending := listed;
      lost, reconciled, stop := SweepRows(listed, w, epoch, records, at);
      if lost { return LeaseLost, pending, stop; }
      r := Wrote(Sweep(reconciled, |listed| - reconciled));
    }

    /**
      Adopting a result that was found on the remote, publishOnce.ts:1152-1195. Only unleased asks call
      it, so nothing is fenced. A failed or reconciled intent is left as it is.
     */
    method Adopt(key: IntentKey, result: Json, extra: Detail, usable: bool)
      requires Unreserved(extra)
      modifies this
      ensures forall k :: k in old(rows) && k != key ==> k in rows && rows[k] == old(rows)[k]
      ensures key in old(rows) && (usable || old(rows)[key].status in {Failed, Reconciled}) ==> rows == old(rows)
      ensures key !in old(rows) ==> key in rows && rows[key].status == Pending
      ensures key !in old(rows) || (!usable && old(rows)[key].status in {Pending, OutcomeUnknown}) ==>
                key in rows && Result in rows[key].detail && rows[key].detail[Result] == result
      ensures key !in old(rows) ==> rows[key].detail == extra[Result := result] && rows[key].leaseEpoch.None? && rows[key].publishRecord.None?
      ensures key in old(rows) && !usable && old(rows)[key].status == Pending ==>
                rows[key] == old(rows)[key].(detail := (old(rows)[key].detail + extra)[Result := result])
      ensures key in old(rows) && !usable && old(rows)[key].status == OutcomeUnknown ==>
                rows[key] == old(rows)[key].(status := Reconciled,
                                             detail := (old(rows)[key].detail + extra)[Result := result][Other("recoveredAfterMutating") := JBool(true)])
      ensures key in old(rows) ==> key in rows
      ensures key in old(rows) && rows[key].status != old(rows)[key].status ==>
                old(rows)[key].status == OutcomeUnknown && rows[key].status == Reconciled
    {
      if key !in rows {
        rows := PersistStmt(rows, key, None, true, extra[Result := result], clock);
        clock := clock + 1;
      } else if usable {
      } else if rows[key].status == OutcomeUnknown {
        rows := ReconcileStmt(rows, key, Reconciled, None, None, true,
                              (map[Result := result] + extra)[Other("recoveredAfterMutating") := JBool(true)]);
      } else if rows[key].status == Pending {
        rows := MergeStmt(rows, key, None, true, map[Result := result] + extra);
      }
    }
  }
}

/** What a spent epoch can still write: nothing, over whole runs of the lease table. */
module Fencing {
  import opened Wrappers
  import opened Leases
  import opened Intents
  import opened IntentStores
  import LeaseRuns
  import WorkItems

  /**
    Once an execution's epoch was overtaken or given up, no write that it fences takes effect any more:
    neither of the three fenced intent statements, nor a transition of its work item.
   */
  lemma SpentEpochsWriteNothing(own: LeaseRuns.OwnKeys, t: Table, now: int, steps: seq<LeaseRuns.Step>, w: WorkItemId, epoch: nat,
                                rows: Rows, key: IntentKey, detail: Detail, clock: nat, status: Status, record: Option<nat>,
                                items: WorkItems.Items, op: WorkItems.Operation)
    requires LeaseRuns.AtHome(own, t) && LeaseRuns.OwnRun(own, steps) && w in own && LeaseRuns.Spent(t, own[w], w, epoch)
    requires WorkItems.SpecOf(op).fence == Some(epoch) && !op.Claim?
    ensures var end := LeaseRuns.Run(t, now, steps);
            var open := FenceOpen(end.0, w, Some(epoch), end.1);
            && PersistStmt(rows, key, Some(epoch), open, detail, clock) == rows
            && MergeStmt(rows, key, Some(epoch), open, detail) == rows
            && ReconcileStmt(rows, key, status, record, Some(epoch), open, detail) == rows
            && WorkItems.Transitioned(items, w, op, end.0, end.1) == items
  {
    LeaseRuns.SpentForever(own, t, now, steps, w, epoch);
  }
}

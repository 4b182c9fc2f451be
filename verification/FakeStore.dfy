/**
  The in-memory intent store (src/agentWork/fakePublishStore.ts) against the SQL statements: a map of
  stored objects that are updated in place, and a counter for a clock.
 */
module FakeStores {
  import opened Wrappers
  import opened Leases
  import opened Intents
  import opened IntentStores

  class StoredIntent {
    var status: Status
    var publishRecord: Option<nat>
    var leaseEpoch: Option<nat>
    var detail: Detail
    const createdAtMs: nat
    var updatedAtMs: nat

    constructor (epoch: Option<nat>, detail: Detail, now: nat)
      ensures Row() == Intent(Pending, None, epoch, detail, now)
      ensures createdAtMs == now
    {
      status, publishRecord, leaseEpoch := Pending, None, epoch;
      this.detail := detail;
      createdAtMs, updatedAtMs := now, now;
    }

    /** toRow: the caller gets a value, never the stored object. */
    function Row(): Intent
      reads this
    {
      Intent(status, publishRecord, leaseEpoch, detail, createdAtMs)
    }

    /** The test of the in-memory release, in the order of the code. */
    method IsUnsentArmedBy(epoch: nat) returns (unsent: bool)
      ensures unsent <==> UnsentArmedBy(Row(), epoch)
    {
      if status != Pending || !IsTrue(detail, Mutating) || !IsFalse(detail, SendStarted) { return false; }
      if MutatingEpoch !in detail || detail[MutatingEpoch] != JNum(epoch) || Result in detail { return false; }
      unsent := true;
    }

    method Touch(epoch: Option<nat>, now: nat)
      modifies this
      ensures Row() == old(Row()).(leaseEpoch := OrElse(epoch, old(leaseEpoch)))
    {
      if epoch.Some? { leaseEpoch := epoch; }
      updatedAtMs := now;
    }

    method Settle(epoch: Option<nat>, status: Status, record: Option<nat>, patch: Detail, now: nat)
      modifies this
      ensures Row() == old(Row()).(status := status, publishRecord := OrElse(record, old(publishRecord)),
                                   leaseEpoch := OrElse(epoch, old(leaseEpoch)), detail := old(detail) + patch)
    {
      Touch(epoch, now);
      this.status := status;
      if record.Some? { publishRecord := record; }
      Patch(patch, now);
    }

    method Disarm(now: nat)
      modifies this
      ensures Row() == old(Row()).(detail := old(detail)[Mutating := JBool(false)])
    {
      detail := detail[Mutating := JBool(false)];
      updatedAtMs := now;
    }

    method Patch(patch: Detail, now: nat)
      modifies this
      ensures Row() == old(Row()).(detail := old(detail) + patch)
    {
      detail := detail + patch;
      updatedAtMs := now;
    }
  }

  /** The filter of the in-memory in-flight query. It knows no lease table, only the caller's stored epoch. */
  predicate FakeBlocks(rows: Rows, caller: IntentKey, k: IntentKey) {
    && k in rows
    && InFlight(rows[k])
    && var liveEpoch := if caller in rows then rows[caller].leaseEpoch else None;
    && !(&& IsFalse(rows[k].detail, SendStarted)
         && MutatingEpoch in rows[k].detail && rows[k].detail[MutatingEpoch].JNum?
         && liveEpoch.Some? && rows[k].detail[MutatingEpoch].n != liveEpoch.value)
    && (if k.workItem == caller.workItem then k == caller else liveEpoch.Some?)
  }

  ghost predicate FakeFirst(rows: Rows, caller: IntentKey, found: Option<IntentKey>) {
    match found
    case None => forall k :: k in rows ==> !FakeBlocks(rows, caller, k)
    case Some(first) =>
      && FakeBlocks(rows, caller, first)
      && forall k :: k in rows && FakeBlocks(rows, caller, k) ==> rows[first].createdAt <= rows[k].createdAt
  }

  class FakeStore {
    var rows: map<IntentKey, StoredIntent>
    var clockMs: nat
    const leases: LeaseTable

    /** The rows that the stored objects stand for. */
    ghost var view: Rows

    /** Every key has an object of its own, and the creation times are distinct. */
    ghost predicate Valid()
      reads this, rows.Values
    {
      && view.Keys == rows.Keys
      && (forall k :: k in rows ==> rows[k].Row() == view[k] && view[k].createdAt <= clockMs)
      && (forall k, k' :: k in rows && k' in rows && k != k' ==> rows[k] != rows[k'] && view[k].createdAt != view[k'].createdAt)
    }

    /** The view follows one stored object that was updated in place. */
    ghost method Follow(key: IntentKey)
      requires key in rows && view.Keys == rows.Keys
      requires rows[key].createdAtMs == view[key].createdAt
      requires forall k :: k in rows && k != key ==> rows[k].Row() == view[k]
      requires forall k :: k in rows ==> view[k].createdAt <= clockMs
      requires forall k, k' :: k in rows && k' in rows && k != k' ==> rows[k] != rows[k'] && view[k].createdAt != view[k'].createdAt
      modifies this`view
      ensures Valid() && view == old(view)[key := rows[key].Row()]
    {
      view := view[key := rows[key].Row()];
    }

    constructor (leases: LeaseTable)
      ensures Valid() && view == map[] && this.leases == leases
    {
      rows, view, clockMs, this.leases := map[], map[], 1, leases;
    }

    /** A new object of the present moment takes its place under a new key. */
    method Add(key: IntentKey, stored: StoredIntent)
      requires Valid() && key !in rows && stored.createdAtMs == clockMs
      requires forall k :: k in rows ==> rows[k] != stored && view[k].createdAt < clockMs
      modifies this`rows, this`view
      ensures Valid() && rows == old(rows)[key := stored] && view == old(view)[key := stored.Row()]
    {
      rows := rows[key := stored];
      view := view[key := stored.Row()];
    }

    method PersistNew(key: IntentKey, epoch: Option<nat>, detail: Detail)
      requires Valid() && key !in rows
      modifies this
      ensures Valid() && key in rows && fresh(rows[key]) && rows == old(rows)[key := rows[key]]
      ensures view == old(view)[key := Intent(Pending, None, epoch, detail, old(clockMs) + 1)]
    {
      clockMs := clockMs + 1;
      var stored := new StoredIntent(epoch, detail, clockMs);
      Add(key, stored);
    }

    method PersistAgain(key: IntentKey, epoch: Option<nat>)
      requires Valid() && key in rows
      modifies this`clockMs, this`view, rows.Values
      ensures Valid()
      ensures view == old(view)[key := old(view)[key].(leaseEpoch := OrElse(epoch, old(view)[key].leaseEpoch))]
    {
      clockMs := clockMs + 1;
      rows[key].Touch(epoch, clockMs);
      Follow(key);
    }

    method PersistWrite(key: IntentKey, epoch: Option<nat>, detail: Detail) returns (r: Intent)
      requires Valid()
      modifies this, rows.Values
      ensures Valid()
      ensures forall k :: k in rows ==> fresh(rows[k]) || (k in old(rows) && rows[k] == old(rows)[k])
      ensures view == PersistStmt(old(view), key, epoch, true, detail, old(clockMs) + 1)
      ensures key in view && r == view[key]
    {
      if key in rows { PersistAgain(key, epoch); } else { PersistNew(key, epoch, detail); }
      r := rows[key].Row();
    }

    method Persist(key: IntentKey, epoch: Option<nat>, detail: Detail, now: int) returns (r: Answer<Intent>)
      requires Valid()
      modifies this, rows.Values
      ensures Valid()
      ensures forall k :: k in rows ==> fresh(rows[k]) || (k in old(rows) && rows[k] == old(rows)[k])
      ensures view == PersistStmt(old(view), key, epoch, FenceOpen(leases.rows, key.workItem, epoch, now), detail, old(clockMs) + 1)
      ensures r.Wrote? <==> FenceOpen(leases.rows, key.workItem, epoch, now)
      ensures r.Wrote? ==> key in view && r.value == view[key]
    {
      var open := CheckFence(leases, key.workItem, epoch, now);
      if !open { return LeaseLost; }
      var row := PersistWrite(key, epoch, detail);
      r := Wrote(row);
    }

    method MergeWrite(key: IntentKey, epoch: Option<nat>, patch: Detail) returns (r: Option<Intent>)
      requires Valid()
      modifies this`clockMs, this`view, rows.Values
      ensures Valid()
      ensures view == MergeStmt(old(view), key, epoch, true, patch)
      ensures r == MergeAnswer(old(view), key, epoch, patch)
    {
      if key !in rows || (rows[key].status != Pending && rows[key].status != Failed) {
        return None;
      }
      var existing := rows[key];
      clockMs := clockMs + 1;
      if existing.status == Failed { existing.status := Pending; }
      existing.Touch(epoch, clockMs);
      existing.Patch(patch, clockMs);
      Follow(key);
      r := Some(existing.Row());
    }

    method Merge(key: IntentKey, epoch: Option<nat>, patch: Detail, now: int) returns (r: Answer<Option<Intent>>)
      requires Valid()
      modifies this`clockMs, this`view, rows.Values
      ensures Valid()
      ensures view == MergeStmt(old(view), key, epoch, FenceOpen(leases.rows, key.workItem, epoch, now), patch)
      ensures r.LeaseLost? <==> !FenceOpen(leases.rows, key.workItem, epoch, now)
      ensures r.Wrote? ==> r.value == MergeAnswer(old(view), key, epoch, patch)
    {
      var open := CheckFence(leases, key.workItem, epoch, now);
      if !open { return LeaseLost; }
      var row := MergeWrite(key, epoch, patch);
      r := Wrote(row);
    }

    method ReleaseUnsent(key: IntentKey, epoch: nat)
      requires Valid()
      modifies this`clockMs, this`view, rows.Values
      ensures Valid()
      ensures view == ReleaseStmt(old(view), key, epoch)
    {
      if key !in rows { return; }
      var existing := rows[key];
      var unsent := existing.IsUnsentArmedBy(epoch);
      if !unsent { return; }
      clockMs := clockMs + 1;
      existing.Disarm(clockMs);
      Follow(key);
    }

    method ReconcileWrite(key: IntentKey, status: Status, record: Option<nat>, epoch: Option<nat>, patch: Detail) returns (r: Option<Intent>)
      requires Valid() && status != Pending
      modifies this`clockMs, this`view, rows.Values
      ensures Valid()
      ensures view == ReconcileStmt(old(view), key, status, record, epoch, true, patch)
      ensures r == ReconcileAnswer(old(view), key, status, record, epoch, true, patch)
    {
      if key !in rows { return None; }
      var existing := rows[key];
      if !MayBecome(existing.status, status) {
        if existing.status == Reconciled && (status == OutcomeUnknown || status == Failed) {
          return Some(existing.Row());
        }
        return None;
      }
      clockMs := clockMs + 1;
      existing.Settle(epoch, status, record, patch, clockMs);
      Follow(key);
      r := Some(existing.Row());
    }

    method Reconcile(key: IntentKey, status: Status, record: Option<nat>, epoch: Option<nat>, fenceOf: WorkItemId, patch: Detail, now: int)
      returns (r: Answer<Option<Intent>>)
      requires Valid() && status != Pending
      modifies this`clockMs, this`view, rows.Values
      ensures Valid()
      ensures view == ReconcileStmt(old(view), key, status, record, epoch, FenceOpen(leases.rows, fenceOf, epoch, now), patch)
      ensures r.LeaseLost? <==> !FenceOpen(leases.rows, fenceOf, epoch, now)
      ensures r.Wrote? ==> r.value == ReconcileAnswer(old(view), key, status, record, epoch, true, patch)
    {
      var open := CheckFence(leases, fenceOf, epoch, now);
      if !open { return LeaseLost; }
      var row := ReconcileWrite(key, status, record, epoch, patch);
      r := Wrote(row);
    }

    /** The filter's test of one stored object, in the order of the code. */
    method Blocks(caller: IntentKey, k: IntentKey) returns (blocks: bool)
      requires Valid() && k in rows
      ensures blocks <==> FakeBlocks(view, caller, k)
    {
      var liveEpoch := if caller in rows then rows[caller].leaseEpoch else None;
      var row := rows[k].Row();
      var d := row.detail;
      if row.status != Pending || !IsTrue(d, Mutating) { return false; }
      if Result in d { return false; }
      if IsFalse(d, SendStarted) && MutatingEpoch in d && d[MutatingEpoch].JNum? && liveEpoch.Some? && d[MutatingEpoch].n != liveEpoch.value {
        return false;
      }
      if k.workItem == caller.workItem { return k == caller; }
      blocks := liveEpoch.Some?;
    }

    /** k passes the filter and comes before what was found so far. */
    method ComesFirst(caller: IntentKey, k: IntentKey, found: Option<IntentKey>) returns (first: bool)
      requires Valid() && k in rows && (found.Some? ==> found.value in rows)
      ensures first <==> FakeBlocks(view, caller, k) && (found.Some? ==> view[k].createdAt < view[found.value].createdAt)
    {
      var blocks := Blocks(caller, k);
      first := blocks && (found.Some? ==> rows[k].Row().createdAt < rows[found.value].Row().createdAt);
    }

    method FindInFlight(caller: IntentKey) returns (found: Option<IntentKey>)
      requires Valid()
      ensures FakeFirst(view, caller, found)
    {
      var keys := rows.Keys;
      found := None;
      while keys != {}
        invariant keys <= rows.Keys
        invariant found.Some? ==> found.value in rows
        invariant FakeFirstBefore(view, caller, keys, found)
        decreases |keys|
      {
        var k :| k in keys;
        var first := ComesFirst(caller, k, found);
        OneMoreRow(view, caller, keys, found, k);
        if first { found := Some(k); }
        keys := keys - {k};
      }
    }
  }

  /** What was found is an oldest blocking row among those no longer to be looked at. */
  ghost predicate FakeFirstBefore(rows: Rows, caller: IntentKey, todo: set<IntentKey>, found: Option<IntentKey>) {
    && (found.Some? ==> FakeBlocks(rows, caller, found.value))
    && forall k :: k in rows && k !in todo && FakeBlocks(rows, caller, k) ==> found.Some? && rows[found.value].createdAt <= rows[k].createdAt
  }

  lemma OneMoreRow(rows: Rows, caller: IntentKey, todo: set<IntentKey>, found: Option<IntentKey>, k: IntentKey)
    requires FakeFirstBefore(rows, caller, todo, found)
    ensures var first := FakeBlocks(rows, caller, k) && (found.Some? ==> rows[k].createdAt < rows[found.value].createdAt);
            FakeFirstBefore(rows, caller, todo - {k}, if first then Some(k) else found)
  {
  }

  // ----- The two in-flight queries -----

  /** The caller works on this surface, and its stored epoch is the one whose lease it holds there. */
  predicate CallerOn(rows: Rows, items: Items, leases: Table, now: int, caller: IntentKey, surface: LeaseKey) {
    && caller in rows && rows[caller].leaseEpoch.Some?
    && On(items, caller, surface)
    && HeldAt(leases, surface, caller.workItem, rows[caller].leaseEpoch.value, now)
  }

  predicate On(items: Items, k: IntentKey, surface: LeaseKey) { k.workItem in items && items[k.workItem] == surface }

  /** The SQL filter is the in-memory one restricted to the caller's surface. */
  lemma BlocksExactlyOnSurface(rows: Rows, items: Items, leases: Table, now: int, caller: IntentKey, surface: LeaseKey, k: IntentKey)
    requires CallerOn(rows, items, leases, now, caller, surface)
    ensures BlocksCaller(rows, items, leases, now, caller, k) <==> FakeBlocks(rows, caller, k) && On(items, k, surface)
  {
  }

  predicate DistinctTimes(rows: Rows) {
    forall k, k' :: k in rows && k' in rows && k != k' ==> rows[k].createdAt != rows[k'].createdAt
  }

  /**
    The two queries answer the same exactly when no row blocks in memory, or the oldest row that does is
    on the caller's surface.
   */
  lemma SameAnswerExactly(rows: Rows, items: Items, leases: Table, now: int, caller: IntentKey, surface: LeaseKey,
                          fake: Option<IntentKey>, sql: Option<IntentKey>)
    requires CallerOn(rows, items, leases, now, caller, surface) && DistinctTimes(rows)
    requires FakeFirst(rows, caller, fake) && FirstInFlight(rows, items, leases, now, caller, sql)
    ensures fake == sql <==> fake.None? || On(items, fake.value, surface)
  {
    forall k ensures BlocksCaller(rows, items, leases, now, caller, k) <==> FakeBlocks(rows, caller, k) && On(items, k, surface) {
      BlocksExactlyOnSurface(rows, items, leases, now, caller, surface, k);
    }
    if fake.Some? && sql.Some? && On(items, fake.value, surface) {
      assert rows[fake.value].createdAt == rows[sql.value].createdAt;
    }
  }

  /** In particular they agree while all intents live on one surface. */
  lemma SameInFlightAnswer(rows: Rows, items: Items, leases: Table, now: int, caller: IntentKey, surface: LeaseKey,
                           fake: Option<IntentKey>, sql: Option<IntentKey>)
    requires CallerOn(rows, items, leases, now, caller, surface) && DistinctTimes(rows)
    requires forall k :: k in rows ==> On(items, k, surface)
    requires FakeFirst(rows, caller, fake) && FirstInFlight(rows, items, leases, now, caller, sql)
    ensures fake == sql
  {
    SameAnswerExactly(rows, items, leases, now, caller, surface, fake, sql);
  }

  /** Off one surface they can differ: the in-memory query answers an intent of another resource, SQL none. */
  lemma OtherSurfacesDiffer(here: LeaseKey, there: LeaseKey, caller: IntentKey, k: IntentKey)
    returns (rows: Rows, items: Items, leases: Table)
    requires here != there && caller.workItem != k.workItem
    ensures CallerOn(rows, items, leases, 0, caller, here) && DistinctTimes(rows)
    ensures FakeFirst(rows, caller, Some(k)) && FirstInFlight(rows, items, leases, 0, caller, None)
  {
    items := map[caller.workItem := here, k.workItem := there];
    leases := map[here := Row(1, Some(caller.workItem), 10)];
    rows := map[caller := Intent(Pending, None, Some(1), map[], 0),
                k := Intent(Pending, None, Some(1), map[Mutating := JBool(true), SendStarted := JBool(true)], 1)];
    assert FakeBlocks(rows, caller, k) && !FakeBlocks(rows, caller, caller);
  }
}

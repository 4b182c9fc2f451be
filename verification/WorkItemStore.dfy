/**
  Work items and their leases as two tables that the operations update together: claiming
  (leasedExecution.ts), attempts and cancellation (workItemStateRepository.ts), supersession
  (autoWorkEnqueue.ts).
 */
module WorkItemStores {
  import opened Wrappers
  import opened Leases
  import opened WorkItems

  datatype ClaimResult = Claimed(epoch: nat, attempts: nat, resumed: bool) | HeldByOther(holder: Option<WorkItemId>, epoch: nat) | NotClaimable

  datatype BeginResult = Begun(attempt: Attempt) | NotHeld

  datatype CancelResult = Answer(cancelled: bool) | LeaseLost

  /** Steps other executions and timers may take between two statements. */
  datatype Interference =
    | OtherTransit(w: WorkItemId, op: Operation)
    | OtherAttempt(w: WorkItemId, limit: nat)
    | OtherAcquire(key: LeaseKey, w: WorkItemId, ttl: nat)
    | OtherRenew(key: LeaseKey, w: WorkItemId, epoch: nat, ttl: nat)
    | OtherRelease(key: LeaseKey, epoch: nat)
    | TimePasses(delta: nat)

  /** What interference can do to the items: none disappears, and a terminal one stays as it is. */
  predicate Evolved(items: Items, items': Items) {
    forall w :: w in items ==> w in items' && (Terminal(items[w].status) ==> items'[w] == items[w])
  }

  /** Number(execution_epoch): null reads as 0. */
  function EpochNumber(epoch: Option<nat>): nat { epoch.GetOr(0) }

  /** A running item that a cancellation can reach: its execution still holds its lease. */
  predicate Reachable(item: Item, w: WorkItemId, leases: Table, now: int) {
    item.status == Running && EpochNumber(item.epoch) > 0 && Held(leases, w, EpochNumber(item.epoch), now)
  }

  /** The answer of an undisturbed cancellation. */
  function CancelVerdict(item: Item, w: WorkItemId, leases: Table, now: int): CancelResult {
    if item.status == Running && EpochNumber(item.epoch) > 0 && !Reachable(item, w, leases, now) then LeaseLost
    else Answer(item.status == Queued || item.status == Cancelled || Reachable(item, w, leases, now))
  }

  function SupersededItems(items: Items, key: LeaseKey, preserved: set<WorkItemId>): Items {
    map w | w in items ::
      if items[w].key == key && items[w].auto && items[w].status == Queued && w !in preserved then After(items[w], SpecOf(SupersedeQueued(false)))
      else if items[w].key == key && items[w].auto && items[w].status == Running then After(items[w], SpecOf(SupersedeRunning))
      else items[w]
  }

  /** The (work item, epoch) pairs of the superseded rows whose stored epoch is positive. */
  function HoldersOf(items: Items, items': Items): set<Holder> {
    set w | w in items && w in items' && items'[w].status != items[w].status && EpochNumber(items[w].epoch) > 0 :: Holder(w, EpochNumber(items[w].epoch))
  }

  /** An item that supersession of the key takes. */
  predicate Taken(items: Items, key: LeaseKey, preserved: set<WorkItemId>, w: WorkItemId) {
    && w in items && items[w].key == key && items[w].auto
    && (items[w].status == Running || (items[w].status == Queued && w !in preserved))
  }

  lemma TakenAreSuperseded(items: Items, key: LeaseKey, preserved: set<WorkItemId>, w: WorkItemId)
    requires w in items
    ensures var after := SupersededItems(items, key, preserved)[w];
            && (after.status != items[w].status <==> Taken(items, key, preserved, w))
            && after == if !Taken(items, key, preserved, w) then items[w]
                        else items[w].(status := Superseded, cancelRequested := items[w].cancelRequested || items[w].status == Running)
  {
  }

  /** Releasing the superseded pairs ends exactly the leases those executions hold. */
  lemma SupersededLoseTheirLease(leases: Table, key: LeaseKey, before: Items, after: Items, now: int, w: WorkItemId)
    requires w in before && w in after && after[w].status != before[w].status && EpochNumber(before[w].epoch) > 0
    ensures !HeldAt(ReleaseHolders(leases, key, HoldersOf(before, after), now), key, w, EpochNumber(before[w].epoch), now)
  {
    assert Holder(w, EpochNumber(before[w].epoch)) in HoldersOf(before, after);
  }

  lemma OthersKeepTheirLease(leases: Table, key: LeaseKey, before: Items, after: Items, now: int, k: LeaseKey, h: Holder)
    requires k in leases && leases[k].holder == Some(h.workItem)
    requires !(h.workItem in before && h.workItem in after && after[h.workItem].status != before[h.workItem].status)
    ensures ReleaseHolders(leases, key, HoldersOf(before, after), now)[k] == leases[k]
  {
    assert forall h' :: h' in HoldersOf(before, after) ==> h'.workItem in before && h'.workItem in after && after[h'.workItem].status != before[h'.workItem].status;
  }

  class WorkItemStore {
    var items: Items
    var now: int
    const leases: LeaseTable

    constructor (leases: LeaseTable, now: int)
      ensures items == map[] && this.now == now && this.leases == leases
    {
      items, this.now, this.leases := map[], now, leases;
    }

    method Transition(w: WorkItemId, op: Operation) returns (changed: bool)
      modifies this`items
      ensures items == Transitioned(old(items), w, op, leases.rows, now)
      ensures changed <==> Applies(old(items), w, op, leases.rows, now)
    {
      if w !in items { return false; }
      var item, spec := items[w], SpecOf(op);
      if item.status !in spec.from || (spec.unlessCancelRequested && item.cancelRequested) || !Meets(item, spec.where) { return false; }
      if spec.fence.Some? && spec.executionEpoch.None? {
        var held := leases.IsHeld(w, spec.fence.value, now);
        if !held { return false; }
      }
      items := items[w := After(item, spec)];
      changed := true;
    }

    /** Acquire, claim, and release again when the item cannot be claimed: one transaction. */
    method AcquireAndClaim(key: LeaseKey, w: WorkItemId, ttl: nat) returns (r: ClaimResult)
      modifies this`items, leases
      ensures r.Claimed? ==>
                && w in old(items) && old(items)[w].status in {Queued, Running} && !old(items)[w].cancelRequested
                && items == old(items)[w := old(items)[w].(status := Running, started := true, epoch := Some(r.epoch))]
                && leases.rows == AcquireRow(old(leases.rows), key, w, now, ttl)
                && leases.rows[key].epoch == r.epoch && leases.rows[key].holder == Some(w)
                && r.resumed == (old(items)[w].status == Running) && r.attempts == old(items)[w].attempts
      ensures r.HeldByOther? ==> items == old(items) && leases.rows == old(leases.rows) && !Available(leases.rows, key, now)
      ensures r.NotClaimable? ==>
                && items == old(items) && !(w in items && items[w].status in {Queued, Running} && !items[w].cancelRequested)
                && key in leases.rows && leases.rows[key].holder == None
                && leases.rows == old(leases.rows)[key := leases.rows[key]]
                && (key in old(leases.rows) ==> leases.rows[key].epoch == old(leases.rows)[key].epoch + 1)
    {
      var acquisition := leases.Acquire(key, w, now, ttl);
      if acquisition.Refused? { return HeldByOther(acquisition.heldBy, acquisition.epoch); }
      var resumed := w in items && items[w].status == Running;
      var claimed := Transition(w, Claim(Some(acquisition.epoch)));
      if !claimed {
        leases.Release(key, acquisition.epoch, now);
        return NotClaimable;
      }
      r := Claimed(acquisition.epoch, items[w].attempts, resumed);
    }

    method BeginAttempt(w: WorkItemId, leaseEpoch: Option<nat>, limit: nat) returns (r: BeginResult)
      modifies this`items
      ensures r.NotHeld? <==> leaseEpoch.Some? && !Held(leases.rows, w, leaseEpoch.value, now)
      ensures r.NotHeld? ==> items == old(items)
      ensures r.Begun? ==> (items, r.attempt) == AttemptBegun(old(items), w, limit)
      ensures w in items && w in old(items) ==> items[w].attempts <= if old(items)[w].attempts < limit then limit else old(items)[w].attempts
    {
      if leaseEpoch.Some? {
        var held := leases.IsHeld(w, leaseEpoch.value, now);
        if !held { return NotHeld; }
      }
      if w !in items || items[w].status != Running || items[w].cancelRequested { return Begun(Unavailable); }
      if items[w].attempts >= limit { return Begun(Exhausted(items[w].attempts)); }
      items := items[w := items[w].(attempts := items[w].attempts + 1)];
      r := Begun(Started(items[w].attempts));
    }

    method Interfere(steps: seq<Interference>)
      modifies this, leases
      ensures Evolved(old(items), items)
      ensures steps == [] ==> items == old(items) && leases.rows == old(leases.rows) && now == old(now)
    {
      var i := 0;
      while i < |steps|
        invariant 0 <= i <= |steps|
        invariant Evolved(old(items), items)
        invariant i == 0 ==> items == old(items) && leases.rows == old(leases.rows) && now == old(now)
      {
        match steps[i] {
          case OtherTransit(w, op) => var _ := Transition(w, op);
          case OtherAttempt(w, limit) => items := AttemptBegun(items, w, limit).0;
          case OtherAcquire(key, w, ttl) => var _ := leases.Acquire(key, w, now, ttl);
          case OtherRenew(key, w, epoch, ttl) => var _ := leases.Renew(key, w, epoch, now, ttl);
          case OtherRelease(key, epoch) => leases.Release(key, epoch, now);
          case TimePasses(delta) => now := now + delta;
        }
        i := i + 1;
      }
    }

    /** One cancelling statement; `hit` is the item it changed. */
    method TryCancel(w: WorkItemId, op: Operation) returns (changed: bool, ghost hit: Option<Item>)
      requires op.CancelQueued? || op.CancelQueuedAt? || op.CancelExecution?
      modifies this`items
      ensures items == Transitioned(old(items), w, op, leases.rows, now) && Evolved(old(items), items)
      ensures changed <==> Applies(old(items), w, op, leases.rows, now)
      ensures changed ==> w in items && items[w].status == Cancelled && w in old(items) && hit == Some(old(items)[w])
      ensures changed ==> hit.value.status in {Queued, Running} && (!op.CancelExecution? ==> hit.value.status == Queued)
      ensures changed && op.CancelQueuedAt? ==> hit.value.epoch == op.epoch
      ensures changed && op.CancelExecution? ==> hit.value.epoch == Some(op.at)
      ensures !changed ==> hit == None && items == old(items)
    {
      hit := if Applies(items, w, op, leases.rows, now) then Some(items[w]) else None;
      changed := Transition(w, op);
    }

    /** The locked transaction at the end: the execution is cancelled only under the epoch it was seen with. */
    method CancelUnderLock(w: WorkItemId, epoch: nat, beforeLock: seq<Interference>, afterLock: seq<Interference>)
      returns (r: CancelResult, ghost hit: Option<Item>)
      requires w in items && epoch > 0
      modifies this, leases
      ensures Evolved(old(items), items)
      ensures r == Answer(true) ==> w in items && items[w].status == Cancelled && items[w].epoch == Some(epoch)
      ensures hit.Some? ==> r == Answer(true) && hit.value.status in {Queued, Running} && hit.value.epoch == Some(epoch)
      ensures beforeLock == [] && afterLock == [] && old(items)[w].status == Running && old(items)[w].epoch == Some(epoch) ==>
                && r == (if old(Held(leases.rows, w, epoch, now)) then Answer(true) else LeaseLost)
                && items == (if r == Answer(true) then old(items)[w := old(items)[w].(status := Cancelled, cancelRequested := true)] else old(items))
                && leases.rows == old(leases.rows)
    {
      hit := None;
      Interfere(beforeLock);
      var held := leases.IsHeld(w, epoch, now);
      if !held { return LeaseLost, hit; }
      Interfere(afterLock);
      var changed;
      changed, hit := TryCancel(w, CancelExecution(epoch));
      if changed { return Answer(true), hit; }
      r := Answer(items[w].status == Cancelled && items[w].epoch == Some(epoch));
    }

    /**
      markQueuedWorkCancelled, with arbitrary interference `gaps[i]` between its statements. The ghost
      results record the two reads, and the item as it was when a write after the first read changed it.
      It answers true only if the item is cancelled. After its first read it cancels only an execution
      under the epoch it captured: the first read's, or, when that was none, still none or the second
      read's. Left alone, it cancels a queued item, and a running one whose lease is held.
     */
    method MarkQueuedWorkCancelled(w: WorkItemId, gaps: seq<seq<Interference>>)
      returns (r: CancelResult, ghost first: Option<Item>, ghost second: Option<Item>, ghost hit: Option<Item>)
      requires |gaps| == 5
      modifies this, leases
      ensures r == Answer(true) ==> w in items && items[w].status == Cancelled
      ensures hit.Some? ==> first.Some? && hit.value.status in {Queued, Running} && r == Answer(true)
      ensures hit.Some? && EpochNumber(first.value.epoch) > 0 ==> hit.value.epoch == first.value.epoch
      ensures hit.Some? && EpochNumber(first.value.epoch) == 0 ==>
                || (hit.value.status == Queued && hit.value.epoch == first.value.epoch)
                || (second.Some? && EpochNumber(second.value.epoch) > 0 && hit.value.epoch == second.value.epoch)
      ensures gaps == [[], [], [], [], []] ==>
                && r == (if w !in old(items) then Answer(false) else CancelVerdict(old(items)[w], w, old(leases.rows), old(now)))
                && items == (if w in old(items) && r == Answer(true) && old(items)[w].status != Cancelled
                             then old(items)[w := old(items)[w].(status := Cancelled, cancelRequested := true)] else old(items))
                && leases.rows == old(leases.rows)
    {
      first, second, hit := None, None, None;
      var changed;
      ghost var direct;
      changed, direct := TryCancel(w, CancelQueued);
      if changed { return Answer(true), first, second, hit; }
      Interfere(gaps[0]);
      if w !in items { return Answer(false), first, second, hit; }
      var target := items[w];
      first := Some(target);
      if target.status == Cancelled { return Answer(true), first, second, hit; }
      if target.status == Queued {
        r, second, hit := CancelSeenQueued(w, target, gaps[1], gaps[2], gaps[3], gaps[4]);
        return;
      }
      var epoch := EpochNumber(target.epoch);
      if target.status != Running || epoch == 0 { return Answer(false), first, second, hit; }
      r, hit := CancelUnderLock(w, epoch, gaps[3], gaps[4]);
    }

    /** The rest of the cancellation when the first read saw the item queued. */
    method CancelSeenQueued(w: WorkItemId, seen: Item, g1: seq<Interference>, g2: seq<Interference>, g3: seq<Interference>, g4: seq<Interference>)
      returns (r: CancelResult, ghost second: Option<Item>, ghost hit: Option<Item>)
      requires w in items && items[w] == seen && seen.status == Queued
      modifies this, leases
      ensures r == Answer(true) ==> w in items && items[w].status == Cancelled
      ensures hit.Some? ==> r == Answer(true) && hit.value.status in {Queued, Running}
      ensures hit.Some? && EpochNumber(seen.epoch) > 0 ==> hit.value.epoch == seen.epoch
      ensures hit.Some? && EpochNumber(seen.epoch) == 0 ==>
                || (hit.value.status == Queued && hit.value.epoch == seen.epoch)
                || (second.Some? && EpochNumber(second.value.epoch) > 0 && hit.value.epoch == second.value.epoch)
      ensures g1 == [] ==> r == Answer(true)
    {
      second, hit := None, None;
      var observed := EpochNumber(seen.epoch);
      Interfere(g1);
      var changed;
      changed, hit := TryCancel(w, CancelQueuedAt(seen.epoch));
      if changed { return Answer(true), second, hit; }
      Interfere(g2);
      var target := items[w];
      second := Some(target);
      if observed > 0 && EpochNumber(target.epoch) != observed { return Answer(false), second, hit; }
      if target.status == Cancelled { return Answer(true), second, hit; }
      var epoch := if observed > 0 then observed else EpochNumber(target.epoch);
      if target.status != Running || epoch == 0 { return Answer(false), second, hit; }
      r, hit := CancelUnderLock(w, epoch, g3, g4);
    }

    /**
      supersedeActiveAutoWork: the superseded executions lose their lease in the same transaction, and
      nobody else does.
     */
    method SupersedeActiveAutoWork(key: LeaseKey, preserved: set<WorkItemId>) returns (superseded: set<WorkItemId>)
      modifies this`items, leases
      ensures superseded <= items.Keys == old(items).Keys && forall w :: w in superseded <==> Taken(old(items), key, preserved, w)
      ensures forall w :: w in items ==>
                items[w] == if w !in superseded then old(items)[w]
                            else old(items)[w].(status := Superseded,
                                                cancelRequested := old(items)[w].cancelRequested || old(items)[w].status == Running)
      ensures leases.rows == ReleaseHolders(old(leases.rows), key, HoldersOf(old(items), items), now)
      ensures forall w :: w in superseded ==> items[w].status == Superseded
      ensures forall w :: w in superseded && EpochNumber(old(items)[w].epoch) > 0 ==>
                !HeldAt(leases.rows, key, w, EpochNumber(old(items)[w].epoch), now)
      ensures forall k, h: Holder | k in old(leases.rows) && old(leases.rows)[k].holder == Some(h.workItem) && h.workItem !in superseded ::
                leases.rows[k] == old(leases.rows)[k]
    {
      var before := items;
      ghost var table := leases.rows;
      items := SupersededItems(items, key, preserved);
      superseded := set w | w in before && items[w].status != before[w].status;
      leases.ReleaseHeldBy(key, HoldersOf(before, items), now);
      forall w | w in before
        ensures w in superseded <==> Taken(before, key, preserved, w)
        ensures items[w] == if w !in superseded then before[w]
                            else before[w].(status := Superseded, cancelRequested := before[w].cancelRequested || before[w].status == Running)
      {
        TakenAreSuperseded(before, key, preserved, w);
      }
      forall w | w in superseded && EpochNumber(before[w].epoch) > 0
        ensures !HeldAt(leases.rows, key, w, EpochNumber(before[w].epoch), now)
      {
        SupersededLoseTheirLease(table, key, before, items, now, w);
      }
      forall k, h: Holder | k in table && table[k].holder == Some(h.workItem) && h.workItem !in superseded
        ensures leases.rows[k] == table[k]
      {
        OthersKeepTheirLease(table, key, before, items, now, k, h);
      }
    }
  }

  /** One durable run of a work item: its admission is asked for once and remembered (durableJob.ts:160-166). */
  class DurableContext {
    const store: WorkItemStore
    const workItem: WorkItemId
    const leaseEpoch: Option<nat>
    var admission: Option<BeginResult>

    constructor (store: WorkItemStore, workItem: WorkItemId, leaseEpoch: Option<nat>)
      ensures admission == None && this.store == store && this.workItem == workItem && this.leaseEpoch == leaseEpoch
    {
      this.store, this.workItem, this.leaseEpoch, admission := store, workItem, leaseEpoch, None;
    }

    method Admit(limit: nat) returns (r: BeginResult)
      modifies this`admission, store`items
      ensures admission == Some(r)
      ensures old(admission).Some? ==> r == old(admission).value && store.items == old(store.items)
      ensures r.Begun? && old(admission).None? ==> (store.items, r.attempt) == AttemptBegun(old(store.items), workItem, limit)
      ensures r.NotHeld? ==> store.items == old(store.items)
    {
      if admission.Some? { return admission.value; }
      r := store.BeginAttempt(workItem, leaseEpoch, limit);
      admission := Some(r);
    }
  }
}

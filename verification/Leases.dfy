/**
  The lease table (src/agentWork/prActorLease.ts): one row per (resource, work type).
  A row is never deleted; a release clears its holder in place, so its epoch only grows.
 */
module Leases {
  import opened Wrappers

  datatype WorkType = Review | Description | Triage | Verification | Ask

  datatype LeaseKey = LeaseKey(resource: string, workType: WorkType)

  type WorkItemId = nat

  datatype Row = Row(epoch: nat, holder: Option<WorkItemId>, expiresAt: int)

  type Table = map<LeaseKey, Row>

  datatype Holder = Holder(workItem: WorkItemId, epoch: nat)

  datatype Acquisition =
    | Acquired(epoch: nat)
    | Refused(heldBy: Option<WorkItemId>, epoch: nat)

  // ----- The statements, as functions of the table and the clock -----

  /** The conflict clause of the acquiring INSERT: the row is absent, unheld or lapsed. */
  predicate Available(t: Table, key: LeaseKey, now: int) {
    key !in t || t[key].holder == None || t[key].expiresAt <= now
  }

  function AcquireRow(t: Table, key: LeaseKey, w: WorkItemId, now: int, ttl: nat): Table {
    if Available(t, key, now)
    then t[key := Row((if key in t then t[key].epoch else 0) + 1, Some(w), now + ttl)]
    else t
  }

  /** Renewal matches key, epoch and work item. It does not look at the expiry. */
  function RenewRow(t: Table, key: LeaseKey, w: WorkItemId, epoch: nat, now: int, ttl: nat): Table {
    if key in t && t[key].epoch == epoch && t[key].holder == Some(w)
    then t[key := t[key].(expiresAt := now + ttl)]
    else t
  }

  function ReleaseRow(t: Table, key: LeaseKey, epoch: nat, now: int): Table {
    if key in t && t[key].epoch == epoch
    then t[key := Row(epoch, None, now)]
    else t
  }

  function ReleaseHolders(t: Table, key: LeaseKey, holders: set<Holder>, now: int): Table {
    if key in t && t[key].holder.Some? && Holder(t[key].holder.value, t[key].epoch) in holders
    then t[key := Row(t[key].epoch, None, now)]
    else t
  }

  predicate HeldAt(t: Table, key: LeaseKey, w: WorkItemId, epoch: nat, now: int) {
    key in t && t[key].holder == Some(w) && t[key].epoch == epoch && t[key].expiresAt > now
  }

  /** The fence every leased write evaluates: some row names this work item and epoch, unexpired. */
  predicate Held(t: Table, w: WorkItemId, epoch: nat, now: int) {
    exists key :: key in t && HeldAt(t, key, w, epoch, now)
  }

  // ----- The repository object -----

  class LeaseTable {
    var rows: Table

    constructor ()
      ensures rows == map[]
    {
      rows := map[];
    }

    method Acquire(key: LeaseKey, w: WorkItemId, now: int, ttl: nat) returns (r: Acquisition)
      modifies this
      ensures rows == AcquireRow(old(rows), key, w, now, ttl)
      ensures r.Acquired? <==> old(Available(rows, key, now))
      ensures r.Acquired? ==> key in rows && rows[key] == Row(r.epoch, Some(w), now + ttl)
      ensures r.Acquired? && key in old(rows) ==> r.epoch > old(rows)[key].epoch
      ensures r.Refused? ==> rows == old(rows) && r.heldBy == rows[key].holder && r.heldBy.Some?
    {
      if Available(rows, key, now) {
        rows := AcquireRow(rows, key, w, now, ttl);
        return Acquired(rows[key].epoch);
      }
      r := Refused(rows[key].holder, rows[key].epoch);
    }

    method Renew(key: LeaseKey, w: WorkItemId, epoch: nat, now: int, ttl: nat) returns (renewed: bool)
      modifies this
      ensures rows == RenewRow(old(rows), key, w, epoch, now, ttl)
      ensures renewed <==> key in rows && rows[key].epoch == epoch && rows[key].holder == Some(w)
      ensures renewed ==> rows == old(rows)[key := Row(epoch, Some(w), now + ttl)]
      ensures !renewed ==> rows == old(rows)
      ensures renewed && ttl > 0 ==> HeldAt(rows, key, w, epoch, now)
    {
      renewed := key in rows && rows[key].epoch == epoch && rows[key].holder == Some(w);
      rows := RenewRow(rows, key, w, epoch, now, ttl);
    }

    method Release(key: LeaseKey, epoch: nat, now: int)
      modifies this
      ensures rows == ReleaseRow(old(rows), key, epoch, now)
      ensures key in old(rows) && old(rows)[key].epoch == epoch ==> rows == old(rows)[key := Row(epoch, None, now)]
      ensures !(key in old(rows) && old(rows)[key].epoch == epoch) ==> rows == old(rows)
      ensures forall w :: !HeldAt(rows, key, w, epoch, now)
      ensures key in old(rows) ==> key in rows && rows[key].epoch == old(rows)[key].epoch
    {
      rows := ReleaseRow(rows, key, epoch, now);
    }

    /** Supersession gives up exactly the (work item, epoch) pairs it superseded. */
    method ReleaseHeldBy(key: LeaseKey, holders: set<Holder>, now: int)
      modifies this
      ensures rows == ReleaseHolders(old(rows), key, holders, now)
      ensures forall h :: h in holders && key in old(rows) && old(rows)[key].holder == Some(h.workItem) && old(rows)[key].epoch == h.epoch ==>
                rows == old(rows)[key := Row(h.epoch, None, now)]
      ensures forall k, h: Holder | k in old(rows) && old(rows)[k].holder == Some(h.workItem) && old(rows)[k].epoch == h.epoch ::
                h !in holders || k != key ==> rows[k] == old(rows)[k]
    {
      rows := ReleaseHolders(rows, key, holders, now);
    }

    method IsHeld(w: WorkItemId, epoch: nat, now: int) returns (held: bool)
      ensures held <==> Held(rows, w, epoch, now)
    {
      var keys := rows.Keys;
      held := false;
      while keys != {}
        invariant keys <= rows.Keys
        invariant held <==> exists key :: key in rows.Keys - keys && HeldAt(rows, key, w, epoch, now)
        decreases |keys|
      {
        var key :| key in keys;
        held := held || HeldAt(rows, key, w, epoch, now);
        keys := keys - {key};
      }
    }
  }
}

/** Fencing over whole runs of the lease table. */
module LeaseRuns {
  import opened Wrappers
  import opened Leases

  datatype Step =
    | AcquireStep(key: LeaseKey, w: WorkItemId, ttl: nat)
    | RenewStep(key: LeaseKey, w: WorkItemId, epoch: nat, ttl: nat)
    | ReleaseStep(key: LeaseKey, epoch: nat)
    | SupersedeStep(key: LeaseKey, holders: set<Holder>)
    | TimeStep(delta: nat)

  function Apply(t: Table, now: int, step: Step): (r: (Table, int)) {
    match step
    case AcquireStep(key, w, ttl) => (AcquireRow(t, key, w, now, ttl), now)
    case RenewStep(key, w, epoch, ttl) => (RenewRow(t, key, w, epoch, now, ttl), now)
    case ReleaseStep(key, epoch) => (ReleaseRow(t, key, epoch, now), now)
    case SupersedeStep(key, holders) => (ReleaseHolders(t, key, holders, now), now)
    case TimeStep(delta) => (t, now + delta)
  }

  function Run(t: Table, now: int, steps: seq<Step>): (r: (Table, int))
    decreases |steps|
  {
    if steps == [] then (t, now)
    else var next := Apply(t, now, steps[0]); Run(next.0, next.1, steps[1..])
  }

  /** An epoch is spent for a work item once another acquisition, or a release, ended it. */
  predicate Spent(t: Table, key: LeaseKey, w: WorkItemId, epoch: nat) {
    key in t && (epoch < t[key].epoch || (epoch == t[key].epoch && t[key].holder != Some(w)))
  }

  /** Epochs never go back, and a row once created stays. */
  lemma {:induction false} EpochsOnlyGrow(t: Table, now: int, steps: seq<Step>, key: LeaseKey)
    requires key in t
    ensures key in Run(t, now, steps).0
    ensures t[key].epoch <= Run(t, now, steps).0[key].epoch
    decreases |steps|
  {
    if steps != [] {
      var next := Apply(t, now, steps[0]);
      assert key in next.0 && t[key].epoch <= next.0[key].epoch;
      EpochsOnlyGrow(next.0, next.1, steps[1..], key);
    }
  }

  /** Every acquisition, however far into the future, gets an epoch above every earlier one. */
  lemma AcquisitionsStrictlyIncrease(t: Table, now: int, steps: seq<Step>, key: LeaseKey, w: WorkItemId, ttl: nat)
    requires key in t
    requires Available(Run(t, now, steps).0, key, Run(t, now, steps).1)
    ensures var end := Run(t, now, steps);
            AcquireRow(end.0, key, w, end.1, ttl)[key].epoch > t[key].epoch
  {
    EpochsOnlyGrow(t, now, steps, key);
  }

  /** A spent epoch is never again held at its key, whatever is acquired, renewed, released or superseded. */
  lemma {:induction false} SpentAtItsKey(t: Table, now: int, steps: seq<Step>, key: LeaseKey, w: WorkItemId, epoch: nat)
    requires Spent(t, key, w, epoch)
    ensures Spent(Run(t, now, steps).0, key, w, epoch)
    ensures !HeldAt(Run(t, now, steps).0, key, w, epoch, Run(t, now, steps).1)
    decreases |steps|
  {
    if steps != [] {
      var next := Apply(t, now, steps[0]);
      assert Spent(next.0, key, w, epoch);
      SpentAtItsKey(next.0, next.1, steps[1..], key, w, epoch);
    }
  }

  // ----- The fence names no key: it needs every work item to stay at its own -----

  /** The resource and type of a work item; its executions build their lease key from them. */
  type OwnKeys = map<WorkItemId, LeaseKey>

  /** Every lease is held by a work item whose own key it is. */
  predicate AtHome(own: OwnKeys, t: Table) {
    forall key :: key in t && t[key].holder.Some? ==> t[key].holder.value in own && own[t[key].holder.value] == key
  }

  predicate AcquiresAtHome(own: OwnKeys, step: Step) {
    step.AcquireStep? ==> step.w in own && own[step.w] == step.key
  }

  predicate OwnRun(own: OwnKeys, steps: seq<Step>) { forall i :: 0 <= i < |steps| ==> AcquiresAtHome(own, steps[i]) }

  lemma {:induction false} StaysAtHome(own: OwnKeys, t: Table, now: int, steps: seq<Step>)
    requires AtHome(own, t) && OwnRun(own, steps)
    ensures AtHome(own, Run(t, now, steps).0)
    decreases |steps|
  {
    if steps != [] {
      assert AcquiresAtHome(own, steps[0]);
      var next := Apply(t, now, steps[0]);
      StaysAtHome(own, next.0, next.1, steps[1..]);
    }
  }

  /**
    Fencing over whole runs: once an epoch is spent at the work item's own key, the fence of that epoch,
    which looks at every row, is closed for ever.
   */
  lemma SpentForever(own: OwnKeys, t: Table, now: int, steps: seq<Step>, w: WorkItemId, epoch: nat)
    requires AtHome(own, t) && OwnRun(own, steps) && w in own && Spent(t, own[w], w, epoch)
    ensures var end := Run(t, now, steps); !Held(end.0, w, epoch, end.1)
  {
    StaysAtHome(own, t, now, steps);
    SpentAtItsKey(t, now, steps, own[w], w, epoch);
  }

  /** An acquisition closes the fence of every epoch up to the previous one, for every work item of the key. */
  lemma AcquiringSpendsOlderEpochs(own: OwnKeys, t: Table, now: int, w: WorkItemId, ttl: nat, older: WorkItemId, epoch: nat, steps: seq<Step>)
    requires AtHome(own, t) && OwnRun(own, steps) && w in own && older in own && own[older] == own[w]
    requires own[w] in t && epoch <= t[own[w]].epoch && Available(t, own[w], now)
    ensures var end := Run(AcquireRow(t, own[w], w, now, ttl), now, steps);
            !Held(end.0, older, epoch, end.1)
  {
    SpentForever(own, AcquireRow(t, own[w], w, now, ttl), now, steps, older, epoch);
  }

  /**
    A failed claim and a clean finish both release; the fence of an epoch given up this way stays closed,
    even against a renewal timer that is still running for it.
   */
  lemma ReleasedEpochNeverReturns(own: OwnKeys, t: Table, now: int, w: WorkItemId, epoch: nat, steps: seq<Step>)
    requires AtHome(own, t) && OwnRun(own, steps) && w in own && own[w] in t && t[own[w]].epoch == epoch
    ensures var end := Run(ReleaseRow(t, own[w], epoch, now), now, steps);
            !Held(end.0, w, epoch, end.1)
  {
    SpentForever(own, ReleaseRow(t, own[w], epoch, now), now, steps, w, epoch);
  }

  /** A spent epoch's fence is open exactly while the same pair is held at some other key. */
  lemma ReopensOnlyElsewhere(t: Table, now: int, steps: seq<Step>, key: LeaseKey, w: WorkItemId, epoch: nat)
    requires Spent(t, key, w, epoch)
    ensures var end := Run(t, now, steps);
            Held(end.0, w, epoch, end.1) <==> exists other :: other in end.0 && other != key && HeldAt(end.0, other, w, epoch, end.1)
  {
    SpentAtItsKey(t, now, steps, key, w, epoch);
  }

  /** It can: an acquisition at a second key restarts at epoch 1 and opens the fence of a spent epoch 1. */
  lemma ForeignKeyReopens(w: WorkItemId, here: LeaseKey, there: LeaseKey)
    requires here != there
    ensures var t: Table := map[here := Row(2, Some(w), 10)];
            Spent(t, here, w, 1) && Held(Run(t, 0, [AcquireStep(there, w, 10)]).0, w, 1, 0)
  {
    var t: Table := map[here := Row(2, Some(w), 10)];
    var step := AcquireStep(there, w, 10);
    assert Run(t, 0, [step]) == Apply(t, 0, step) by { assert [step][1..] == []; }
    assert HeldAt(Apply(t, 0, step).0, there, w, 1, 0);
  }
}

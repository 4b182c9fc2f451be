/**
  Conservation in the ask quota: outstanding counts, reserved tokens and used tokens are at all times the
  sums of what the reservations account for, so the GREATEST(0, ...) clamps never bind.
 */
module AskQuotaLedger {
  import opened Wrappers
  import opened Sums
  import opened AskQuota
  import opened AskQuotaRates

  // ----- What the reservations account for -----

  function Live(rs: Reservations, key: BucketKey): set<nat> {
    set w | w in rs && !rs[w].released && Carries(rs[w].ask, key)
  }

  function Holders(rs: Reservations, key: BucketKey): set<nat> {
    set w | w in rs && KeyFor(rs[w].ask, Installation) == key
  }

  function ReservedOf(rs: Reservations): map<nat, nat> { map w | w in rs :: rs[w].reserved }

  function CountedTokens(r: Reservation, window: real): map<string, nat> {
    map e | e in r.receipts :: if r.receipts[e].countedIn == Some(window) then r.receipts[e].tokens else 0
  }

  function ReceiptTokens(r: Reservation): map<string, nat> { map e | e in r.receipts :: r.receipts[e].tokens }

  /** The distinct receipts that went into the window's usage. */
  ghost function CountedIn(r: Reservation, window: real): nat { Total(CountedTokens(r, window), r.receipts.Keys) }

  function ChargedIn(r: Reservation, window: real): nat {
    if r.unknownCharged > 0 && r.unknownWindow == Some(window) then r.unknownCharged else 0
  }

  ghost function UsedPart(r: Reservation, window: real): nat { ChargedIn(r, window) + CountedIn(r, window) }

  ghost function UsedOf(rs: Reservations, window: real): map<nat, nat> { map w | w in rs :: UsedPart(rs[w], window) }

  // ----- The invariant -----

  ghost predicate RowOk(r: Reservation, windowAt: real) {
    && (r.known <==> r.receipts != map[])
    && (r.released || r.known ==> r.reserved == 0)
    && (!r.released ==> r.unknownCharged == 0)
    && (r.unknownCharged > 0 ==> r.unknownWindow.Some? && r.unknownWindow.value <= windowAt)
    && (r.unknownCharged > 0 && r.known ==> r.unknownWindow.value < windowAt)
    && (forall e :: e in r.receipts ==>
          if r.unknownCharged > 0 then r.receipts[e].countedIn == None
          else r.receipts[e].countedIn.Some? && r.receipts[e].countedIn.value <= windowAt)
    && r.used == Total(ReceiptTokens(r), r.receipts.Keys)
  }

  ghost predicate BucketOk(s: State, key: BucketKey)
    requires key in s.buckets
  {
    var b := s.buckets[key];
    && b.outstanding == |Live(s.reservations, key)|
    && (key.InstallationKey? ==>
          && b.reserved == Total(ReservedOf(s.reservations), Live(s.reservations, key))
          && b.used == Total(UsedOf(s.reservations, b.windowAt), Holders(s.reservations, key)))
  }

  /** Its three buckets exist. */
  predicate Placed(buckets: Buckets, ask: Ask) {
    KeyFor(ask, Installation) in buckets && KeyFor(ask, Repository) in buckets && KeyFor(ask, Actor) in buckets
  }

  ghost predicate RowsOk(s: State) {
    forall w :: w in s.reservations ==>
      && s.reservations[w].ask.workItem == w
      && Placed(s.buckets, s.reservations[w].ask)
      && RowOk(s.reservations[w], s.buckets[KeyFor(s.reservations[w].ask, Installation)].windowAt)
  }

  ghost predicate Ledger(s: State) {
    RowsOk(s) && forall key :: key in s.buckets ==> BucketOk(s, key)
  }

  // ----- One ask's share -----

  /**
    Before the first receipt an ask contributes its live reservation, or after release its unknown charge
    if that was charged in the current window; from the first receipt on it contributes the distinct
    receipts counted in the window, and nothing at all if its charge belonged to an earlier window.
   */
  lemma {:induction false} AskContribution(s: State, w: nat)
    requires Ledger(s) && w in s.reservations
    ensures var r := s.reservations[w];
            var window := s.buckets[KeyFor(r.ask, Installation)].windowAt;
            r.reserved + UsedPart(r, window) ==
              if r.receipts == map[] then (if !r.released then r.reserved else ChargedIn(r, window))
              else if r.unknownCharged > 0 then 0
              else CountedIn(r, window)
    ensures var r := s.reservations[w];
            r.unknownCharged == 0 ==> forall e :: e in r.receipts ==> r.receipts[e].countedIn.Some?
  {
    var r := s.reservations[w];
    var window := s.buckets[KeyFor(r.ask, Installation)].windowAt;
    if r.unknownCharged > 0 { NothingCounted(r, window, r.receipts.Keys); }
  }

  lemma {:induction false} NothingCounted(r: Reservation, window: real, s: set<string>)
    requires s <= r.receipts.Keys && forall e :: e in s ==> r.receipts[e].countedIn != Some(window)
    ensures Total(CountedTokens(r, window), s) == 0
    decreases |s|
  {
    if s != {} {
      var e :| e in s;
      TotalPick(CountedTokens(r, window), s, e);
      NothingCounted(r, window, s - {e});
    }
  }

  // ----- Refill -----

  /** In a window that has just begun nothing has been used yet. */
  lemma NothingUsedYet(r: Reservation, windowAt: real, now: real)
    requires RowOk(r, windowAt) && now > windowAt
    ensures UsedPart(r, now) == 0 && RowOk(r, now)
  {
    NothingCounted(r, now, r.receipts.Keys);
  }

  lemma {:induction false} AllZero(w: map<nat, nat>, s: set<nat>)
    requires s <= w.Keys && forall k :: k in s ==> w[k] == 0
    ensures Total(w, s) == 0
    decreases |s|
  {
    if s != {} {
      var k :| k in s;
      TotalPick(w, s, k);
      AllZero(w, s - {k});
    }
  }

  lemma RefilledBucketOk(s: State, cfg: Config, key: BucketKey, now: real)
    requires ValidConfig(cfg) && Ledger(s) && key in s.buckets
    ensures BucketOk(s.(buckets := s.buckets[key := Refill(s.buckets[key], key, cfg, now)]), key)
    ensures forall w :: w in s.reservations && KeyFor(s.reservations[w].ask, Installation) == key ==>
              RowOk(s.reservations[w], Refill(s.buckets[key], key, cfg, now).windowAt)
  {
    var b, b' := s.buckets[key], Refill(s.buckets[key], key, cfg, now);
    assert BucketOk(s, key);
    if Rolls(b, key, cfg, now) {
      forall w | w in Holders(s.reservations, key) ensures UsedPart(s.reservations[w], now) == 0 && RowOk(s.reservations[w], now) {
        NothingUsedYet(s.reservations[w], b.windowAt, now);
      }
      AllZero(UsedOf(s.reservations, now), Holders(s.reservations, key));
    }
  }

  /** A bucket that is created now has nothing to account for. */
  lemma NewBucketOk(s: State, key: BucketKey, b: Bucket)
    requires RowsOk(s) && key !in s.buckets && b.outstanding == 0 && b.reserved == 0 && b.used == 0
    ensures BucketOk(s.(buckets := s.buckets[key := b]), key)
  {
    assert Live(s.reservations, key) == {} && Holders(s.reservations, key) == {};
  }

  /** The other buckets do not look at the one that changed. */
  lemma OtherBucketsOk(s: State, key: BucketKey, b: Bucket, other: BucketKey)
    requires other in s.buckets && other != key && BucketOk(s, other)
    ensures BucketOk(s.(buckets := s.buckets[key := b]), other)
  {
  }

  lemma RowsStayOk(s: State, key: BucketKey, b: Bucket)
    requires RowsOk(s)
    requires forall w :: w in s.reservations && KeyFor(s.reservations[w].ask, Installation) == key ==> RowOk(s.reservations[w], b.windowAt)
    ensures RowsOk(s.(buckets := s.buckets[key := b]))
  {
  }

  lemma LockKeepsLedger(s: State, cfg: Config, key: BucketKey, now: real)
    requires ValidConfig(cfg) && Ledger(s)
    ensures Ledger(s.(buckets := LockAndRefill(s.buckets, key, cfg, now)))
  {
    var b := Refill(if key in s.buckets then s.buckets[key] else FreshBucket(cfg, key, now), key, cfg, now);
    var s' := s.(buckets := s.buckets[key := b]);
    if key in s.buckets { RefilledBucketOk(s, cfg, key, now); } else { NewBucketOk(s, key, b); }
    RowsStayOk(s, key, b);
    forall other | other in s'.buckets ensures BucketOk(s', other) {
      if other != key { OtherBucketsOk(s, key, b, other); }
    }
  }

  lemma {:induction false} RefillKeepsLedger(s: State, ask: Ask, scopes: seq<Scope>, cfg: Config, now: real)
    requires ValidConfig(cfg) && Ledger(s)
    ensures Ledger(s.(buckets := RefillAll(s.buckets, ask, scopes, cfg, now)))
    decreases |scopes|
  {
    if scopes != [] {
      LockKeepsLedger(s, cfg, KeyFor(ask, scopes[0]), now);
      RefillKeepsLedger(s.(buckets := LockAndRefill(s.buckets, KeyFor(ask, scopes[0]), cfg, now)), ask, scopes[1..], cfg, now);
    }
  }

  // ----- Shares: how the sums change with one reservation -----

  function LiveBit(r: Reservation, key: BucketKey): nat { if !r.released && Carries(r.ask, key) then 1 else 0 }

  function ReservedShare(r: Reservation, key: BucketKey): nat { if LiveBit(r, key) == 1 then r.reserved else 0 }

  ghost function UsedShare(r: Reservation, key: BucketKey, window: real): nat {
    if KeyFor(r.ask, Installation) == key then UsedPart(r, window) else 0
  }

  ghost function LiveCount(rs: Reservations, key: BucketKey): nat { |Live(rs, key)| }

  ghost function ReservedSum(rs: Reservations, key: BucketKey): nat { Total(ReservedOf(rs), Live(rs, key)) }

  ghost function UsedSum(rs: Reservations, key: BucketKey, window: real): nat { Total(UsedOf(rs, window), Holders(rs, key)) }

  lemma AddedLive(rs: Reservations, w: nat, r: Reservation, key: BucketKey)
    requires w !in rs
    ensures LiveCount(rs[w := r], key) == LiveCount(rs, key) + LiveBit(r, key)
    ensures ReservedSum(rs[w := r], key) == ReservedSum(rs, key) + ReservedShare(r, key)
  {
    var live, rs' := Live(rs, key), rs[w := r];
    AddedToLive(rs, w, r, key);
    TotalSame(ReservedOf(rs), ReservedOf(rs'), live);
    if LiveBit(r, key) == 1 {
      TotalAdd(ReservedOf(rs'), live, w);
      assert ReservedOf(rs')[w] == r.reserved;
    }
  }

  lemma AddedToLive(rs: Reservations, w: nat, r: Reservation, key: BucketKey)
    requires w !in rs
    ensures w !in Live(rs, key) && Live(rs[w := r], key) == Live(rs, key) + if LiveBit(r, key) == 1 then {w} else {}
  {
  }

  lemma AddedUsed(rs: Reservations, w: nat, r: Reservation, key: BucketKey, window: real)
    requires w !in rs
    ensures UsedSum(rs[w := r], key, window) == UsedSum(rs, key, window) + UsedShare(r, key, window)
  {
    var holders, holders' := Holders(rs, key), Holders(rs[w := r], key);
    assert holders' == holders + if KeyFor(r.ask, Installation) == key then {w} else {};
    TotalSame(UsedOf(rs, window), UsedOf(rs[w := r], window), holders);
    if KeyFor(r.ask, Installation) == key {
      TotalAdd(UsedOf(rs[w := r], window), holders, w);
      assert UsedOf(rs[w := r], window)[w] == UsedPart(r, window);
    } else {
      assert holders' == holders;
    }
  }

  /** Putting another row in w's place changes each sum by the difference of the shares. */
  lemma ChangedSums(rs: Reservations, w: nat, r: Reservation, key: BucketKey, window: real)
    requires w in rs
    ensures LiveCount(rs[w := r], key) == LiveCount(rs, key) - LiveBit(rs[w], key) + LiveBit(r, key)
    ensures ReservedSum(rs[w := r], key) == ReservedSum(rs, key) - ReservedShare(rs[w], key) + ReservedShare(r, key)
    ensures UsedSum(rs[w := r], key, window) == UsedSum(rs, key, window) - UsedShare(rs[w], key, window) + UsedShare(r, key, window)
  {
    var rest := rs - {w};
    assert rest[w := rs[w]] == rs && rest[w := r] == rs[w := r];
    AddedLive(rest, w, rs[w], key);
    AddedLive(rest, w, r, key);
    AddedUsed(rest, w, rs[w], key, window);
    AddedUsed(rest, w, r, key, window);
  }

  /** A bucket that moves with the shares still accounts for everything. */
  lemma BucketFollows(s: State, rs: Reservations, b: Bucket, key: BucketKey)
    requires key in s.buckets && BucketOk(s, key) && b.windowAt == s.buckets[key].windowAt
    requires b.outstanding == s.buckets[key].outstanding + LiveCount(rs, key) - LiveCount(s.reservations, key)
    requires key.InstallationKey? ==> b.reserved == s.buckets[key].reserved + ReservedSum(rs, key) - ReservedSum(s.reservations, key)
    requires key.InstallationKey? ==>
               b.used == s.buckets[key].used + UsedSum(rs, key, b.windowAt) - UsedSum(s.reservations, key, b.windowAt)
    ensures BucketOk(State(s.buckets[key := b], rs), key)
  {
  }

  lemma BucketOkLocal(s: State, s': State, key: BucketKey)
    requires key in s.buckets && key in s'.buckets && s.buckets[key] == s'.buckets[key] && s.reservations == s'.reservations
    requires BucketOk(s, key)
    ensures BucketOk(s', key)
  {
  }

  // ----- Admission -----

  lemma ReservedBucket(buckets: Buckets, ask: Ask, tokens: nat, key: BucketKey)
    requires Placed(buckets, ask) && key in buckets
    ensures var r := AddReserved(TakeAll(buckets, ask, LOCK_ORDER), ask, tokens);
            && r.Keys == buckets.Keys
            && r[key].windowAt == buckets[key].windowAt && r[key].used == buckets[key].used
            && r[key].outstanding == buckets[key].outstanding + (if Carries(ask, key) then 1 else 0)
            && r[key].reserved == buckets[key].reserved + (if key == KeyFor(ask, Installation) then tokens else 0)
  {
    TakenBucket(buckets, ask, key);
    TakenBucket(buckets, ask, KeyFor(ask, Installation));
  }

  lemma TakingKeepsLedger(s: State, ask: Ask, tokens: nat)
    requires Ledger(s) && Placed(s.buckets, ask) && ask.workItem !in s.reservations
    ensures Ledger(State(AddReserved(TakeAll(s.buckets, ask, LOCK_ORDER), ask, tokens), s.reservations[ask.workItem := NewReservation(ask, tokens)]))
  {
    var r := NewReservation(ask, tokens);
    var s' := State(AddReserved(TakeAll(s.buckets, ask, LOCK_ORDER), ask, tokens), s.reservations[ask.workItem := r]);
    ReservedBucket(s.buckets, ask, tokens, KeyFor(ask, Installation));
    forall key | key in s'.buckets ensures BucketOk(s', key) {
      ReservedBucket(s.buckets, ask, tokens, key);
      AddedLive(s.reservations, ask.workItem, r, key);
      AddedUsed(s.reservations, ask.workItem, r, key, s'.buckets[key].windowAt);
      BucketFollows(s, s'.reservations, s'.buckets[key], key);
      BucketOkLocal(State(s.buckets[key := s'.buckets[key]], s'.reservations), s', key);
    }
    TakenRowsOk(s, ask, tokens);
  }

  lemma TakenRowsOk(s: State, ask: Ask, tokens: nat)
    requires RowsOk(s) && Placed(s.buckets, ask) && ask.workItem !in s.reservations
    ensures RowsOk(State(AddReserved(TakeAll(s.buckets, ask, LOCK_ORDER), ask, tokens), s.reservations[ask.workItem := NewReservation(ask, tokens)]))
  {
    ReservedBucket(s.buckets, ask, tokens, KeyFor(ask, Installation));
    forall w | w in s.reservations ensures
      AddReserved(TakeAll(s.buckets, ask, LOCK_ORDER), ask, tokens)[KeyFor(s.reservations[w].ask, Installation)].windowAt
      == s.buckets[KeyFor(s.reservations[w].ask, Installation)].windowAt
    {
      ReservedBucket(s.buckets, ask, tokens, KeyFor(s.reservations[w].ask, Installation));
    }
  }

  // ----- Giving back -----

  lemma GivenBackBucket(buckets: Buckets, ask: Ask, tokens: nat, charge: nat, key: BucketKey)
    requires Placed(buckets, ask) && key in buckets
    ensures var r, inst := GiveBack(buckets, ask, tokens, charge), key == KeyFor(ask, Installation);
            && r.Keys == buckets.Keys
            && r[key].windowAt == buckets[key].windowAt
            && r[key].outstanding == (if Carries(ask, key) then Clamp(buckets[key].outstanding - 1) else buckets[key].outstanding)
            && r[key].reserved == (if inst then Clamp(buckets[key].reserved - tokens) else buckets[key].reserved)
            && r[key].used == buckets[key].used + (if inst then charge else 0)
  {
  }

  /** A live reservation is part of every sum it is given back from, so no clamp binds. */
  lemma LiveIsCounted(s: State, w: nat, key: BucketKey)
    requires Ledger(s) && w in s.reservations && !s.reservations[w].released && Carries(s.reservations[w].ask, key) && key in s.buckets
    ensures s.buckets[key].outstanding >= 1
    ensures key.InstallationKey? ==> s.buckets[key].reserved >= s.reservations[w].reserved
  {
    assert BucketOk(s, key);
    assert w in Live(s.reservations, key);
    if key.InstallationKey? { TotalPick(ReservedOf(s.reservations), Live(s.reservations, key), w); }
  }

  /** The charge of a release shows up in the current window. */
  lemma ReleasedShare(r: Reservation, windowAt: real)
    requires RowOk(r, windowAt) && !r.released
    ensures var charge := if r.known then 0 else r.reserved;
            var r' := r.(released := true, reserved := 0, unknownCharged := charge, unknownWindow := if charge > 0 then Some(windowAt) else None);
            RowOk(r', windowAt) && UsedPart(r', windowAt) == UsedPart(r, windowAt) + charge
  {
    var charge := if r.known then 0 else r.reserved;
    var r' := r.(released := true, reserved := 0, unknownCharged := charge, unknownWindow := if charge > 0 then Some(windowAt) else None);
    assert CountedTokens(r', windowAt) == CountedTokens(r, windowAt) && ReceiptTokens(r') == ReceiptTokens(r);
  }

  lemma SameInstallation(ask: Ask, key: BucketKey)
    requires key.InstallationKey?
    ensures Carries(ask, key) <==> KeyFor(ask, Installation) == key
  {
  }

  lemma ReleaseKeepsBuckets(s: State, w: nat, key: BucketKey)
    requires Ledger(s) && w in s.reservations && !s.reservations[w].released && key in s.buckets
    ensures key in Release(s, w).buckets && BucketOk(Release(s, w), key)
  {
    var r, s' := s.reservations[w], Release(s, w);
    var r' := s'.reservations[w];
    var inst := KeyFor(r.ask, Installation);
    GivenBackBucket(s.buckets, r.ask, r.reserved, if r.known then 0 else r.reserved, key);
    ReleasedShare(r, s.buckets[inst].windowAt);
    ChangedSums(s.reservations, w, r', key, s.buckets[key].windowAt);
    if Carries(r.ask, key) { LiveIsCounted(s, w, key); }
    if key.InstallationKey? { SameInstallation(r.ask, key); }
    assert BucketOk(s, key);
    BucketFollows(s, s'.reservations, s'.buckets[key], key);
    BucketOkLocal(State(s.buckets[key := s'.buckets[key]], s'.reservations), s', key);
  }

  predicate SameWindows(buckets: Buckets, buckets': Buckets) {
    buckets'.Keys == buckets.Keys && forall key :: key in buckets ==> buckets'[key].windowAt == buckets[key].windowAt
  }

  lemma GivingBackKeepsWindows(buckets: Buckets, ask: Ask, tokens: nat, charge: nat)
    requires Placed(buckets, ask)
    ensures SameWindows(buckets, GiveBack(buckets, ask, tokens, charge))
  {
    GivenBackBucket(buckets, ask, tokens, charge, KeyFor(ask, Installation));
    forall key | key in buckets ensures GiveBack(buckets, ask, tokens, charge)[key].windowAt == buckets[key].windowAt {
      GivenBackBucket(buckets, ask, tokens, charge, key);
    }
  }

  /** Rows that stayed as they were stay in order as long as no window moves. */
  lemma RowsFollow(s: State, buckets: Buckets, w: nat, r: Reservation)
    requires RowsOk(s) && SameWindows(s.buckets, buckets)
    requires r.ask.workItem == w && Placed(s.buckets, r.ask) && RowOk(r, s.buckets[KeyFor(r.ask, Installation)].windowAt)
    ensures RowsOk(State(buckets, s.reservations[w := r])) && RowsOk(State(buckets, s.reservations - {w}))
  {
  }

  lemma ReleaseKeepsRows(s: State, w: nat)
    requires Ledger(s) && w in s.reservations && !s.reservations[w].released
    ensures RowsOk(Release(s, w)) && Release(s, w).buckets.Keys == s.buckets.Keys
  {
    var r := s.reservations[w];
    ReleasedShare(r, s.buckets[KeyFor(r.ask, Installation)].windowAt);
    GivingBackKeepsWindows(s.buckets, r.ask, r.reserved, if r.known then 0 else r.reserved);
    RowsFollow(s, Release(s, w).buckets, w, Release(s, w).reservations[w]);
  }

  lemma {:induction false} ReleaseKeepsLedger(s: State, w: nat)
    requires Ledger(s)
    ensures Ledger(Release(s, w))
  {
    if w in s.reservations && !s.reservations[w].released {
      ReleaseKeepsRows(s, w);
      forall key | key in Release(s, w).buckets ensures BucketOk(Release(s, w), key) { ReleaseKeepsBuckets(s, w, key); }
    }
  }

  lemma RemovedSums(rs: Reservations, w: nat, key: BucketKey, window: real)
    requires w in rs
    ensures LiveCount(rs - {w}, key) == LiveCount(rs, key) - LiveBit(rs[w], key)
    ensures ReservedSum(rs - {w}, key) == ReservedSum(rs, key) - ReservedShare(rs[w], key)
    ensures UsedSum(rs - {w}, key, window) == UsedSum(rs, key, window) - UsedShare(rs[w], key, window)
  {
    assert (rs - {w})[w := rs[w]] == rs;
    AddedLive(rs - {w}, w, rs[w], key);
    AddedUsed(rs - {w}, w, rs[w], key, window);
  }

  lemma NoReceiptsNoUse(r: Reservation, windowAt: real, window: real)
    requires RowOk(r, windowAt) && !r.released && !r.known
    ensures UsedPart(r, window) == 0
  {
  }

  /** Removing a reservation and giving back its counts keeps a bucket in order. */
  lemma RemovalFollows(s: State, w: nat, b: Bucket, key: BucketKey)
    requires w in s.reservations && key in s.buckets && BucketOk(s, key) && b.windowAt == s.buckets[key].windowAt
    requires UsedShare(s.reservations[w], key, b.windowAt) == 0 && b.used == s.buckets[key].used
    requires b.outstanding == s.buckets[key].outstanding - LiveBit(s.reservations[w], key)
    requires key.InstallationKey? ==> b.reserved == s.buckets[key].reserved - ReservedShare(s.reservations[w], key)
    ensures BucketOk(State(s.buckets[key := b], s.reservations - {w}), key)
  {
    RemovedSums(s.reservations, w, key, b.windowAt);
    BucketFollows(s, s.reservations - {w}, b, key);
  }

  lemma WithdrawKeepsBucket(s: State, w: nat, key: BucketKey)
    requires Ledger(s) && w in s.reservations && !s.reservations[w].released && !s.reservations[w].known && key in s.buckets
    ensures key in Withdraw(s, w).buckets && BucketOk(Withdraw(s, w), key)
  {
    var r, s' := s.reservations[w], Withdraw(s, w);
    GivenBackBucket(s.buckets, r.ask, r.reserved, 0, key);
    NoReceiptsNoUse(r, s.buckets[KeyFor(r.ask, Installation)].windowAt, s.buckets[key].windowAt);
    if Carries(r.ask, key) { LiveIsCounted(s, w, key); }
    if key.InstallationKey? { SameInstallation(r.ask, key); }
    RemovalFollows(s, w, s'.buckets[key], key);
    BucketOkLocal(State(s.buckets[key := s'.buckets[key]], s'.reservations), s', key);
  }

  /** A reservation that was just made is withdrawn without a trace in the three sums. */
  lemma WithdrawKeepsLedger(s: State, w: nat)
    requires Ledger(s) && w in s.reservations && !s.reservations[w].released && !s.reservations[w].known
    ensures Ledger(Withdraw(s, w))
  {
    var r, s' := s.reservations[w], Withdraw(s, w);
    GivingBackKeepsWindows(s.buckets, r.ask, r.reserved, 0);
    RowsFollow(s, s'.buckets, w, r);
    forall key | key in s'.buckets ensures BucketOk(s', key) { WithdrawKeepsBucket(s, w, key); }
  }

  lemma AdmitKeepsLedger(s: State, ask: Ask, cfg: Config, now: real, created: bool)
    requires ValidConfig(cfg) && Ledger(s)
    ensures Ledger(Admit(s, ask, cfg, now, created).0)
  {
    var found := s.(buckets := RefillAll(s.buckets, ask, LOCK_ORDER, cfg, now));
    RefillKeepsLedger(s, ask, LOCK_ORDER, cfg, now);
    RefilledBucket(s.buckets, ask, cfg, now, KeyFor(ask, Installation));
    RefilledBucket(s.buckets, ask, cfg, now, KeyFor(ask, Repository));
    RefilledBucket(s.buckets, ask, cfg, now, KeyFor(ask, Actor));
    var reserved := Reserve(s, ask, cfg, now);
    if reserved.1.Admitted? {
      TakingKeepsLedger(found, ask, TokensToReserve(cfg));
      if !created { WithdrawKeepsLedger(reserved.0, ask.workItem); }
    }
  }

  // ----- Receipts -----

  /** A new receipt adds its tokens to the sums it belongs to, and to no other window. */
  lemma ReceiptSums(r: Reservation, execution: string, actual: nat, counted: Option<real>, r': Reservation, window: real)
    requires execution !in r.receipts && r'.receipts == r.receipts[execution := Receipt(actual, counted)]
    ensures CountedIn(r', window) == CountedIn(r, window) + (if counted == Some(window) then actual else 0)
    ensures Total(ReceiptTokens(r'), r'.receipts.Keys) == Total(ReceiptTokens(r), r.receipts.Keys) + actual
  {
    assert r'.receipts.Keys == r.receipts.Keys + {execution};
    assert CountedTokens(r', window)[execution] == (if counted == Some(window) then actual else 0);
    assert ReceiptTokens(r')[execution] == actual;
    TotalSame(CountedTokens(r, window), CountedTokens(r', window), r.receipts.Keys);
    TotalAdd(CountedTokens(r', window), r.receipts.Keys, execution);
    TotalSame(ReceiptTokens(r), ReceiptTokens(r'), r.receipts.Keys);
    TotalAdd(ReceiptTokens(r'), r.receipts.Keys, execution);
  }

  /** The application computed for a receipt is exactly the change of the ask's share. */
  lemma ReceiptShare(r: Reservation, execution: string, actual: nat, windowAt: real)
    requires RowOk(r, windowAt) && execution !in r.receipts
    ensures var app := ApplicationFor(r, SameWindow(r.unknownWindow, windowAt), actual);
            var r' := WithReceipt(r, execution, actual, app, windowAt);
            && RowOk(r', windowAt) && r'.ask == r.ask && r'.released == r.released
            && UsedPart(r', windowAt) == UsedPart(r, windowAt) + (if app.Adjust? then app.usedDelta else 0)
            && r'.reserved == r.reserved - (if app.Adjust? then app.reservedRelease else 0)
            && (app.Adjust? && r.released ==> app.reservedRelease == 0)
  {
    var app := ApplicationFor(r, SameWindow(r.unknownWindow, windowAt), actual);
    var r' := WithReceipt(r, execution, actual, app, windowAt);
    ReceiptSums(r, execution, actual, r'.receipts[execution].countedIn, r', windowAt);
  }

  /** The used tokens of an ask are part of its installation's, so correcting them never clamps. */
  lemma ShareIsCounted(s: State, w: nat)
    requires Ledger(s) && w in s.reservations
    ensures var key := KeyFor(s.reservations[w].ask, Installation);
            key in s.buckets && s.buckets[key].used >= UsedPart(s.reservations[w], s.buckets[key].windowAt)
  {
    var key := KeyFor(s.reservations[w].ask, Installation);
    assert BucketOk(s, key);
    TotalPick(UsedOf(s.reservations, s.buckets[key].windowAt), Holders(s.reservations, key), w);
  }

  /** Neither clamp of a receipt's update binds. */
  lemma {:induction false} ReceiptNeverClamps(s: State, w: nat, execution: string, actual: nat)
    requires Ledger(s) && w in s.reservations && execution !in s.reservations[w].receipts
    ensures var r := s.reservations[w];
            var b := s.buckets[KeyFor(r.ask, Installation)];
            var app := ApplicationFor(r, SameWindow(r.unknownWindow, b.windowAt), actual);
            app.Adjust? ==> b.reserved >= app.reservedRelease && b.used + app.usedDelta >= 0
  {
    var r := s.reservations[w];
    var key := KeyFor(r.ask, Installation);
    ReceiptShare(r, execution, actual, s.buckets[key].windowAt);
    ShareIsCounted(s, w);
    if !r.released { LiveIsCounted(s, w, key); }
  }

  /** Nor do those of a release. */
  lemma {:induction false} ReleaseNeverClamps(s: State, w: nat)
    requires Ledger(s) && w in s.reservations && !s.reservations[w].released
    ensures var r := s.reservations[w];
            && (forall scope :: KeyFor(r.ask, scope) in s.buckets ==> s.buckets[KeyFor(r.ask, scope)].outstanding >= 1)
            && KeyFor(r.ask, Installation) in s.buckets && s.buckets[KeyFor(r.ask, Installation)].reserved >= r.reserved
  {
    var r := s.reservations[w];
    forall scope | KeyFor(r.ask, scope) in s.buckets ensures s.buckets[KeyFor(r.ask, scope)].outstanding >= 1 {
      LiveIsCounted(s, w, KeyFor(r.ask, scope));
    }
    LiveIsCounted(s, w, KeyFor(r.ask, Installation));
  }

  function AppliedTo(s: State, w: nat, actual: nat): Application
    requires w in s.reservations && Placed(s.buckets, s.reservations[w].ask)
  {
    var r := s.reservations[w];
    ApplicationFor(r, SameWindow(r.unknownWindow, s.buckets[KeyFor(r.ask, Installation)].windowAt), actual)
  }

  lemma RecordedBucket(s: State, w: nat, execution: string, actual: nat, key: BucketKey)
    requires w in s.reservations && Placed(s.buckets, s.reservations[w].ask) && execution !in s.reservations[w].receipts && key in s.buckets
    requires var app, b := AppliedTo(s, w, actual), s.buckets[KeyFor(s.reservations[w].ask, Installation)];
             app.Adjust? ==> b.reserved >= app.reservedRelease && b.used + app.usedDelta >= 0
    ensures var r, s' := s.reservations[w], Record(s, w, execution, actual).0;
            var app, inst := AppliedTo(s, w, actual), KeyFor(r.ask, Installation);
            && s'.reservations == s.reservations[w := WithReceipt(r, execution, actual, app, s.buckets[inst].windowAt)]
            && SameWindows(s.buckets, s'.buckets)
            && s'.buckets[key].outstanding == s.buckets[key].outstanding
            && s'.buckets[key].reserved == s.buckets[key].reserved - (if key == inst && app.Adjust? then app.reservedRelease else 0)
            && s'.buckets[key].used == s.buckets[key].used + (if key == inst && app.Adjust? then app.usedDelta else 0)
  {
  }

  /** A receipt leaves the live count alone and moves the two sums of its own installation only. */
  lemma ReceiptMovesShares(r: Reservation, execution: string, actual: nat, windowAt: real, key: BucketKey, window: real)
    requires RowOk(r, windowAt) && execution !in r.receipts
    requires key == KeyFor(r.ask, Installation) ==> window == windowAt
    ensures var app := ApplicationFor(r, SameWindow(r.unknownWindow, windowAt), actual);
            var r' := WithReceipt(r, execution, actual, app, windowAt);
            var mine := key == KeyFor(r.ask, Installation) && app.Adjust?;
            && LiveBit(r', key) == LiveBit(r, key)
            && (key.InstallationKey? ==> ReservedShare(r', key) == ReservedShare(r, key) - (if mine then app.reservedRelease else 0))
            && UsedShare(r', key, window) == UsedShare(r, key, window) + (if mine then app.usedDelta else 0)
  {
    ReceiptShare(r, execution, actual, windowAt);
    if key.InstallationKey? { SameInstallation(r.ask, key); }
  }

  lemma RecordKeepsBucket(s: State, w: nat, execution: string, actual: nat, key: BucketKey)
    requires Ledger(s) && w in s.reservations && execution !in s.reservations[w].receipts && key in s.buckets
    ensures key in Record(s, w, execution, actual).0.buckets && BucketOk(Record(s, w, execution, actual).0, key)
  {
    var r, s' := s.reservations[w], Record(s, w, execution, actual).0;
    var windowAt, window := s.buckets[KeyFor(r.ask, Installation)].windowAt, s.buckets[key].windowAt;
    var r' := WithReceipt(r, execution, actual, AppliedTo(s, w, actual), windowAt);
    ReceiptNeverClamps(s, w, execution, actual);
    RecordedBucket(s, w, execution, actual, key);
    ReceiptMovesShares(r, execution, actual, windowAt, key, window);
    ChangedSums(s.reservations, w, r', key, window);
    assert BucketOk(s, key);
    BucketFollows(s, s.reservations[w := r'], s'.buckets[key], key);
    BucketOkLocal(State(s.buckets[key := s'.buckets[key]], s'.reservations), s', key);
  }

  lemma {:induction false} RecordKeepsLedger(s: State, w: nat, execution: string, actual: nat)
    requires Ledger(s)
    ensures Ledger(Record(s, w, execution, actual).0)
  {
    if w in s.reservations && execution !in s.reservations[w].receipts {
      var r, s' := s.reservations[w], Record(s, w, execution, actual).0;
      ReceiptShare(r, execution, actual, s.buckets[KeyFor(r.ask, Installation)].windowAt);
      ReceiptNeverClamps(s, w, execution, actual);
      RecordedBucket(s, w, execution, actual, KeyFor(r.ask, Installation));
      RowsFollow(s, s'.buckets, w, s'.reservations[w]);
      forall key | key in s'.buckets ensures BucketOk(s', key) { RecordKeepsBucket(s, w, execution, actual, key); }
    }
  }

  // ----- Whole runs -----

  lemma StepKeepsLedger(s: State, cfg: Config, step: Step)
    requires ValidConfig(cfg) && Ledger(s)
    ensures Ledger(Apply(s, cfg, step))
  {
    match step
    case AdmitStep(ask, now, created) => AdmitKeepsLedger(s, ask, cfg, now, created);
    case ReleaseStep(w) => ReleaseKeepsLedger(s, w);
    case RecordStep(w, execution, actual) => RecordKeepsLedger(s, w, execution, actual);
  }

  /** Every run from an empty ledger keeps the books, under any configuration. */
  lemma {:induction false} RunKeepsLedger(s: State, cfg: Config, steps: seq<Step>)
    requires ValidConfig(cfg) && Ledger(s)
    ensures Ledger(Run(s, cfg, steps))
    decreases |steps|
  {
    if steps != [] {
      StepKeepsLedger(s, cfg, steps[0]);
      RunKeepsLedger(Apply(s, cfg, steps[0]), cfg, steps[1..]);
    }
  }

  // ----- Receipts are for good -----

  predicate Noted(s: State, w: nat, execution: string, actual: nat) {
    w in s.reservations && execution in s.reservations[w].receipts && s.reservations[w].receipts[execution].tokens == actual
  }

  lemma StaysNoted(s: State, cfg: Config, step: Step, w: nat, execution: string, actual: nat)
    requires ValidConfig(cfg) && Noted(s, w, execution, actual)
    ensures Noted(Apply(s, cfg, step), w, execution, actual)
  {
  }

  lemma {:induction false} NotedForever(s: State, cfg: Config, steps: seq<Step>, w: nat, execution: string, actual: nat)
    requires ValidConfig(cfg) && Noted(s, w, execution, actual)
    ensures Noted(Run(s, cfg, steps), w, execution, actual)
    decreases |steps|
  {
    if steps != [] {
      StaysNoted(s, cfg, steps[0], w, execution, actual);
      NotedForever(Apply(s, cfg, steps[0]), cfg, steps[1..], w, execution, actual);
    }
  }

  /**
    Once the usage of an execution was counted, reporting it again changes nothing, however many
    admissions, releases and other reports came in between; a different amount is told apart.
   */
  lemma RepeatsChangeNothing(s: State, cfg: Config, w: nat, execution: string, actual: nat, steps: seq<Step>, again: nat)
    requires ValidConfig(cfg) && Record(s, w, execution, actual).1 == Counted
    ensures var later := Run(Record(s, w, execution, actual).0, cfg, steps);
            Record(later, w, execution, again) == (later, if again == actual then Repeated else Conflicting)
  {
    NotedForever(Record(s, w, execution, actual).0, cfg, steps, w, execution, actual);
  }

  predicate WithinCaps(s: State, cfg: Config) {
    forall key :: key in s.buckets ==> s.buckets[key].outstanding <= ConfigFor(cfg, key).maxOutstanding
  }

  lemma FoundWithinCaps(s: State, cfg: Config, step: Step, key: BucketKey)
    requires ValidConfig(cfg) && WithinCaps(s, cfg) && step.AdmitStep? && key in Found(s, cfg, step)
    ensures Placed(Found(s, cfg, step), step.ask)
    ensures Found(s, cfg, step)[key].outstanding <= ConfigFor(cfg, key).maxOutstanding
  {
    RefilledBucket(s.buckets, step.ask, cfg, step.now, KeyFor(step.ask, Installation));
    RefilledBucket(s.buckets, step.ask, cfg, step.now, KeyFor(step.ask, Repository));
    RefilledBucket(s.buckets, step.ask, cfg, step.now, KeyFor(step.ask, Actor));
    RefilledBucket(s.buckets, step.ask, cfg, step.now, key);
  }

  /** A taken bucket was below its cap before. */
  lemma TakenWithinCap(found: Buckets, ask: Ask, cfg: Config, tokens: nat, key: BucketKey)
    requires Placed(found, ask) && key in found && found[key].outstanding <= ConfigFor(cfg, key).maxOutstanding
    requires Reject(found, ask, cfg) == None
    ensures var taken := AddReserved(TakeAll(found, ask, LOCK_ORDER), ask, tokens);
            Placed(taken, ask) && key in taken && taken[key].outstanding <= ConfigFor(cfg, key).maxOutstanding
  {
    ReservedBucket(found, ask, tokens, key);
    if Carries(ask, key) { PassedChecks(found, ask, cfg, ScopeOf(key)); }
  }

  /** What an admission took stays within the caps. */
  lemma ReserveKeepsCap(s: State, cfg: Config, step: Step, key: BucketKey)
    requires ValidConfig(cfg) && WithinCaps(s, cfg) && step.AdmitStep?
    requires var reserved := Reserve(s, step.ask, cfg, step.now); reserved.1.Admitted? && key in reserved.0.buckets
    ensures var reserved := Reserve(s, step.ask, cfg, step.now);
            Placed(reserved.0.buckets, step.ask) && reserved.0.buckets[key].outstanding <= ConfigFor(cfg, key).maxOutstanding
  {
    var found := Found(s, cfg, step);
    FoundWithinCaps(s, cfg, step, KeyFor(step.ask, Installation));
    ReservedBucket(found, step.ask, TokensToReserve(cfg), key);
    FoundWithinCaps(s, cfg, step, key);
    TakenWithinCap(found, step.ask, cfg, TokensToReserve(cfg), key);
  }

  lemma AdmitKeepsCap(s: State, cfg: Config, step: Step, key: BucketKey)
    requires ValidConfig(cfg) && WithinCaps(s, cfg) && step.AdmitStep? && key in Apply(s, cfg, step).buckets
    ensures Apply(s, cfg, step).buckets[key].outstanding <= ConfigFor(cfg, key).maxOutstanding
  {
    var reserved := Reserve(s, step.ask, cfg, step.now);
    if reserved.1.Admitted? {
      ReserveKeepsCap(s, cfg, step, key);
      if !step.created { GivenBackBucket(reserved.0.buckets, step.ask, TokensToReserve(cfg), 0, key); }
    } else if reserved.1.Throttled? {
      FoundWithinCaps(s, cfg, step, key);
    }
  }

  lemma {:induction false} CapsHold(s: State, cfg: Config, steps: seq<Step>)
    requires ValidConfig(cfg) && WithinCaps(s, cfg)
    ensures WithinCaps(Run(s, cfg, steps), cfg)
    decreases |steps|
  {
    if steps != [] {
      var s' := Apply(s, cfg, steps[0]);
      forall key | key in s'.buckets ensures s'.buckets[key].outstanding <= ConfigFor(cfg, key).maxOutstanding {
        if steps[0].AdmitStep? { AdmitKeepsCap(s, cfg, steps[0], key); }
      }
      CapsHold(s', cfg, steps[1..]);
    }
  }

  /**
    Conservation over every run: each bucket's outstanding count is the number of unreleased reservations
    that carry its key and stays within its cap; an installation's reserved and used tokens are the sums
    of what its asks account for.
   */
  lemma QuotaIsConserved(cfg: Config, steps: seq<Step>, key: BucketKey)
    requires ValidConfig(cfg) && key in Run(State(map[], map[]), cfg, steps).buckets
    ensures var s := Run(State(map[], map[]), cfg, steps);
            var b := s.buckets[key];
            && b.outstanding == |Live(s.reservations, key)| <= ConfigFor(cfg, key).maxOutstanding
            && (key.InstallationKey? ==>
                  && b.reserved == Total(ReservedOf(s.reservations), Live(s.reservations, key))
                  && b.used == Total(UsedOf(s.reservations, b.windowAt), Holders(s.reservations, key)))
  {
    RunKeepsLedger(State(map[], map[]), cfg, steps);
    CapsHold(State(map[], map[]), cfg, steps);
    assert BucketOk(Run(State(map[], map[]), cfg, steps), key);
  }
}

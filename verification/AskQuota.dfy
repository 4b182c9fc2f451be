/**
  Ask admission (src/agentWork/askQuota.ts): token buckets for three scopes, outstanding counts and a
  ledger of provider tokens. Time is in seconds, on one clock; token balances are exact.
 */
module AskQuota {
  import opened Wrappers

  datatype Scope = Installation | Repository | Actor

  datatype BucketKey =
    | InstallationKey(installation: nat)
    | RepositoryKey(installation: nat, repository: string)
    | ActorKey(installation: nat, commenter: nat)

  datatype Ask = Ask(workItem: nat, installation: nat, repository: string, commenter: nat)

  datatype ScopeConfig = ScopeConfig(maxOutstanding: nat, burst: nat, refillSeconds: real)

  datatype Config = Config(installation: ScopeConfig, repository: ScopeConfig, actor: ScopeConfig,
                           budget: nat, windowSeconds: real, reservationTokens: nat)

  datatype Bucket = Bucket(tokens: real, refilledAt: real, outstanding: nat, used: nat, reserved: nat, windowAt: real)

  /** countedIn is bookkeeping: the provider window whose `used` the receipt went into, if any. */
  datatype Receipt = Receipt(tokens: nat, countedIn: Option<real>)

  datatype Reservation = Reservation(
    ask: Ask,
    reserved: nat,
    known: bool,
    used: nat,
    released: bool,
    unknownCharged: nat,
    unknownWindow: Option<real>,
    receipts: map<string, Receipt>)

  type Buckets = map<BucketKey, Bucket>

  type Reservations = map<nat, Reservation>

  datatype State = State(buckets: Buckets, reservations: Reservations)

  datatype Rejection = TooManyOutstanding(scope: Scope) | TooFast(scope: Scope) | ProviderBudget

  datatype Admission = Admitted(reservedTokens: nat) | Throttled(reason: Rejection) | DuplicateItem

  const LOCK_ORDER: seq<Scope> := [Installation, Repository, Actor]
  const CHECK_ORDER: seq<Scope> := [Actor, Repository, Installation]

  /** settings/slices/ask.ts reads every one of these as a positive number. */
  predicate ValidConfig(cfg: Config) {
    cfg.installation.refillSeconds > 0.0 && cfg.repository.refillSeconds > 0.0 && cfg.actor.refillSeconds > 0.0 && cfg.windowSeconds > 0.0
  }

  function KeyFor(ask: Ask, scope: Scope): BucketKey {
    match scope
    case Installation => InstallationKey(ask.installation)
    case Repository => RepositoryKey(ask.installation, ask.repository)
    case Actor => ActorKey(ask.installation, ask.commenter)
  }

  predicate Carries(ask: Ask, key: BucketKey) {
    key == KeyFor(ask, Installation) || key == KeyFor(ask, Repository) || key == KeyFor(ask, Actor)
  }

  function ConfigFor(cfg: Config, key: BucketKey): ScopeConfig {
    match key
    case InstallationKey(_) => cfg.installation
    case RepositoryKey(_, _) => cfg.repository
    case ActorKey(_, _) => cfg.actor
  }

  function Min(a: real, b: real): real { if a <= b then a else b }

  function Max(a: real, b: real): real { if a >= b then a else b }

  /** GREATEST(0, n). */
  function Clamp(n: int): nat { if n >= 0 then n else 0 }

  // ----- Refill -----

  function Balance(b: Bucket, sc: ScopeConfig, now: real): real
    requires sc.refillSeconds > 0.0
  {
    Min(sc.burst as real, Max(0.0, b.tokens) + Max(0.0, now - b.refilledAt) / sc.refillSeconds)
  }

  predicate Rolls(b: Bucket, key: BucketKey, cfg: Config, now: real) {
    key.InstallationKey? && cfg.budget > 0 && now - b.windowAt >= cfg.windowSeconds
  }

  function Refill(b: Bucket, key: BucketKey, cfg: Config, now: real): Bucket
    requires ValidConfig(cfg)
  {
    var filled := b.(tokens := Balance(b, ConfigFor(cfg, key), now), refilledAt := now);
    if Rolls(b, key, cfg, now) then filled.(used := 0, windowAt := now) else filled
  }

  function FreshBucket(cfg: Config, key: BucketKey, now: real): Bucket {
    Bucket(ConfigFor(cfg, key).burst as real, now, 0, 0, 0, now)
  }

  function LockAndRefill(buckets: Buckets, key: BucketKey, cfg: Config, now: real): Buckets
    requires ValidConfig(cfg)
  {
    buckets[key := Refill(if key in buckets then buckets[key] else FreshBucket(cfg, key, now), key, cfg, now)]
  }

  function RefillAll(buckets: Buckets, ask: Ask, scopes: seq<Scope>, cfg: Config, now: real): Buckets
    requires ValidConfig(cfg)
    decreases |scopes|
  {
    if scopes == [] then buckets
    else RefillAll(LockAndRefill(buckets, KeyFor(ask, scopes[0]), cfg, now), ask, scopes[1..], cfg, now)
  }

  // ----- Checks -----

  function ScopeRejection(buckets: Buckets, ask: Ask, scope: Scope, cfg: Config): Option<Rejection> {
    var key := KeyFor(ask, scope);
    if key !in buckets then None
    else if buckets[key].outstanding >= ConfigFor(cfg, key).maxOutstanding then Some(TooManyOutstanding(scope))
    else if buckets[key].tokens < 1.0 then Some(TooFast(scope))
    else None
  }

  function FirstRejection(buckets: Buckets, ask: Ask, scopes: seq<Scope>, cfg: Config): Option<Rejection>
    decreases |scopes|
  {
    if scopes == [] then None
    else
      var r := ScopeRejection(buckets, ask, scopes[0], cfg);
      if r.Some? then r else FirstRejection(buckets, ask, scopes[1..], cfg)
  }

  function TokensToReserve(cfg: Config): nat { if cfg.budget > 0 then cfg.reservationTokens else 0 }

  function Reject(buckets: Buckets, ask: Ask, cfg: Config): Option<Rejection> {
    var r := FirstRejection(buckets, ask, CHECK_ORDER, cfg);
    var key := KeyFor(ask, Installation);
    if r.Some? then r
    else if TokensToReserve(cfg) > 0 && key in buckets && buckets[key].used + buckets[key].reserved + TokensToReserve(cfg) > cfg.budget
    then Some(ProviderBudget)
    else None
  }

  // ----- Taking -----

  function TakeOne(b: Bucket): Bucket { b.(tokens := b.tokens - 1.0, outstanding := b.outstanding + 1) }

  function TakeAll(buckets: Buckets, ask: Ask, scopes: seq<Scope>): Buckets
    decreases |scopes|
  {
    if scopes == [] then buckets
    else
      var key := KeyFor(ask, scopes[0]);
      TakeAll(if key in buckets then buckets[key := TakeOne(buckets[key])] else buckets, ask, scopes[1..])
  }

  function AddReserved(buckets: Buckets, ask: Ask, tokens: nat): Buckets {
    var key := KeyFor(ask, Installation);
    if key in buckets then buckets[key := buckets[key].(reserved := buckets[key].reserved + tokens)] else buckets
  }

  function NewReservation(ask: Ask, tokens: nat): Reservation {
    Reservation(ask, tokens, false, 0, false, 0, None, map[])
  }

  function Reserve(s: State, ask: Ask, cfg: Config, now: real): (r: (State, Admission))
    requires ValidConfig(cfg)
  {
    var buckets := RefillAll(s.buckets, ask, LOCK_ORDER, cfg, now);
    var rejected := Reject(buckets, ask, cfg);
    if rejected.Some? then (s.(buckets := buckets), Throttled(rejected.value))
    else if ask.workItem in s.reservations then (s, DuplicateItem)
    else
      var tokens := TokensToReserve(cfg);
      (State(AddReserved(TakeAll(buckets, ask, LOCK_ORDER), ask, tokens),
             s.reservations[ask.workItem := NewReservation(ask, tokens)]),
       Admitted(tokens))
  }

  // ----- Giving back -----

  function DecrementOne(b: Bucket, tokens: nat, charge: nat): Bucket {
    b.(outstanding := Clamp(b.outstanding - 1), reserved := Clamp(b.reserved - tokens), used := b.used + charge)
  }

  function Decrement(buckets: Buckets, key: BucketKey, tokens: nat, charge: nat): Buckets {
    if key in buckets then buckets[key := DecrementOne(buckets[key], tokens, charge)] else buckets
  }

  function GiveBack(buckets: Buckets, ask: Ask, tokens: nat, charge: nat): Buckets {
    Decrement(Decrement(Decrement(buckets, KeyFor(ask, Installation), tokens, charge), KeyFor(ask, Repository), 0, 0), KeyFor(ask, Actor), 0, 0)
  }

  /** releaseAskQuotaReservation: the reservation of an admission that created no work item. */
  function Withdraw(s: State, workItem: nat): State {
    if workItem !in s.reservations || s.reservations[workItem].released then s
    else State(GiveBack(s.buckets, s.reservations[workItem].ask, s.reservations[workItem].reserved, 0), s.reservations - {workItem})
  }

  /** The trigger of migration 029, when a work item becomes terminal. Unknown usage is charged in full. */
  function Release(s: State, workItem: nat): State {
    if workItem !in s.reservations || s.reservations[workItem].released then s
    else
      var r := s.reservations[workItem];
      var key := KeyFor(r.ask, Installation);
      var charge := if r.known then 0 else r.reserved;
      var window := if charge > 0 && key in s.buckets then Some(s.buckets[key].windowAt) else None;
      State(GiveBack(s.buckets, r.ask, r.reserved, charge),
            s.reservations[workItem := r.(released := true, reserved := 0, unknownCharged := charge, unknownWindow := window)])
  }

  /** admitAsk: `created` is what the work-item insert answered. */
  function Admit(s: State, ask: Ask, cfg: Config, now: real, created: bool): (r: (State, Admission))
    requires ValidConfig(cfg)
  {
    var (next, admission) := Reserve(s, ask, cfg, now);
    if admission.Admitted? && !created then (Withdraw(next, ask.workItem), admission) else (next, admission)
  }

  // ----- Receipts -----

  datatype Application = Adjust(reservedRelease: nat, usedDelta: int) | ReceiptOnly

  predicate SameWindow(left: Option<real>, right: real) { left.Some? ==> left.value == right }

  function ApplicationFor(r: Reservation, sameUnknownWindow: bool, actual: nat): Application {
    if r.released && r.unknownCharged > 0 && !sameUnknownWindow then ReceiptOnly
    else if r.known then Adjust(0, actual)
    else if !r.released then Adjust(r.reserved, actual)
    else Adjust(0, actual - r.unknownCharged)
  }

  datatype Recorded = Counted | Repeated | Conflicting | Ignored | MissingBucket | MissingExecutionId

  function WithReceipt(r: Reservation, execution: string, actual: nat, app: Application, windowAt: real): Reservation {
    var noted := r.(known := true, used := r.used + actual);
    match app
    case ReceiptOnly => noted.(receipts := r.receipts[execution := Receipt(actual, None)])
    case Adjust(_, _) =>
      noted.(reserved := 0, unknownCharged := 0, receipts := r.receipts[execution := Receipt(actual, Some(windowAt))])
  }

  function AfterApplication(b: Bucket, app: Application): Bucket {
    match app
    case ReceiptOnly => b
    case Adjust(release, delta) => b.(reserved := Clamp(b.reserved - release), used := Clamp(b.used + delta))
  }

  function Record(s: State, workItem: nat, execution: string, actual: nat): (r: (State, Recorded)) {
    if workItem !in s.reservations then (s, Ignored)
    else
      var r := s.reservations[workItem];
      var key := KeyFor(r.ask, Installation);
      if execution in r.receipts then (s, if r.receipts[execution].tokens == actual then Repeated else Conflicting)
      else if key !in s.buckets then (s, MissingBucket)
      else
        var b := s.buckets[key];
        var app := ApplicationFor(r, SameWindow(r.unknownWindow, b.windowAt), actual);
        (State(s.buckets[key := AfterApplication(b, app)],
               s.reservations[workItem := WithReceipt(r, execution, actual, app, b.windowAt)]),
         Counted)
  }

  // ----- The repository object -----

  class Quota {
    var state: State

    constructor ()
      ensures state == State(map[], map[])
    {
      state := State(map[], map[]);
    }

    method LockAndRefillAll(ask: Ask, cfg: Config, now: real) returns (buckets: Buckets)
      requires ValidConfig(cfg)
      ensures buckets == RefillAll(state.buckets, ask, LOCK_ORDER, cfg, now)
    {
      buckets := state.buckets;
      var i := 0;
      while i < |LOCK_ORDER|
        invariant 0 <= i <= |LOCK_ORDER|
        invariant RefillAll(buckets, ask, LOCK_ORDER[i..], cfg, now) == RefillAll(state.buckets, ask, LOCK_ORDER, cfg, now)
      {
        assert LOCK_ORDER[i..][1..] == LOCK_ORDER[i + 1..];
        buckets := LockAndRefill(buckets, KeyFor(ask, LOCK_ORDER[i]), cfg, now);
        i := i + 1;
      }
    }

    method CheckScopes(buckets: Buckets, ask: Ask, cfg: Config) returns (rejected: Option<Rejection>)
      ensures rejected == FirstRejection(buckets, ask, CHECK_ORDER, cfg)
    {
      var i := 0;
      while i < |CHECK_ORDER|
        invariant 0 <= i <= |CHECK_ORDER|
        invariant FirstRejection(buckets, ask, CHECK_ORDER[i..], cfg) == FirstRejection(buckets, ask, CHECK_ORDER, cfg)
      {
        assert CHECK_ORDER[i..][1..] == CHECK_ORDER[i + 1..];
        rejected := ScopeRejection(buckets, ask, CHECK_ORDER[i], cfg);
        if rejected.Some? { return; }
        i := i + 1;
      }
      rejected := None;
    }

    method TakeScopes(before: Buckets, ask: Ask) returns (buckets: Buckets)
      ensures buckets == TakeAll(before, ask, LOCK_ORDER)
    {
      buckets := before;
      var i := 0;
      while i < |LOCK_ORDER|
        invariant 0 <= i <= |LOCK_ORDER|
        invariant TakeAll(buckets, ask, LOCK_ORDER[i..]) == TakeAll(before, ask, LOCK_ORDER)
      {
        assert LOCK_ORDER[i..][1..] == LOCK_ORDER[i + 1..];
        var key := KeyFor(ask, LOCK_ORDER[i]);
        if key in buckets { buckets := buckets[key := TakeOne(buckets[key])]; }
        i := i + 1;
      }
    }

    method ReserveAskQuota(ask: Ask, cfg: Config, now: real) returns (r: Admission)
      requires ValidConfig(cfg)
      modifies this
      ensures (state, r) == Reserve(old(state), ask, cfg, now)
    {
      var buckets := LockAndRefillAll(ask, cfg, now);
      var rejected := CheckScopes(buckets, ask, cfg);
      if rejected.Some? {
        state := state.(buckets := buckets);
        return Throttled(rejected.value);
      }
      var installation := KeyFor(ask, Installation);
      var tokens := TokensToReserve(cfg);
      if tokens > 0 && installation in buckets && buckets[installation].used + buckets[installation].reserved + tokens > cfg.budget {
        state := state.(buckets := buckets);
        return Throttled(ProviderBudget);
      }
      if ask.workItem in state.reservations { return DuplicateItem; }
      buckets := TakeScopes(buckets, ask);
      buckets := AddReserved(buckets, ask, tokens);
      state := State(buckets, state.reservations[ask.workItem := NewReservation(ask, tokens)]);
      r := Admitted(tokens);
    }

    /** `retained` is the work item found for the same mention; it is admitted again for free. */
    method AdmitAsk(ask: Ask, cfg: Config, now: real, retained: Option<nat>, created: bool) returns (r: Option<Admission>)
      requires ValidConfig(cfg)
      modifies this
      ensures retained.Some? ==> r == None && state == old(state)
      ensures retained.None? ==> r.Some? && (state, r.value) == Admit(old(state), ask, cfg, now, created)
    {
      if retained.Some? { return None; }
      var admission := ReserveAskQuota(ask, cfg, now);
      if admission.Admitted? && !created { state := Withdraw(state, ask.workItem); }
      r := Some(admission);
    }

    method ReleaseOnTerminal(workItem: nat)
      modifies this
      ensures state == Release(old(state), workItem)
      ensures workItem !in old(state).reservations || old(state).reservations[workItem].released ==> state == old(state)
      ensures workItem in old(state).reservations ==>
                && workItem in state.reservations && state.reservations[workItem].released
                && (!old(state).reservations[workItem].released ==>
                      && state.reservations[workItem].reserved == 0
                      && state.reservations[workItem].unknownCharged ==
                           if old(state).reservations[workItem].known then 0 else old(state).reservations[workItem].reserved)
    {
      state := Release(state, workItem);
    }

    /** Usage that is absent or negative is not recorded; a fraction is floored. */
    method RecordUsage(workItem: nat, execution: string, usage: Option<real>) returns (r: Recorded)
      modifies this
      ensures usage.None? || usage.value < 0.0 ==> r == Ignored
      ensures usage.Some? && usage.value >= 0.0 && execution == "" ==> r == MissingExecutionId
      ensures usage.Some? && usage.value >= 0.0 && execution != "" ==>
                (state, r) == Record(old(state), workItem, execution, usage.value.Floor)
      ensures r != Counted ==> state == old(state)
    {
      if usage.None? || usage.value < 0.0 { return Ignored; }
      if execution == "" { return MissingExecutionId; }
      var next := Record(state, workItem, execution, usage.value.Floor);
      state := next.0;
      r := next.1;
    }
  }
}

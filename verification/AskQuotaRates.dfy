/** The rate that each of the three token buckets allows, over any interval. */
module AskQuotaRates {
  import opened Wrappers
  import opened AskQuota

  datatype Step =
    | AdmitStep(ask: Ask, now: real, created: bool)
    | ReleaseStep(workItem: nat)
    | RecordStep(workItem: nat, execution: string, actual: nat)

  function Apply(s: State, cfg: Config, step: Step): State
    requires ValidConfig(cfg)
  {
    match step
    case AdmitStep(ask, now, created) => Admit(s, ask, cfg, now, created).0
    case ReleaseStep(workItem) => Release(s, workItem)
    case RecordStep(workItem, execution, actual) => Record(s, workItem, execution, actual).0
  }

  function Run(s: State, cfg: Config, steps: seq<Step>): State
    requires ValidConfig(cfg)
    decreases |steps|
  {
    if steps == [] then s else Run(Apply(s, cfg, steps[0]), cfg, steps[1..])
  }

  predicate AdmitsAt(s: State, cfg: Config, step: Step, key: BucketKey)
    requires ValidConfig(cfg)
  {
    step.AdmitStep? && Carries(step.ask, key) && Admit(s, step.ask, cfg, step.now, step.created).1.Admitted?
  }

  /** How many asks of a run are admitted through this bucket. */
  function Admissions(s: State, cfg: Config, steps: seq<Step>, key: BucketKey): nat
    requires ValidConfig(cfg)
    decreases |steps|
  {
    if steps == [] then 0
    else (if AdmitsAt(s, cfg, steps[0], key) then 1 else 0) + Admissions(Apply(s, cfg, steps[0]), cfg, steps[1..], key)
  }

  /** One clock: admissions happen at non-decreasing times within [from, to]. */
  predicate Timed(steps: seq<Step>, from: real, to: real)
    decreases |steps|
  {
    if steps == [] then from <= to
    else if steps[0].AdmitStep? then from <= steps[0].now <= to && Timed(steps[1..], steps[0].now, to)
    else Timed(steps[1..], from, to)
  }

  // ----- One admission, bucket by bucket -----

  lemma RefilledBucket(buckets: Buckets, ask: Ask, cfg: Config, now: real, key: BucketKey)
    requires ValidConfig(cfg)
    ensures var r := RefillAll(buckets, ask, LOCK_ORDER, cfg, now);
            && (key in r <==> key in buckets || Carries(ask, key))
            && (Carries(ask, key) ==> r[key] == Refill(if key in buckets then buckets[key] else FreshBucket(cfg, key, now), key, cfg, now))
            && (key in buckets && !Carries(ask, key) ==> r[key] == buckets[key])
  {
    var one := LockAndRefill(buckets, KeyFor(ask, Installation), cfg, now);
    var two := LockAndRefill(one, KeyFor(ask, Repository), cfg, now);
    var three := LockAndRefill(two, KeyFor(ask, Actor), cfg, now);
    assert LOCK_ORDER[1..] == [Repository, Actor] && LOCK_ORDER[1..][1..] == [Actor] && LOCK_ORDER[1..][1..][1..] == [];
    assert RefillAll(three, ask, [], cfg, now) == three;
    assert RefillAll(two, ask, [Actor], cfg, now) == three;
    assert RefillAll(one, ask, [Repository, Actor], cfg, now) == three;
  }

  lemma TakenBucket(buckets: Buckets, ask: Ask, key: BucketKey)
    requires key in buckets && forall scope :: KeyFor(ask, scope) in buckets
    ensures var r := TakeAll(buckets, ask, LOCK_ORDER);
            && r.Keys == buckets.Keys
            && r[key] == if Carries(ask, key) then TakeOne(buckets[key]) else buckets[key]
  {
    var ki, kr, ka := KeyFor(ask, Installation), KeyFor(ask, Repository), KeyFor(ask, Actor);
    var one := buckets[ki := TakeOne(buckets[ki])];
    var two := one[kr := TakeOne(one[kr])];
    var three := two[ka := TakeOne(two[ka])];
    assert LOCK_ORDER[1..] == [Repository, Actor] && LOCK_ORDER[1..][1..] == [Actor] && LOCK_ORDER[1..][1..][1..] == [];
    assert TakeAll(three, ask, []) == three;
    assert TakeAll(two, ask, [Actor]) == three;
    assert TakeAll(one, ask, [Repository, Actor]) == three;
  }

  /** What passed the checks is below its cap and has a whole token, in every scope. */
  lemma PassedChecks(buckets: Buckets, ask: Ask, cfg: Config, scope: Scope)
    requires Reject(buckets, ask, cfg) == None && KeyFor(ask, scope) in buckets
    ensures var b := buckets[KeyFor(ask, scope)]; b.tokens >= 1.0 && b.outstanding < ConfigFor(cfg, KeyFor(ask, scope)).maxOutstanding
  {
    assert CHECK_ORDER[1..] == [Repository, Installation] && CHECK_ORDER[1..][1..] == [Installation];
    assert FirstRejection(buckets, ask, CHECK_ORDER, cfg) == None;
    assert FirstRejection(buckets, ask, [Repository, Installation], cfg) == None;
    assert FirstRejection(buckets, ask, [Installation], cfg) == None;
  }

  lemma WithdrawnBucket(s: State, workItem: nat, key: BucketKey)
    requires key in s.buckets
    ensures var s' := Withdraw(s, workItem);
            key in s'.buckets && s'.buckets[key].tokens == s.buckets[key].tokens && s'.buckets[key].refilledAt == s.buckets[key].refilledAt
  {
  }

  predicate TokensKept(s: State, s': State, key: BucketKey) {
    && (key in s.buckets <==> key in s'.buckets)
    && (key in s.buckets ==> s'.buckets[key].tokens == s.buckets[key].tokens && s'.buckets[key].refilledAt == s.buckets[key].refilledAt)
  }

  /** Releases, withdrawals and receipts leave balances alone. */
  lemma OtherStepsKeepTokens(s: State, cfg: Config, step: Step, key: BucketKey)
    requires ValidConfig(cfg) && !step.AdmitStep?
    ensures TokensKept(s, Apply(s, cfg, step), key)
  {
  }

  /** The balance a request at time t would find. */
  function TokensAt(s: State, cfg: Config, key: BucketKey, t: real): real
    requires ValidConfig(cfg)
  {
    if key in s.buckets then Balance(s.buckets[key], ConfigFor(cfg, key), t) else ConfigFor(cfg, key).burst as real
  }

  lemma Quotients(a: real, b: real, r: real)
    requires r > 0.0 && a <= b
    ensures a / r <= b / r
  {
  }

  lemma QuotientsAdd(a: real, b: real, r: real)
    requires r > 0.0
    ensures a / r + b / r == (a + b) / r
  {
  }

  /** Refills compose: refilling in between does not change the balance found later. */
  lemma {:induction false} RefillsCompose(b: Bucket, key: BucketKey, cfg: Config, t: real, later: real)
    requires ValidConfig(cfg) && b.refilledAt <= t <= later
    ensures Balance(Refill(b, key, cfg, t), ConfigFor(cfg, key), later) == Balance(b, ConfigFor(cfg, key), later)
  {
    var r := ConfigFor(cfg, key).refillSeconds;
    QuotientsAdd(t - b.refilledAt, later - t, r);
    Quotients(0.0, later - t, r);
    Quotients(0.0, t - b.refilledAt, r);
  }

  /** Waiting earns at most one token per refill period. */
  lemma EarnedTokens(s: State, cfg: Config, key: BucketKey, t: real, later: real)
    requires ValidConfig(cfg) && t <= later
    requires key in s.buckets ==> s.buckets[key].refilledAt <= t
    ensures TokensAt(s, cfg, key, later) <= TokensAt(s, cfg, key, t) + (later - t) / ConfigFor(cfg, key).refillSeconds
  {
    var r := ConfigFor(cfg, key).refillSeconds;
    Quotients(0.0, later - t, r);
    if key in s.buckets { QuotientsAdd(t - s.buckets[key].refilledAt, later - t, r); }
  }

  function ScopeOf(key: BucketKey): Scope {
    match key
    case InstallationKey(_) => Installation
    case RepositoryKey(_, _) => Repository
    case ActorKey(_, _) => Actor
  }

  /** The buckets an admission starts from: refilled, all three present. */
  function Found(s: State, cfg: Config, step: Step): Buckets
    requires ValidConfig(cfg) && step.AdmitStep?
  {
    RefillAll(s.buckets, step.ask, LOCK_ORDER, cfg, step.now)
  }

  lemma AdmittedBucket(s: State, cfg: Config, step: Step, key: BucketKey)
    requires ValidConfig(cfg) && step.AdmitStep? && Admit(s, step.ask, cfg, step.now, step.created).1.Admitted?
    ensures var found, s' := Found(s, cfg, step), Apply(s, cfg, step);
            && (key in found <==> key in s'.buckets)
            && (key in found ==>
                  && s'.buckets[key].tokens == found[key].tokens - (if Carries(step.ask, key) then 1.0 else 0.0)
                  && s'.buckets[key].refilledAt == found[key].refilledAt
                  && (Carries(step.ask, key) ==> found[key].tokens >= 1.0))
  {
    var found := Found(s, cfg, step);
    forall scope ensures KeyFor(step.ask, scope) in found { RefilledBucket(s.buckets, step.ask, cfg, step.now, KeyFor(step.ask, scope)); }
    if key in found {
      TakenBucket(found, step.ask, key);
      if Carries(step.ask, key) { PassedChecks(found, step.ask, cfg, ScopeOf(key)); }
    }
    TakenBucket(found, step.ask, KeyFor(step.ask, Installation));
    var reserved := Reserve(s, step.ask, cfg, step.now).0;
    if key in reserved.buckets { WithdrawnBucket(reserved, step.ask.workItem, key); }
  }

  /** Right after a refill the balance found is the one stored. */
  lemma BalanceAtRefill(b: Bucket, sc: ScopeConfig, now: real)
    requires sc.refillSeconds > 0.0 && b.refilledAt == now && 0.0 <= b.tokens <= sc.burst as real
    ensures Balance(b, sc, now) == b.tokens
  {
    assert 0.0 / sc.refillSeconds == 0.0;
  }

  lemma RefillBounds(b: Bucket, key: BucketKey, cfg: Config, now: real)
    requires ValidConfig(cfg)
    ensures var r := Refill(b, key, cfg, now); r.refilledAt == now && 0.0 <= r.tokens <= ConfigFor(cfg, key).burst as real
  {
    Quotients(0.0, Max(0.0, now - b.refilledAt), ConfigFor(cfg, key).refillSeconds);
  }

  /** What refilling found is what a request at that time finds, in all the buckets it carries and the others. */
  lemma FoundBalance(s: State, cfg: Config, step: Step, key: BucketKey)
    requires ValidConfig(cfg) && step.AdmitStep?
    ensures var found := Found(s, cfg, step);
            && (Carries(step.ask, key) ==>
                  && key in found && found[key].refilledAt == step.now
                  && 0.0 <= found[key].tokens <= ConfigFor(cfg, key).burst as real
                  && found[key].tokens == TokensAt(s, cfg, key, step.now))
            && (!Carries(step.ask, key) ==> (key in found <==> key in s.buckets) && (key in found ==> found[key] == s.buckets[key]))
  {
    RefilledBucket(s.buckets, step.ask, cfg, step.now, key);
    if Carries(step.ask, key) {
      var b := if key in s.buckets then s.buckets[key] else FreshBucket(cfg, key, step.now);
      RefillBounds(b, key, cfg, step.now);
      if key !in s.buckets { BalanceAtRefill(b, ConfigFor(cfg, key), step.now); }
    }
  }

  /** The bucket after a request that carries it: its balance, less one if admitted. */
  lemma CarriedBucket(s: State, cfg: Config, step: Step, key: BucketKey)
    requires ValidConfig(cfg) && step.AdmitStep? && Carries(step.ask, key)
    requires !Admit(s, step.ask, cfg, step.now, step.created).1.DuplicateItem?
    ensures var s' := Apply(s, cfg, step);
            && key in s'.buckets && s'.buckets[key].refilledAt == step.now
            && s'.buckets[key].tokens == TokensAt(s, cfg, key, step.now) - (if AdmitsAt(s, cfg, step, key) then 1.0 else 0.0)
            && 0.0 <= s'.buckets[key].tokens <= ConfigFor(cfg, key).burst as real
  {
    FoundBalance(s, cfg, step, key);
    if AdmitsAt(s, cfg, step, key) { AdmittedBucket(s, cfg, step, key); }
  }

  /** A bucket that the request does not carry keeps its balance. */
  lemma UncarriedBucket(s: State, cfg: Config, step: Step, key: BucketKey)
    requires ValidConfig(cfg) && step.AdmitStep? && !Carries(step.ask, key)
    ensures TokensKept(s, Apply(s, cfg, step), key)
  {
    FoundBalance(s, cfg, step, key);
    if Admit(s, step.ask, cfg, step.now, step.created).1.Admitted? { AdmittedBucket(s, cfg, step, key); }
  }

  /** An admission takes one token from each of its buckets; a refused request takes none from any. */
  lemma {:induction false} AdmissionTakesOne(s: State, cfg: Config, step: Step, key: BucketKey)
    requires ValidConfig(cfg) && step.AdmitStep?
    requires key in s.buckets ==> s.buckets[key].refilledAt <= step.now
    ensures var s' := Apply(s, cfg, step);
            && (key in s'.buckets ==> s'.buckets[key].refilledAt <= step.now)
            && TokensAt(s', cfg, key, step.now) == TokensAt(s, cfg, key, step.now) - (if AdmitsAt(s, cfg, step, key) then 1.0 else 0.0)
  {
    if !Carries(step.ask, key) {
      UncarriedBucket(s, cfg, step, key);
    } else if !Admit(s, step.ask, cfg, step.now, step.created).1.DuplicateItem? {
      CarriedBucket(s, cfg, step, key);
      BalanceAtRefill(Apply(s, cfg, step).buckets[key], ConfigFor(cfg, key), step.now);
    }
  }

  // ----- The main results -----

  /** The balance at `from` and what time earns until `to`. */
  function Allowance(s: State, cfg: Config, key: BucketKey, from: real, to: real): real
    requires ValidConfig(cfg)
  {
    TokensAt(s, cfg, key, from) + (to - from) / ConfigFor(cfg, key).refillSeconds
  }

  /** Waiting never adds to the allowance: what the balance gains, the remaining time loses. */
  lemma WaitingEarnsNoMore(s: State, cfg: Config, key: BucketKey, from: real, t: real, to: real)
    requires ValidConfig(cfg) && from <= t <= to
    requires key in s.buckets ==> s.buckets[key].refilledAt <= from
    ensures Allowance(s, cfg, key, t, to) <= Allowance(s, cfg, key, from, to)
  {
    EarnedTokens(s, cfg, key, from, t);
    QuotientsAdd(t - from, to - t, ConfigFor(cfg, key).refillSeconds);
    assert (t - from) + (to - t) == to - from;
  }

  /** A request's token is paid for by the allowance, and the rest is left to later requests. */
  lemma RequestSpends(s: State, cfg: Config, step: Step, key: BucketKey, from: real, to: real)
    requires ValidConfig(cfg) && step.AdmitStep? && from <= step.now <= to
    requires key in s.buckets ==> s.buckets[key].refilledAt <= from
    ensures var s' := Apply(s, cfg, step);
            && (key in s'.buckets ==> s'.buckets[key].refilledAt <= step.now)
            && Allowance(s', cfg, key, step.now, to) + (if AdmitsAt(s, cfg, step, key) then 1.0 else 0.0) <= Allowance(s, cfg, key, from, to)
  {
    WaitingEarnsNoMore(s, cfg, key, from, step.now, to);
    AdmissionTakesOne(s, cfg, step, key);
  }

  /** Any other step leaves the balance. */
  lemma OtherStepsKeepAllowance(s: State, cfg: Config, step: Step, key: BucketKey, from: real)
    requires ValidConfig(cfg) && !step.AdmitStep?
    requires key in s.buckets ==> s.buckets[key].refilledAt <= from
    ensures var s' := Apply(s, cfg, step);
            && (key in s'.buckets ==> s'.buckets[key].refilledAt <= from)
            && forall to :: Allowance(s', cfg, key, from, to) == Allowance(s, cfg, key, from, to)
  {
    OtherStepsKeepTokens(s, cfg, step, key);
  }

  lemma AllowanceIsNatural(s: State, cfg: Config, key: BucketKey, from: real, to: real)
    requires ValidConfig(cfg) && from <= to
    ensures 0.0 <= Allowance(s, cfg, key, from, to)
  {
    BalanceIsNatural(s, cfg, key, from);
    Quotients(0.0, to - from, ConfigFor(cfg, key).refillSeconds);
  }

  lemma {:induction false} AdmissionsWithinBalance(s: State, cfg: Config, steps: seq<Step>, key: BucketKey, from: real, to: real)
    requires ValidConfig(cfg) && Timed(steps, from, to)
    requires key in s.buckets ==> s.buckets[key].refilledAt <= from
    ensures from <= to
    ensures Admissions(s, cfg, steps, key) as real <= Allowance(s, cfg, key, from, to)
    decreases |steps|
  {
    if steps == [] {
      AllowanceIsNatural(s, cfg, key, from, to);
    } else {
      var step, s' := steps[0], Apply(s, cfg, steps[0]);
      if step.AdmitStep? {
        RequestSpends(s, cfg, step, key, from, to);
        AdmissionsWithinBalance(s', cfg, steps[1..], key, step.now, to);
      } else {
        OtherStepsKeepAllowance(s, cfg, step, key, from);
        AdmissionsWithinBalance(s', cfg, steps[1..], key, from, to);
      }
    }
  }

  lemma BalanceIsNatural(s: State, cfg: Config, key: BucketKey, t: real)
    requires ValidConfig(cfg)
    ensures 0.0 <= TokensAt(s, cfg, key, t) <= ConfigFor(cfg, key).burst as real
  {
    if key in s.buckets { Quotients(0.0, Max(0.0, t - s.buckets[key].refilledAt), ConfigFor(cfg, key).refillSeconds); }
  }

  /**
    The token-bucket bound. Over any interval of length T, whatever is refused, released or reported in
    between, at most burst + T / refillSeconds asks are admitted through one actor, repository or
    installation.
   */
  lemma {:induction false} AdmissionRate(s: State, cfg: Config, steps: seq<Step>, key: BucketKey, from: real, to: real)
    requires ValidConfig(cfg) && Timed(steps, from, to)
    requires key in s.buckets ==> s.buckets[key].refilledAt <= from
    ensures Admissions(s, cfg, steps, key) as real <= ConfigFor(cfg, key).burst as real + (to - from) / ConfigFor(cfg, key).refillSeconds
  {
    AdmissionsWithinBalance(s, cfg, steps, key, from, to);
    BalanceIsNatural(s, cfg, key, from);
  }

  /** Nothing but the refill happened to a bucket: what is left to a later request is the same. */
  predicate OnlyRefilled(b: Bucket, b': Bucket) {
    b'.outstanding == b.outstanding && b'.reserved == b.reserved && (b'.used == b.used || (b'.used == 0 && b'.windowAt > b.windowAt))
  }

  lemma ThrottledOnlyRefills(s: State, ask: Ask, cfg: Config, now: real, created: bool)
    requires ValidConfig(cfg) && Admit(s, ask, cfg, now, created).1.Throttled?
    ensures Admit(s, ask, cfg, now, created).0 == s.(buckets := RefillAll(s.buckets, ask, LOCK_ORDER, cfg, now))
  {
  }

  lemma RefillTakesNothing(s: State, cfg: Config, key: BucketKey, now: real, later: real)
    requires ValidConfig(cfg) && now <= later && (key in s.buckets ==> s.buckets[key].refilledAt <= now)
    ensures var b := if key in s.buckets then s.buckets[key] else FreshBucket(cfg, key, now);
            && OnlyRefilled(b, Refill(b, key, cfg, now))
            && Balance(Refill(b, key, cfg, now), ConfigFor(cfg, key), later) == TokensAt(s, cfg, key, later)
  {
    var b := if key in s.buckets then s.buckets[key] else FreshBucket(cfg, key, now);
    RefillsCompose(b, key, cfg, now, later);
    Quotients(0.0, later - now, ConfigFor(cfg, key).refillSeconds);
  }

  /** A throttled request takes nothing from any of the three scopes, nor from any other bucket. */
  lemma {:induction false} ThrottledTakesNothing(s: State, ask: Ask, cfg: Config, now: real, created: bool, key: BucketKey, later: real)
    requires ValidConfig(cfg) && now <= later && (key in s.buckets ==> s.buckets[key].refilledAt <= now)
    requires Admit(s, ask, cfg, now, created).1.Throttled?
    ensures var s' := Admit(s, ask, cfg, now, created).0;
            && s'.reservations == s.reservations
            && TokensAt(s', cfg, key, later) == TokensAt(s, cfg, key, later)
            && (key in s'.buckets <==> key in s.buckets || Carries(ask, key))
            && (key in s'.buckets ==> OnlyRefilled(if key in s.buckets then s.buckets[key] else FreshBucket(cfg, key, now), s'.buckets[key]))
  {
    ThrottledOnlyRefills(s, ask, cfg, now, created);
    RefilledBucket(s.buckets, ask, cfg, now, key);
    RefillTakesNothing(s, cfg, key, now, later);
  }

  // ----- The answer, from the stored fields alone -----

  function StoredOutstanding(s: State, key: BucketKey): nat { if key in s.buckets then s.buckets[key].outstanding else 0 }

  predicate PlaceFree(s: State, sc: ScopeConfig, key: BucketKey) { StoredOutstanding(s, key) < sc.maxOutstanding }

  /** What is left of a token and the time that passed since weigh a whole refill period. */
  predicate EarnedIn(b: Bucket, refillSeconds: real, now: real) {
    var held := if b.tokens > 0.0 then b.tokens else 0.0;
    var elapsed := if now > b.refilledAt then now - b.refilledAt else 0.0;
    held * refillSeconds + elapsed >= refillSeconds
  }

  /** A bucket that is not there yet starts full. */
  predicate TokenEarned(s: State, sc: ScopeConfig, key: BucketKey, now: real) {
    sc.burst >= 1 && (key in s.buckets ==> EarnedIn(s.buckets[key], sc.refillSeconds, now))
  }

  /** The used tokens count until their window is over; what is reserved always counts. */
  predicate ProviderHasRoom(s: State, cfg: Config, key: BucketKey, now: real) {
    cfg.budget == 0 || cfg.reservationTokens == 0 || (
      if key !in s.buckets then cfg.reservationTokens <= cfg.budget
      else
        var b := s.buckets[key];
        (if now - b.windowAt >= cfg.windowSeconds then 0 else b.used) + b.reserved + cfg.reservationTokens <= cfg.budget)
  }

  /** The first of the seven conditions that fails, the actor's before the repository's before the installation's. */
  function AnswerTo(s: State, cfg: Config, ask: Ask, now: real): Admission {
    var actor, repository, installation :=
      ActorKey(ask.installation, ask.commenter), RepositoryKey(ask.installation, ask.repository), InstallationKey(ask.installation);
    if !PlaceFree(s, cfg.actor, actor) then Throttled(TooManyOutstanding(Actor))
    else if !TokenEarned(s, cfg.actor, actor, now) then Throttled(TooFast(Actor))
    else if !PlaceFree(s, cfg.repository, repository) then Throttled(TooManyOutstanding(Repository))
    else if !TokenEarned(s, cfg.repository, repository, now) then Throttled(TooFast(Repository))
    else if !PlaceFree(s, cfg.installation, installation) then Throttled(TooManyOutstanding(Installation))
    else if !TokenEarned(s, cfg.installation, installation, now) then Throttled(TooFast(Installation))
    else if !ProviderHasRoom(s, cfg, installation, now) then Throttled(ProviderBudget)
    else if ask.workItem in s.reservations then DuplicateItem
    else Admitted(if cfg.budget > 0 then cfg.reservationTokens else 0)
  }

  /** Time makes up for a missing part of a token exactly when the two weigh a whole refill period. */
  lemma WholeToken(held: real, elapsed: real, r: real)
    requires r > 0.0
    ensures held + elapsed / r >= 1.0 <==> held * r + elapsed >= r
  {
    var q := elapsed / r;
    assert elapsed == q * r;
    assert held * r + elapsed == (held + q) * r;
    if held + q >= 1.0 { assert (held + q - 1.0) * r >= 0.0; } else { assert (1.0 - held - q) * r > 0.0; }
  }

  lemma EarnedInBalance(b: Bucket, sc: ScopeConfig, now: real)
    requires sc.refillSeconds > 0.0
    ensures Balance(b, sc, now) >= 1.0 <==> sc.burst >= 1 && EarnedIn(b, sc.refillSeconds, now)
  {
    WholeToken(Max(0.0, b.tokens), Max(0.0, now - b.refilledAt), sc.refillSeconds);
  }

  lemma FreshBalance(sc: ScopeConfig, b: Bucket, now: real)
    requires sc.refillSeconds > 0.0 && b.tokens == sc.burst as real && b.refilledAt == now
    ensures Balance(b, sc, now) == sc.burst as real
  {
    assert 0.0 / sc.refillSeconds == 0.0;
  }

  lemma FoundTokens(s: State, cfg: Config, key: BucketKey, now: real)
    requires ValidConfig(cfg)
    ensures var b := if key in s.buckets then s.buckets[key] else FreshBucket(cfg, key, now);
            Refill(b, key, cfg, now).tokens < 1.0 <==> !TokenEarned(s, ConfigFor(cfg, key), key, now)
  {
    if key in s.buckets { EarnedInBalance(s.buckets[key], ConfigFor(cfg, key), now); }
    else { FreshBalance(ConfigFor(cfg, key), FreshBucket(cfg, key, now), now); }
  }

  lemma FoundFields(s: State, cfg: Config, step: Step, scope: Scope)
    requires ValidConfig(cfg) && step.AdmitStep?
    ensures var key, found := KeyFor(step.ask, scope), Found(s, cfg, step);
            && key in found
            && (found[key].outstanding >= ConfigFor(cfg, key).maxOutstanding <==> !PlaceFree(s, ConfigFor(cfg, key), key))
            && (found[key].tokens < 1.0 <==> !TokenEarned(s, ConfigFor(cfg, key), key, step.now))
  {
    var key := KeyFor(step.ask, scope);
    RefilledBucket(s.buckets, step.ask, cfg, step.now, key);
    FoundTokens(s, cfg, key, step.now);
  }

  lemma FoundProvider(s: State, cfg: Config, step: Step)
    requires ValidConfig(cfg) && step.AdmitStep?
    ensures var key, found := KeyFor(step.ask, Installation), Found(s, cfg, step);
            key in found && (TokensToReserve(cfg) > 0 && found[key].used + found[key].reserved + TokensToReserve(cfg) > cfg.budget
                             <==> !ProviderHasRoom(s, cfg, key, step.now))
  {
    RefilledBucket(s.buckets, step.ask, cfg, step.now, KeyFor(step.ask, Installation));
  }

  lemma FirstOfThree(found: Buckets, ask: Ask, cfg: Config)
    ensures FirstRejection(found, ask, CHECK_ORDER, cfg) ==
            if ScopeRejection(found, ask, Actor, cfg).Some? then ScopeRejection(found, ask, Actor, cfg)
            else if ScopeRejection(found, ask, Repository, cfg).Some? then ScopeRejection(found, ask, Repository, cfg)
            else ScopeRejection(found, ask, Installation, cfg)
  {
    assert CHECK_ORDER[1..] == [Repository, Installation] && CHECK_ORDER[1..][1..] == [Installation] && CHECK_ORDER[1..][1..][1..] == [];
    assert FirstRejection(found, ask, [], cfg) == None;
    assert FirstRejection(found, ask, [Installation], cfg) == ScopeRejection(found, ask, Installation, cfg);
    assert FirstRejection(found, ask, [Repository, Installation], cfg) ==
           if ScopeRejection(found, ask, Repository, cfg).Some? then ScopeRejection(found, ask, Repository, cfg) else ScopeRejection(found, ask, Installation, cfg);
  }

  /**
    The answer to every request, from the rows as they are stored and the time alone: whom it is refused
    for, and that it is admitted when there is a free place and an earned token in all three scopes and
    the provider budget has room.
   */
  lemma {:induction false} AdmittedExactly(s: State, cfg: Config, step: Step)
    requires ValidConfig(cfg) && step.AdmitStep?
    ensures Admit(s, step.ask, cfg, step.now, step.created).1 == AnswerTo(s, cfg, step.ask, step.now)
  {
    FoundFields(s, cfg, step, Actor);
    FoundFields(s, cfg, step, Repository);
    FoundFields(s, cfg, step, Installation);
    FoundProvider(s, cfg, step);
    FirstOfThree(Found(s, cfg, step), step.ask, cfg);
  }

  /** A bucket that is there, has a free place, and holds a token or has waited a whole refill period. */
  predicate Rested(s: State, cfg: Config, key: BucketKey, now: real) {
    var sc := ConfigFor(cfg, key);
    && key in s.buckets && sc.burst >= 1 && s.buckets[key].outstanding < sc.maxOutstanding
    && now >= s.buckets[key].refilledAt && s.buckets[key].tokens >= 0.0
    && (s.buckets[key].tokens >= 1.0 || now - s.buckets[key].refilledAt >= sc.refillSeconds)
  }

  lemma RestedWeighs(tokens: real, elapsed: real, r: real)
    requires r > 0.0 && tokens >= 0.0 && elapsed >= 0.0 && (tokens >= 1.0 || elapsed >= r)
    ensures tokens * r + elapsed >= r
  {
    if tokens >= 1.0 { assert (tokens - 1.0) * r >= 0.0; } else { assert tokens * r >= 0.0; }
  }

  /** So nobody is locked out: after a refill period without an ask of one's own there is a place for the next. */
  lemma {:induction false} RestedAsksAreAdmitted(s: State, cfg: Config, step: Step)
    requires ValidConfig(cfg) && step.AdmitStep? && step.ask.workItem !in s.reservations && cfg.budget == 0
    requires forall scope :: Rested(s, cfg, KeyFor(step.ask, scope), step.now)
    ensures Admit(s, step.ask, cfg, step.now, step.created).1 == Admitted(0)
  {
    forall scope ensures var key := KeyFor(step.ask, scope); PlaceFree(s, ConfigFor(cfg, key), key) && TokenEarned(s, ConfigFor(cfg, key), key, step.now) {
      var key := KeyFor(step.ask, scope);
      assert Rested(s, cfg, key, step.now);
      RestedWeighs(s.buckets[key].tokens, step.now - s.buckets[key].refilledAt, ConfigFor(cfg, key).refillSeconds);
    }
    AdmittedExactly(s, cfg, step);
    assert PlaceFree(s, cfg.actor, KeyFor(step.ask, Actor)) && PlaceFree(s, cfg.repository, KeyFor(step.ask, Repository));
    assert PlaceFree(s, cfg.installation, KeyFor(step.ask, Installation));
  }

  // ----- Waiting earns tokens back -----

  /** A step that admits nothing through a bucket leaves what any later request will find there. */
  lemma NotTaken(s: State, cfg: Config, step: Step, key: BucketKey, from: real, later: real)
    requires ValidConfig(cfg) && !AdmitsAt(s, cfg, step, key) && from <= later
    requires key in s.buckets && s.buckets[key].refilledAt <= from && (step.AdmitStep? ==> from <= step.now <= later)
    ensures var s' := Apply(s, cfg, step);
            && key in s'.buckets && s'.buckets[key].refilledAt <= (if step.AdmitStep? then step.now else from)
            && TokensAt(s', cfg, key, later) == TokensAt(s, cfg, key, later)
  {
    if !step.AdmitStep? {
      OtherStepsKeepTokens(s, cfg, step, key);
    } else if !Carries(step.ask, key) {
      UncarriedBucket(s, cfg, step, key);
    } else if Admit(s, step.ask, cfg, step.now, step.created).1.Throttled? {
      ThrottledTakesNothing(s, step.ask, cfg, step.now, step.created, key, later);
      CarriedBucket(s, cfg, step, key);
    }
  }

  lemma {:induction false} NothingTaken(s: State, cfg: Config, steps: seq<Step>, key: BucketKey, from: real, now: real)
    requires ValidConfig(cfg) && Timed(steps, from, now) && Admissions(s, cfg, steps, key) == 0
    requires key in s.buckets && s.buckets[key].refilledAt <= from
    ensures var end := Run(s, cfg, steps);
            from <= now && key in end.buckets && end.buckets[key].refilledAt <= now && TokensAt(end, cfg, key, now) == TokensAt(s, cfg, key, now)
    decreases |steps|
  {
    TimedIsOrdered(steps, from, now);
    if steps != [] {
      NotTaken(s, cfg, steps[0], key, from, now);
      NothingTaken(Apply(s, cfg, steps[0]), cfg, steps[1..], key, if steps[0].AdmitStep? then steps[0].now else from, now);
    }
  }

  lemma {:induction false} TimedIsOrdered(steps: seq<Step>, from: real, to: real)
    requires Timed(steps, from, to)
    ensures from <= to && (steps != [] && steps[0].AdmitStep? ==> from <= steps[0].now <= to)
    decreases |steps|
  {
    if steps != [] { TimedIsOrdered(steps[1..], if steps[0].AdmitStep? then steps[0].now else from, to); }
  }

  lemma PeriodsEarn(elapsed: real, k: nat, r: real)
    requires r > 0.0 && elapsed >= k as real * r
    ensures elapsed / r >= k as real
  {
    var q := elapsed / r;
    assert elapsed == q * r;
    if q < k as real { assert (k as real - q) * r > 0.0; }
  }

  function Least(a: real, b: real): real { if a <= b then a else b }

  lemma WaitedBalance(b: Bucket, sc: ScopeConfig, now: real, k: nat)
    requires sc.refillSeconds > 0.0 && now - b.refilledAt >= k as real * sc.refillSeconds
    ensures Balance(b, sc, now) >= Least(b.tokens + k as real, sc.burst as real)
  {
    PeriodsEarn(now - b.refilledAt, k, sc.refillSeconds);
    assert k as real * sc.refillSeconds >= 0.0;
  }

  /**
    Waiting k refill periods earns k tokens, up to the burst, if nothing is admitted through the bucket
    meanwhile: so much is in the bucket when a request that carries it was refused, and one less when it
    was admitted.
   */
  lemma {:induction false} WaitingEarnsBack(s: State, cfg: Config, steps: seq<Step>, key: BucketKey, from: real, last: Step, k: nat)
    requires ValidConfig(cfg) && last.AdmitStep? && Carries(last.ask, key)
    requires Timed(steps, from, last.now) && Admissions(s, cfg, steps, key) == 0
    requires key in s.buckets && s.buckets[key].refilledAt <= from
    requires last.now - s.buckets[key].refilledAt >= k as real * ConfigFor(cfg, key).refillSeconds
    ensures var before := Run(s, cfg, steps);
            var answer, after := Admit(before, last.ask, cfg, last.now, last.created).1, Apply(before, cfg, last);
            var least := Least(s.buckets[key].tokens + k as real, ConfigFor(cfg, key).burst as real);
            && key in after.buckets
            && (answer.Throttled? ==> after.buckets[key].tokens >= least)
            && (answer.Admitted? ==> after.buckets[key].tokens >= least - 1.0)
  {
    var before := Run(s, cfg, steps);
    NothingTaken(s, cfg, steps, key, from, last.now);
    WaitedBalance(s.buckets[key], ConfigFor(cfg, key), last.now, k);
    if !Admit(before, last.ask, cfg, last.now, last.created).1.DuplicateItem? { CarriedBucket(before, cfg, last, key); }
  }
}

/**
  When send markers find their row armed. The arming write of publishOnce.ts:613 answers nothing to its
  caller, so a call whose lease lapsed between the fence check and that write goes on unarmed. It still
  stops at its next fence check, unless the lapsed lease is renewed first: prActorLease.ts:63-82 renews
  without looking at the expiry.
 */
module PublishArming {
  import opened Wrappers
  import opened Leases
  import opened Intents
  import opened Publish
  import opened PublishSafety
  import opened PublishReplay

  // ----- Sufficient conditions -----

  /** The arming write found the fence closed. */
  predicate LostItsArming(s: State, c: CallId) {
    c in s.calls && Core(s.calls[c].pc).Mark? && !Core(s.calls[c].pc).armed
  }

  ghost predicate UnarmedAreShutOut(s: State) {
    forall c :: LostItsArming(s, c) ==> !Open(s, c)
  }

  /** A renewal that brings a lapsed lease back to life under a call that lost its arming write. */
  predicate Revives(s: State, step: Step, c: CallId) {
    && step.Renew? && c.workItem == step.w && c.epoch == step.epoch
    && LostItsArming(s, c) && !Open(s, c)
  }

  ghost predicate NoRevival(s: State, cfg: Config, steps: seq<Step>)
    requires IsRun(s, cfg, steps)
    decreases |steps|
  {
    steps == [] || ((forall c :: !Revives(s, steps[0], c)) && NoRevival(Apply(s, cfg, steps[0]), cfg, steps[1..]))
  }

  /** Only the renewal of its own lapsed lease reopens a call's fence. */
  lemma OnlyRenewalReopens(s: State, cfg: Config, step: Step, c: CallId)
    requires Registered(s, cfg) && Enabled(s, cfg, step)
    requires c in s.calls && !Open(s, c) && Open(Apply(s, cfg, step), c)
    ensures step.Renew? && step.w == c.workItem && step.epoch == c.epoch
  {
    var s' := Apply(s, cfg, step);
    RegisteredKept(s, cfg, step);
    OpenMeansCurrentWhenKnown(s', cfg, c);
    assert Holder(c.workItem, c.epoch) in s.executions;
  }

  lemma OpenMeansCurrentWhenKnown(s: State, cfg: Config, c: CallId)
    requires Registered(s, cfg) && Open(s, c)
    ensures Current(s, cfg, c) && s.leases[cfg.items[c.workItem]].expiresAt > s.now
  {
  }

  /** Arming into a closed fence is the one way to lose it. */
  lemma UnarmedComesFromArm(s: State, cfg: Config, c: CallId, choice: Choice)
    requires Fits(s, cfg, c, choice) && Shape(s, cfg, c, s.calls[c].pc)
    requires LostItsArming(Apply(s, cfg, Advance(c, choice)), c) && !LostItsArming(s, c)
    ensures choice.Go? && s.calls[c].pc.Arm? && !Open(s, c)
  {
    if choice.Observed? { AfterEvidenceIsPlain(s, cfg, c, s.calls[c], s.calls[c].pc.target, s.calls[c].pc.mode, choice.evidence, choice.extra); }
    if choice.Go? && s.calls[c].pc.Persist? && Open(s, c) { DecideShape(s, cfg, c, RowsAfter(s, c, choice)[KeyOf(c)]); }
  }

  lemma OthersKeepTheirPlace(s: State, cfg: Config, step: Step, c: CallId)
    requires Enabled(s, cfg, step) && !(step.Advance? && step.c == c)
    requires LostItsArming(Apply(s, cfg, step), c)
    ensures c in s.calls && LostItsArming(s, c)
  {
  }

  lemma ShutOutKept(s: State, cfg: Config, step: Step)
    requires Inv(s, cfg) && Legal(s, cfg, step) && UnarmedAreShutOut(s)
    requires forall c :: !Revives(s, step, c)
    ensures UnarmedAreShutOut(Apply(s, cfg, step))
  {
    var s' := Apply(s, cfg, step);
    forall c | LostItsArming(s', c) ensures !Open(s', c) {
      if step.Advance? && step.c == c {
        if !LostItsArming(s, c) { UnarmedComesFromArm(s, cfg, c, step.choice); }
        assert !Open(s, c);
      } else {
        OthersKeepTheirPlace(s, cfg, step, c);
        assert !Revives(s, step, c);
        if Open(s', c) { OnlyRenewalReopens(s, cfg, step, c); }
      }
    }
  }

  /** Shut out of the fence unless armed, a call marks only an armed row. */
  lemma MarksAreArmed(s: State, cfg: Config, step: Step)
    requires Inv(s, cfg) && UnarmedAreShutOut(s)
    ensures ArmedMark(s, step)
  {
    if Marks(s, step) {
      OpenMeansCurrent(s, cfg, step.c);
      assert !LostItsArming(s, step.c);
      assert Ready(s, cfg, step.c, Core(s.calls[step.c].pc));
    }
  }

  lemma {:induction false} WithoutRevivalRunsAreArmed(s: State, cfg: Config, steps: seq<Step>)
    requires Inv(s, cfg) && UnarmedAreShutOut(s) && IsRun(s, cfg, steps) && NoRevival(s, cfg, steps)
    ensures ArmedRun(s, cfg, steps)
    decreases |steps|
  {
    if steps != [] {
      MarksAreArmed(s, cfg, steps[0]);
      StepKeepsInv(s, cfg, steps[0]);
      ShutOutKept(s, cfg, steps[0]);
      WithoutRevivalRunsAreArmed(Apply(s, cfg, steps[0]), cfg, steps[1..]);
    }
  }

  /**
    At-most-once, with the hypothesis on the environment alone: no lapsed lease is renewed while one of
    its calls stands between a lost arming write and its send marker.
   */
  lemma AtMostOnceWithoutRevival(cfg: Config, steps: seq<Step>)
    requires IsRun(Init(), cfg, steps) && NoRevival(Init(), cfg, steps)
    ensures AtMostOnce(End(Init(), cfg, steps).log)
  {
    WithoutRevivalRunsAreArmed(Init(), cfg, steps);
    AtMostOncePublication(cfg, steps);
  }

  /** Renewals meet only leases that have not lapsed. */
  ghost predicate LiveRenewals(s: State, cfg: Config, steps: seq<Step>)
    requires IsRun(s, cfg, steps)
    decreases |steps|
  {
    steps == [] || (
      && (steps[0].Renew? ==> Held(s.leases, steps[0].w, steps[0].epoch, s.now))
      && LiveRenewals(Apply(s, cfg, steps[0]), cfg, steps[1..]))
  }

  lemma {:induction false} LiveRenewalsReviveNothing(s: State, cfg: Config, steps: seq<Step>)
    requires IsRun(s, cfg, steps) && LiveRenewals(s, cfg, steps)
    ensures NoRevival(s, cfg, steps)
    decreases |steps|
  {
    if steps != [] { LiveRenewalsReviveNothing(Apply(s, cfg, steps[0]), cfg, steps[1..]); }
  }

  /** A renewal statement that also tested the expiry would give at-most-once outright. */
  lemma AtMostOnceIfRenewalTestedExpiry(cfg: Config, steps: seq<Step>)
    requires IsRun(Init(), cfg, steps) && LiveRenewals(Init(), cfg, steps)
    ensures AtMostOnce(End(Init(), cfg, steps).log)
  {
    LiveRenewalsReviveNothing(Init(), cfg, steps);
    AtMostOnceWithoutRevival(cfg, steps);
  }

  /** Every arming write finds its fence open, as if check and write were one step. */
  predicate ArmsOpen(s: State, step: Step) {
    step.Advance? && step.choice.Go? && step.c in s.calls && s.calls[step.c].pc.Arm? ==> Open(s, step.c)
  }

  ghost predicate AtomicArming(s: State, cfg: Config, steps: seq<Step>)
    requires IsRun(s, cfg, steps)
    decreases |steps|
  {
    steps == [] || (ArmsOpen(s, steps[0]) && AtomicArming(Apply(s, cfg, steps[0]), cfg, steps[1..]))
  }

  lemma NothingLosesItsArming(s: State, cfg: Config, step: Step)
    requires Inv(s, cfg) && Legal(s, cfg, step) && ArmsOpen(s, step)
    requires forall c :: !LostItsArming(s, c)
    ensures forall c :: !LostItsArming(Apply(s, cfg, step), c)
  {
    forall c | LostItsArming(Apply(s, cfg, step), c) ensures false {
      if step.Advance? && step.c == c {
        UnarmedComesFromArm(s, cfg, c, step.choice);
      } else {
        OthersKeepTheirPlace(s, cfg, step, c);
      }
    }
  }

  lemma {:induction false} AtomicArmingArms(s: State, cfg: Config, steps: seq<Step>)
    requires Inv(s, cfg) && IsRun(s, cfg, steps) && AtomicArming(s, cfg, steps)
    requires forall c :: !LostItsArming(s, c)
    ensures ArmedRun(s, cfg, steps)
    decreases |steps|
  {
    if steps != [] {
      MarksAreArmed(s, cfg, steps[0]);
      StepKeepsInv(s, cfg, steps[0]);
      NothingLosesItsArming(s, cfg, steps[0]);
      AtomicArmingArms(Apply(s, cfg, steps[0]), cfg, steps[1..]);
    }
  }

  /** With each store call read as one atomic step, no hypothesis on renewals is needed. */
  lemma AtMostOnceIfArmingIsAtomic(cfg: Config, steps: seq<Step>)
    requires IsRun(Init(), cfg, steps) && AtomicArming(Init(), cfg, steps)
    ensures AtMostOnce(End(Init(), cfg, steps).log)
  {
    AtomicArmingArms(Init(), cfg, steps);
    AtMostOncePublication(cfg, steps);
  }
}

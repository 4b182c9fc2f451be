/**
  What a stopped publication leaves to the next execution: an arm that was never marked blocks nobody, a
  refusal may be sent again, and a delegated parent that was never entered starts afresh.
 */
module PublishRetry {
  import opened Wrappers
  import opened Leases
  import opened Intents
  import opened Publish
  import opened PublishSafety
  import opened PublishReplay

  // ----- An arm whose marker was not set is recognizable as unsent -----

  /** Armed under an open fence, and its send marker still to come. */
  predicate ArmedOnly(pc: Pc) { pc.Mark? && pc.armed }

  predicate UnsentOrSettled(s: State, c: CallId) {
    KeyOf(c) in s.rows && (Settled(s.rows[KeyOf(c)]) || UnsentArmedBy(s.rows[KeyOf(c)], c.epoch))
  }

  /** Until its marker, the row of a call that armed it says so: armed by this epoch, and not sent. */
  ghost predicate ArmsAreUnsent(s: State, cfg: Config) {
    forall c :: c in s.calls && Current(s, cfg, c) && ArmedOnly(Core(s.calls[c].pc)) ==> UnsentOrSettled(s, c)
  }

  lemma OthersLeaveArms(s: State, cfg: Config, step: Step, c: CallId)
    requires ResultInv(s, cfg) && Legal(s, cfg, step) && Current(s, cfg, c) && !(step.Advance? && step.c == c)
    requires UnsentOrSettled(s, c)
    ensures UnsentOrSettled(Apply(s, cfg, step), c)
  {
    if step.Advance? {
      assert Aimed(cfg, step.c, s.calls[step.c].pc);
      if Open(s, step.c) {
        OpenMeansCurrent(s, cfg, step.c);
        if KeyOf(step.c) == KeyOf(c) { CurrentIsUnique(s, cfg, step.c, c); }
      }
    } else {
      EnvironmentOnlySettles(s, cfg, step, KeyOf(c));
    }
  }

  /** Arming sets the marks of an unsent intent, on any row that may take them. */
  lemma ArmingMarksUnsent(s: State, cfg: Config, c: CallId, extra: Detail)
    requires Fits(s, cfg, c, Go(extra)) && s.calls[c].pc.Arm? && Open(s, c) && OwnResult(s, c, s.calls[c].pc)
    ensures UnsentOrSettled(Apply(s, cfg, Advance(c, Go(extra))), c)
  {
  }

  lemma ArmedComesFromArm(s: State, cfg: Config, c: CallId, choice: Choice)
    requires ResultInv(s, cfg) && Fits(s, cfg, c, choice)
    ensures ArmedOnly(Core(PcAfter(s, cfg, c, choice))) ==>
              && choice.Go? && (ArmedOnly(Core(s.calls[c].pc)) || (s.calls[c].pc.Arm? && Open(s, c)))
              && (RowsAfter(s, c, choice) == s.rows || s.calls[c].pc.Arm?)
  {
    assert Aimed(cfg, c, s.calls[c].pc);
    if choice.Observed? { EvidenceKeepsUnmarked(cfg, s.calls[c], s.calls[c].pc.target, s.calls[c].pc.mode, choice.evidence, choice.extra); }
  }

  lemma ArmsStayUnsent(s: State, cfg: Config, step: Step)
    requires ResultInv(s, cfg) && ArmsAreUnsent(s, cfg) && Legal(s, cfg, step)
    ensures ArmsAreUnsent(Apply(s, cfg, step), cfg)
  {
    var s' := Apply(s, cfg, step);
    RegisteredKept(s, cfg, step);
    forall c | c in s'.calls && Current(s', cfg, c) && ArmedOnly(Core(s'.calls[c].pc)) ensures UnsentOrSettled(s', c) {
      if step.Advance? && step.c == c {
        ArmedComesFromArm(s, cfg, c, step.choice);
        if s.calls[c].pc.Arm? { ArmingMarksUnsent(s, cfg, c, step.choice.extra); }
      } else {
        OthersLeaveArms(s, cfg, step, c);
      }
    }
  }

  /** In every reachable state: what a current call armed and did not mark is unsent by its epoch, or settled. */
  lemma {:induction false} ArmedIsUnsent(s: State, cfg: Config, steps: seq<Step>)
    requires ResultInv(s, cfg) && ArmsAreUnsent(s, cfg) && IsRun(s, cfg, steps)
    ensures ArmsAreUnsent(End(s, cfg, steps), cfg)
    decreases |steps|
  {
    if steps != [] {
      ArmsStayUnsent(s, cfg, steps[0]);
      ResultInvKept(s, cfg, steps[0]);
      ArmedIsUnsent(Apply(s, cfg, steps[0]), cfg, steps[1..]);
    }
  }

  // ----- Losing the fence before the marker takes the arm back -----

  predicate NoArmLeft(s: State, c: CallId) { KeyOf(c) in s.rows ==> !UnsentArmedBy(s.rows[KeyOf(c)], c.epoch) }

  /** A call that finds its fence closed on the way to its marker releases its arm as its next statement. */
  lemma ClosedFenceLeadsToRelease(s: State, cfg: Config, c: CallId, extra: Detail)
    requires Fits(s, cfg, c, Go(extra)) && !Open(s, c)
    requires s.calls[c].pc.Mark? || (s.calls[c].pc.Fence? && s.calls[c].pc.next.Mark?)
    ensures var s' := Apply(s, cfg, Advance(c, Go(extra))); s'.calls[c].pc == ReleaseUnsent && s'.rows == s.rows
  {
  }

  /** So does one whose marker finds the row settled by somebody else. */
  lemma RefusedMarkLeadsToRelease(s: State, cfg: Config, c: CallId, extra: Detail)
    requires Fits(s, cfg, c, Go(extra)) && s.calls[c].pc.Mark? && !Mergeable(s.rows, KeyOf(c))
    ensures Apply(s, cfg, Advance(c, Go(extra))).calls[c].pc == ReleaseUnsent
  {
  }

  lemma ReleaseDisarms(s: State, cfg: Config, c: CallId, extra: Detail)
    requires Fits(s, cfg, c, Go(extra)) && s.calls[c].pc.ReleaseUnsent?
    ensures var s' := Apply(s, cfg, Advance(c, Go(extra)));
            && NoArmLeft(s', c) && s'.calls[c].pc == Threw
            && (KeyOf(c) in s.rows && UnsentArmedBy(s.rows[KeyOf(c)], c.epoch) ==> KeyOf(c) in s'.rows && !InFlight(s'.rows[KeyOf(c)]))
  {
  }

  // ----- Whatever was left armed stops blocking when its epoch ends -----

  /** The epoch was overtaken, or released and not acquired again. */
  predicate Ended(leases: Table, key: LeaseKey, epoch: nat, now: int) {
    key in leases && (epoch < leases[key].epoch || (epoch == leases[key].epoch && leases[key].holder.None? && leases[key].expiresAt <= now))
  }

  lemma ReleaseEnds(s: State, cfg: Config, step: Step, key: LeaseKey)
    requires Enabled(s, cfg, step) && key in s.leases
    requires match step
             case ReleaseLease(k, epoch) => k == key && epoch == s.leases[key].epoch
             case Supersede(k, holders) => k == key && s.leases[key].holder.Some? && Holder(s.leases[key].holder.value, s.leases[key].epoch) in holders
             case Grant(w, _) => cfg.items[w] == key
             case _ => false
    ensures Ended(Apply(s, cfg, step).leases, key, s.leases[key].epoch, s.now)
  {
  }

  lemma {:induction false} EndedForGood(s: State, cfg: Config, steps: seq<Step>, key: LeaseKey, epoch: nat)
    requires IsRun(s, cfg, steps) && Ended(s.leases, key, epoch, s.now)
    ensures Ended(End(s, cfg, steps).leases, key, epoch, End(s, cfg, steps).now)
    decreases |steps|
  {
    if steps != [] {
      assert Ended(Apply(s, cfg, steps[0]).leases, key, epoch, Apply(s, cfg, steps[0]).now);
      EndedForGood(Apply(s, cfg, steps[0]), cfg, steps[1..], key, epoch);
    }
  }

  /**
    Once its epoch has ended, by a release too, an intent that it armed and did not send blocks nobody at
    that lease key in any further run: the next execution arms and sends it.
   */
  lemma UnsentArmsDieWithTheirEpoch(s: State, cfg: Config, steps: seq<Step>, k: IntentKey, epoch: nat, caller: IntentKey)
    requires IsRun(s, cfg, steps) && k.workItem in cfg.items && Ended(s.leases, cfg.items[k.workItem], epoch, s.now)
    requires var end := End(s, cfg, steps); k in end.rows && UnsentArmedBy(end.rows[k], epoch)
    ensures var end := End(s, cfg, steps); !BlocksCaller(end.rows, cfg.items, end.leases, end.now, caller, k)
  {
    EndedForGood(s, cfg, steps, cfg.items[k.workItem], epoch);
  }

  // ----- Delegated parents -----

  /**
    What the prologue of a delegated parent makes of its row. One that failed, and one that was armed but
    never entered its delegate, are taken out of flight, so the call goes on to send; one that was entered is
    left to be recovered; a new one is not entered yet.
   */
  lemma ParentPrologue(s: State, cfg: Config, c: CallId, extra: Detail)
    requires Fits(s, cfg, c, Go(extra)) && s.calls[c].pc.Parent? && Open(s, c)
    ensures var key, s' := KeyOf(c), Apply(s, cfg, Advance(c, Go(extra)));
            var next := s'.calls[c].pc;
            && key in s'.rows
            && (key !in s.rows ==> s'.rows[key].status == Pending && IsFalse(s'.rows[key].detail, DelegationEntered) && Core(next) == Persist)
            && (key in s.rows && s.rows[key].status == Failed ==> next == Fence(1, ParentReset))
            && (key in s.rows && InFlight(s.rows[key]) && IsFalse(s.rows[key].detail, DelegationEntered) ==>
                  next == Fence(1, Settle(key, Failed, map[Mutating := JBool(false)], Fence(2, Persist))))
            && (key in s.rows && s.rows[key].status != Failed && !(InFlight(s.rows[key]) && IsFalse(s.rows[key].detail, DelegationEntered)) ==>
                  next == Fence(2, Persist))
  {
  }

  /** The two resets, when they are written. */
  lemma ParentIsReset(s: State, cfg: Config, c: CallId, extra: Detail)
    requires Fits(s, cfg, c, Go(extra)) && Open(s, c) && KeyOf(c) in s.rows
    requires s.calls[c].pc.ParentReset? || s.calls[c].pc == Settle(KeyOf(c), Failed, map[Mutating := JBool(false)], Fence(2, Persist))
    ensures var row, s' := s.rows[KeyOf(c)], Apply(s, cfg, Advance(c, Go(extra)));
            && KeyOf(c) in s'.rows && s'.calls[c].pc == Fence(2, Persist)
            && (s.calls[c].pc.ParentReset? && (row.status == Pending || row.status == Failed) ==>
                  && s'.rows[KeyOf(c)].status == Pending && IsFalse(s'.rows[KeyOf(c)].detail, Mutating)
                  && IsFalse(s'.rows[KeyOf(c)].detail, DelegationEntered))
            && (s.calls[c].pc.Settle? && row.status == Pending ==>
                  s'.rows[KeyOf(c)].status == Failed && IsFalse(s'.rows[KeyOf(c)].detail, Mutating))
  {
  }
}

/**
  Exclusion between work items that share a lease key, and intents left behind by dead epochs.
 */
module PublishExclusion {
  import opened Wrappers
  import opened Leases
  import opened Intents
  import opened Publish
  import opened PublishSafety
  import opened PublishReplay

  /** A send is under way for this row and nothing about its outcome is recorded. */
  predicate SendPending(r: Intent) { InFlight(r) && IsTrue(r.detail, SendStarted) }

  ghost predicate NoRivalSend(s: State, cfg: Config, c: CallId) {
    forall k :: k in s.rows && Foreign(cfg, c, k) ==> !SendPending(s.rows[k])
  }

  /** The call's query ran under a live lease and it has not set its marker yet. */
  predicate Cleared(pc: Pc) { (pc.Arm? && pc.sole) || (pc.Mark? && pc.sole) }

  ghost predicate ExclusionInv(s: State, cfg: Config) {
    && Registered(s, cfg)
    && (forall c :: c in s.calls ==> Shape(s, cfg, c, s.calls[c].pc))
    && (forall c :: c in s.calls && Current(s, cfg, c) && Cleared(Core(s.calls[c].pc)) ==> NoRivalSend(s, cfg, c))
  }

  /** The in-flight query under a live lease sees every rival send. */
  lemma QueryClears(s: State, cfg: Config, c: CallId)
    requires Registered(s, cfg) && Open(s, c)
    requires FirstInFlight(s.rows, cfg.items, s.leases, s.now, KeyOf(c), None)
    ensures NoRivalSend(s, cfg, c)
  {
    OpenMeansCurrent(s, cfg, c);
    assert HoldsLease(cfg.items, s.leases, c.workItem, s.now);
    forall k | k in s.rows && Foreign(cfg, c, k) ensures !SendPending(s.rows[k]) {
      assert !BlocksCaller(s.rows, cfg.items, s.leases, s.now, KeyOf(c), k);
    }
  }

  /** Only its own open call can bring a row into the sending state. */
  lemma SendsStartAtHome(s: State, cfg: Config, c: CallId, choice: Choice, k: IntentKey)
    requires Fits(s, cfg, c, choice) && Shape(s, cfg, c, s.calls[c].pc)
    requires k in RowsAfter(s, c, choice) && SendPending(RowsAfter(s, c, choice)[k])
    ensures (k in s.rows && SendPending(s.rows[k])) || (KeyOf(c) == k && Open(s, c))
  {
  }

  /** While a call is current, no rival's row enters the sending state. */
  lemma RivalsStayQuiet(s: State, cfg: Config, step: Step, c: CallId)
    requires ExclusionInv(s, cfg) && Legal(s, cfg, step) && Current(s, cfg, c) && NoRivalSend(s, cfg, c)
    ensures NoRivalSend(Apply(s, cfg, step), cfg, c)
  {
    var s' := Apply(s, cfg, step);
    forall k | k in s'.rows && Foreign(cfg, c, k) ensures !SendPending(s'.rows[k]) {
      if step.Advance? && SendPending(s'.rows[k]) {
        SendsStartAtHome(s, cfg, step.c, step.choice, k);
        if Open(s, step.c) { OpenMeansCurrent(s, cfg, step.c); }
      }
    }
  }

  lemma ClearedComesFromQuery(s: State, cfg: Config, c: CallId, choice: Choice)
    requires Fits(s, cfg, c, choice) && Shape(s, cfg, c, s.calls[c].pc)
    requires Cleared(Core(PcAfter(s, cfg, c, choice))) && !Cleared(Core(s.calls[c].pc))
    ensures choice == Fetched(None) && Open(s, c)
  {
    if choice.Observed? { AfterEvidenceIsPlain(s, cfg, c, s.calls[c], s.calls[c].pc.target, s.calls[c].pc.mode, choice.evidence, choice.extra); }
    if choice.Go? && s.calls[c].pc.Persist? && Open(s, c) { DecideShape(s, cfg, c, RowsAfter(s, c, choice)[KeyOf(c)]); }
  }

  lemma ShapesKept(s: State, cfg: Config, step: Step, c: CallId)
    requires (forall c :: c in s.calls ==> Shape(s, cfg, c, s.calls[c].pc)) && Enabled(s, cfg, step)
    requires c in Apply(s, cfg, step).calls
    ensures Shape(Apply(s, cfg, step), cfg, c, Apply(s, cfg, step).calls[c].pc)
  {
    if step.Advance? && step.c == c { NextShape(s, cfg, c, step.choice); }
    else if step.Advance? { OthersKeepShape(s, cfg, step.c, step.choice, c, s.calls[c].pc); }
  }

  lemma ExclusionKept(s: State, cfg: Config, step: Step)
    requires ExclusionInv(s, cfg) && Legal(s, cfg, step)
    ensures ExclusionInv(Apply(s, cfg, step), cfg)
  {
    var s' := Apply(s, cfg, step);
    RegisteredKept(s, cfg, step);
    forall c | c in s'.calls ensures Shape(s', cfg, c, s'.calls[c].pc) { ShapesKept(s, cfg, step, c); }
    forall c | c in s'.calls && Current(s', cfg, c) && Cleared(Core(s'.calls[c].pc)) ensures NoRivalSend(s', cfg, c) {
      if step.Advance? && step.c == c && !Cleared(Core(s.calls[c].pc)) {
        ClearedComesFromQuery(s, cfg, c, step.choice);
        QueryClears(s, cfg, c);
      }
      RivalsStayQuiet(s, cfg, step, c);
    }
  }

  lemma {:induction false} RunKeepsExclusion(s: State, cfg: Config, steps: seq<Step>)
    requires ExclusionInv(s, cfg) && IsRun(s, cfg, steps)
    ensures ExclusionInv(End(s, cfg, steps), cfg)
    decreases |steps|
  {
    if steps != [] {
      ExclusionKept(s, cfg, steps[0]);
      RunKeepsExclusion(Apply(s, cfg, steps[0]), cfg, steps[1..]);
    }
  }

  /**
    Exclusion. In every run, whatever lapsed in between: when a call whose lease was live at its query
    sets its send marker, no other work item of the same lease key has a send under way.
   */
  lemma MarksExclude(cfg: Config, steps: seq<Step>, step: Step)
    requires IsRun(Init(), cfg, steps)
    requires var s := End(Init(), cfg, steps); Marks(s, step) && s.calls[step.c].pc.sole
    ensures NoRivalSend(End(Init(), cfg, steps), cfg, step.c)
  {
    var s := End(Init(), cfg, steps);
    RunKeepsExclusion(Init(), cfg, steps);
    OpenMeansCurrent(s, cfg, step.c);
  }

  /**
    With armed markers this reaches the remote: every unrefused send of a rival, answered or not, then
    sits on a settled row or on one whose result is stashed; no rival is about to call mutate() without.
   */
  lemma MarksExcludeSends(cfg: Config, steps: seq<Step>, step: Step, i: nat)
    requires IsRun(Init(), cfg, steps) && ArmedRun(Init(), cfg, steps)
    requires var s := End(Init(), cfg, steps); Marks(s, step) && s.calls[step.c].pc.sole
    requires var s := End(Init(), cfg, steps); i < |s.log| && !s.log[i].outcome.Rejected? && Foreign(cfg, step.c, s.log[i].key)
    ensures var s := End(Init(), cfg, steps);
            && s.log[i].key in s.rows
            && (Settled(s.rows[s.log[i].key]) || Result in s.rows[s.log[i].key].detail)
  {
    var s := End(Init(), cfg, steps);
    MarksExclude(cfg, steps, step);
    RunKeepsInv(Init(), cfg, steps);
    assert Blocked(s, cfg, s.log[i].key);
  }

  // ----- Intents armed by a dead epoch -----

  lemma {:induction false} LeaseEpochsGrow(s: State, cfg: Config, steps: seq<Step>, key: LeaseKey)
    requires IsRun(s, cfg, steps) && key in s.leases
    ensures var end := End(s, cfg, steps); key in end.leases && s.leases[key].epoch <= end.leases[key].epoch
    decreases |steps|
  {
    if steps != [] { LeaseEpochsGrow(Apply(s, cfg, steps[0]), cfg, steps[1..], key); }
  }

  /**
    An intent armed but unsent by an epoch that was since superseded never blocks anyone again, however
    the run goes on: it is skipped by the in-flight query of every caller at that lease key.
   */
  lemma DeadArmsNeverBlock(s: State, cfg: Config, steps: seq<Step>, k: IntentKey, epoch: nat, caller: IntentKey)
    requires IsRun(s, cfg, steps)
    requires k.workItem in cfg.items && cfg.items[k.workItem] in s.leases && epoch < s.leases[cfg.items[k.workItem]].epoch
    requires var end := End(s, cfg, steps); k in end.rows && UnsentArmedBy(end.rows[k], epoch)
    ensures var end := End(s, cfg, steps); !BlocksCaller(end.rows, cfg.items, end.leases, end.now, caller, k)
  {
    LeaseEpochsGrow(s, cfg, steps, cfg.items[k.workItem]);
  }
}

/**
  What is left to an execution whose lease was overtaken or given up, over whole runs of the publish
  machine.
 */
module PublishFencing {
  import opened Wrappers
  import opened Leases
  import opened Intents
  import opened Publish
  import opened PublishSafety
  import opened PublishReplay

  /** The execution was granted, and its epoch is no longer the one held in its lease row. */
  ghost predicate ShutOut(s: State, cfg: Config, c: CallId) {
    Registered(s, cfg) && Holder(c.workItem, c.epoch) in s.executions && !Current(s, cfg, c)
  }

  /** A grant shuts out every execution of the lease key granted before; a release or supersession its own. */
  lemma GrantsShutOut(s: State, cfg: Config, step: Step, c: CallId)
    requires Registered(s, cfg) && Enabled(s, cfg, step) && Holder(c.workItem, c.epoch) in s.executions
    requires match step
             case Grant(w, _) => cfg.items[w] == cfg.items[c.workItem]
             case ReleaseLease(key, epoch) => key == cfg.items[c.workItem] && epoch == c.epoch
             case Supersede(key, holders) => key == cfg.items[c.workItem] && Holder(c.workItem, c.epoch) in holders
             case _ => false
    ensures ShutOut(Apply(s, cfg, step), cfg, c)
  {
    RegisteredKept(s, cfg, step);
  }

  lemma StaysShutOut(s: State, cfg: Config, step: Step, c: CallId)
    requires ShutOut(s, cfg, c) && Enabled(s, cfg, step)
    ensures ShutOut(Apply(s, cfg, step), cfg, c)
  {
    RegisteredKept(s, cfg, step);
  }

  /** No renewal, grant, release or passing of time ever opens its fence again. */
  lemma {:induction false} ShutOutForever(s: State, cfg: Config, steps: seq<Step>, c: CallId)
    requires ShutOut(s, cfg, c) && IsRun(s, cfg, steps)
    ensures ShutOut(End(s, cfg, steps), cfg, c) && !Open(End(s, cfg, steps), c)
    decreases |steps|
  {
    if steps == [] {
      if Open(s, c) { OpenMeansCurrent(s, cfg, c); }
    } else {
      StaysShutOut(s, cfg, steps[0], c);
      ShutOutForever(Apply(s, cfg, steps[0]), cfg, steps[1..], c);
    }
  }

  /**
    However long it runs on, it writes nothing: the one statement without a fence takes back the armed
    flag of a row that this very epoch armed and has not sent.
   */
  lemma ShutOutWritesNothing(s: State, cfg: Config, steps: seq<Step>, c: CallId, choice: Choice)
    requires ShutOut(s, cfg, c) && IsRun(s, cfg, steps) && Fits(End(s, cfg, steps), cfg, c, choice)
    ensures var end := End(s, cfg, steps); OnlyDisarms(end.rows, RowsAfter(end, c, choice), KeyOf(c), c.epoch)
  {
    ShutOutForever(s, cfg, steps, c);
    ClosedFenceWritesNothing(End(s, cfg, steps), cfg, c, choice);
  }

  /** The same rows, but for a row `key` that `epoch` armed without sending and that may lose its armed flag. */
  ghost predicate OnlyDisarms(before: Rows, after: Rows, key: IntentKey, epoch: nat) {
    after == before || (
      && key in before && UnsentArmedBy(before[key], epoch)
      && after == before[key := before[key].(detail := before[key].detail[Mutating := JBool(false)])])
  }

  lemma ClosedFenceWritesNothing(s: State, cfg: Config, c: CallId, choice: Choice)
    requires Fits(s, cfg, c, choice) && !Open(s, c)
    ensures OnlyDisarms(s.rows, RowsAfter(s, c, choice), KeyOf(c), c.epoch)
  {
  }

  lemma ShutOutNeverCommits(s: State, cfg: Config, step: Step, c: CallId)
    requires ResultInv(s, cfg) && Legal(s, cfg, step) && ShutOut(s, cfg, c) && !Committed(s, c)
    ensures !Committed(Apply(s, cfg, step), c)
  {
    if Open(s, c) { OpenMeansCurrent(s, cfg, c); }
    if step.Advance? && step.c == c {
      assert Aimed(cfg, c, s.calls[c].pc);
      CommitsOnlyOpen(s, cfg, c, step.choice);
    }
  }

  /** The last fence in front of mutate() is an open one. */
  lemma CommitsOnlyOpen(s: State, cfg: Config, c: CallId, choice: Choice)
    requires Fits(s, cfg, c, choice) && Aimed(cfg, c, s.calls[c].pc) && !Open(s, c) && !Committed(s, c)
    ensures !PcAfter(s, cfg, c, choice).Mutate?
  {
    if choice.Observed? { EvidenceKeepsUnmarked(cfg, s.calls[c], s.calls[c].pc.target, s.calls[c].pc.mode, choice.evidence, choice.extra); }
  }

  predicate SentBy(log: seq<Send>, i: nat, c: CallId) { i < |log| && log[i].key == KeyOf(c) && log[i].epoch == c.epoch }

  /** And it sends nothing, unless it had passed its last fence before it was shut out. */
  lemma {:induction false} ShutOutSendsNothing(s: State, cfg: Config, steps: seq<Step>, c: CallId, i: nat)
    requires ResultInv(s, cfg) && IsRun(s, cfg, steps) && ShutOut(s, cfg, c) && !Committed(s, c)
    requires |s.log| <= i < |End(s, cfg, steps).log|
    ensures !SentBy(End(s, cfg, steps).log, i, c)
    decreases |steps|
  {
    if steps != [] {
      var next := Apply(s, cfg, steps[0]);
      ResultInvKept(s, cfg, steps[0]);
      StaysShutOut(s, cfg, steps[0], c);
      ShutOutNeverCommits(s, cfg, steps[0], c);
      if i < |next.log| {
        LogIsAppendOnly(next, cfg, steps[1..], i);
      } else {
        ShutOutSendsNothing(next, cfg, steps[1..], c, i);
      }
    }
  }

  ghost predicate SendsIn(s: State, cfg: Config, steps: seq<Step>, c: CallId) {
    IsRun(s, cfg, steps) && exists i: nat :: |s.log| <= i && SentBy(End(s, cfg, steps).log, i, c)
  }

  /** So a shut-out call has a send ahead of it in some run exactly if it was past its last fence. */
  lemma ShutOutSendsExactlyIfCommitted(s: State, cfg: Config, c: CallId)
    requires ResultInv(s, cfg) && ShutOut(s, cfg, c)
    ensures (exists steps :: SendsIn(s, cfg, steps, c)) <==> Committed(s, c)
  {
    if Committed(s, c) {
      var step := Advance(c, Go(map[]));
      assert [step][1..] == [];
      assert End(s, cfg, [step]) == Apply(s, cfg, step);
      assert SentBy(Apply(s, cfg, step).log, |s.log|, c);
      assert SendsIn(s, cfg, [step], c);
    } else {
      forall steps | SendsIn(s, cfg, steps, c) ensures false {
        var i: nat :| |s.log| <= i && SentBy(End(s, cfg, steps).log, i, c);
        ShutOutSendsNothing(s, cfg, steps, c, i);
      }
    }
  }
}

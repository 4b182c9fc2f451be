/**
  What a stashed result means for later calls, and what a settled row means for calls that have not
  reached their send marker.
 */
module PublishReplay {
  import opened Wrappers
  import opened Leases
  import opened Intents
  import opened Publish
  import opened PublishSafety

  // ----- The invariant: the key's current call is the only one that may write its result -----

  predicate Unstashed(s: State, key: IntentKey) { key in s.rows && Result !in s.rows[key].detail }

  predicate SameOrNoResult(s: State, key: IntentKey, patch: Detail) {
    key in s.rows && (Result in patch && Result in s.rows[key].detail ==> s.rows[key].detail[Result] == patch[Result])
  }

  /** What a current call relies on for its own row. */
  predicate OwnResult(s: State, c: CallId, pc: Pc) {
    var key := KeyOf(c);
    match pc
    case Query => Unstashed(s, key)
    case Arm(_) => Unstashed(s, key)
    case Mark(_, _) => Unstashed(s, key)
    case Enter => Unstashed(s, key)
    case Mutate => Unstashed(s, key)
    case Sending(_) => Unstashed(s, key)
    case PersistAgain => Unstashed(s, key)
    case Stash(_, _) => Unstashed(s, key)
    case Recover(target, _) => target == key ==> Unstashed(s, key)
    case Settle(target, _, patch, _) => target == key ==> SameOrNoResult(s, key, patch)
    case _ => true
  }

  /** Rows that calls of other work items may only settle. */
  predicate Foreign(cfg: Config, c: CallId, key: IntentKey) {
    && key.workItem != c.workItem
    && key.workItem in cfg.items && c.workItem in cfg.items
    && cfg.items[key.workItem] == cfg.items[c.workItem]
  }

  predicate Aimed(cfg: Config, c: CallId, pc: Pc) {
    match Core(pc)
    case Fence(_, _) => false
    case Recover(target, _) => target == KeyOf(c) || Foreign(cfg, c, target)
    case Settle(target, status, patch, next) =>
      && (Finished(next) || next == Entry())
      && (target == KeyOf(c) || Foreign(cfg, c, target))
      && (status == Failed ==> target == KeyOf(c) && Result !in patch)
    case Stash(patch, _) => Result in patch
    case _ => true
  }

  ghost predicate ResultInv(s: State, cfg: Config) {
    && Registered(s, cfg)
    && forall c :: c in s.calls ==>
         && Aimed(cfg, c, s.calls[c].pc)
         && (Current(s, cfg, c) ==> OwnResult(s, c, Core(s.calls[c].pc)))
  }

  /** A call settles another work item's row over a different result that is already there. */
  predicate OverwritesForeign(s: State, step: Step) {
    && step.Advance? && step.choice.Go? && step.c in s.calls && s.calls[step.c].pc.Settle?
    && var pc := s.calls[step.c].pc;
    && pc.target != KeyOf(step.c) && pc.target in s.rows
    && Open(s, step.c) && MayBecome(s.rows[pc.target].status, pc.status)
    && Result in pc.patch && Result in s.rows[pc.target].detail
    && s.rows[pc.target].detail[Result] != pc.patch[Result]
  }

  /** A verdict close stores null over the result of its intent. */
  predicate OverwritesClose(s: State, step: Step) {
    && step.SettleVoid? && step.target in s.rows
    && (step.closer.Some? ==> Held(s.leases, step.target.workItem, step.closer.value, s.now))
    && MayBecome(s.rows[step.target].status, Reconciled)
    && Result in s.rows[step.target].detail && s.rows[step.target].detail[Result] != JNull
  }

  predicate Overwrites(s: State, step: Step) { OverwritesForeign(s, step) || OverwritesClose(s, step) }

  ghost predicate ResultsStay(s: State, s': State) {
    forall key :: key in s.rows && Result in s.rows[key].detail ==>
      key in s'.rows && Result in s'.rows[key].detail && s'.rows[key].detail[Result] == s.rows[key].detail[Result]
  }

  lemma EnvironmentKeepsResults(s: State, cfg: Config, step: Step)
    requires Enabled(s, cfg, step) && !step.Advance? && !OverwritesClose(s, step)
    ensures ResultsStay(s, Apply(s, cfg, step))
  {
  }

  lemma SettlingKeepsResults(s: State, cfg: Config, c: CallId, choice: Choice)
    requires ResultInv(s, cfg) && Fits(s, cfg, c, choice) && s.calls[c].pc.Settle? && !Overwrites(s, Advance(c, choice))
    ensures ResultsStay(s, Apply(s, cfg, Advance(c, choice)))
  {
    if Open(s, c) {
      OpenMeansCurrent(s, cfg, c);
      assert OwnResult(s, c, Core(s.calls[c].pc));
    }
  }

  lemma StatementsKeepResults(s: State, cfg: Config, c: CallId, choice: Choice)
    requires ResultInv(s, cfg) && Legal(s, cfg, Advance(c, choice)) && !Overwrites(s, Advance(c, choice))
    ensures ResultsStay(s, Apply(s, cfg, Advance(c, choice)))
  {
    if s.calls[c].pc.Settle? {
      SettlingKeepsResults(s, cfg, c, choice);
    } else if Open(s, c) {
      OpenMeansCurrent(s, cfg, c);
      assert OwnResult(s, c, Core(s.calls[c].pc));
    }
  }

  /**
    A step changes or drops a stashed result exactly when it overwrites another work item's row, or when
    a verdict close finds a value where it stores null.
   */
  lemma ResultsChangeOnlyByOverwriting(s: State, cfg: Config, step: Step)
    requires ResultInv(s, cfg) && Legal(s, cfg, step)
    ensures ResultsStay(s, Apply(s, cfg, step)) <==> !Overwrites(s, step)
  {
    if Overwrites(s, step) {
      var target := if step.SettleVoid? then step.target else s.calls[step.c].pc.target;
      assert Apply(s, cfg, step).rows[target].detail[Result] != s.rows[target].detail[Result];
    } else if step.Advance? {
      StatementsKeepResults(s, cfg, step.c, step.choice);
    } else {
      EnvironmentKeepsResults(s, cfg, step);
    }
  }

  /** No row loses or gains a result here, except the current call's own. */
  lemma OthersResults(s: State, cfg: Config, c: CallId, choice: Choice, other: CallId)
    requires ResultInv(s, cfg) && Legal(s, cfg, Advance(c, choice))
    requires other in s.calls && other != c && Current(s, cfg, other)
    ensures OwnResult(Apply(s, cfg, Advance(c, choice)), other, Core(s.calls[other].pc))
  {
    var key := KeyOf(other);
    if Open(s, c) {
      OpenMeansCurrent(s, cfg, c);
      if KeyOf(c) == key { CurrentIsUnique(s, cfg, c, other); }
    }
    if key in s.rows {
      assert key in RowsAfter(s, c, choice);
      assert Result in RowsAfter(s, c, choice)[key].detail <==> Result in s.rows[key].detail;
    }
  }

  lemma EvidenceKeepsAim(s: State, cfg: Config, c: CallId, call: Call, target: IntentKey, mode: Mode, e: Evidence, extra: Detail)
    requires target == KeyOf(c) || Foreign(cfg, c, target)
    requires target == KeyOf(c) ==> Unstashed(s, target)
    ensures var pc := AfterEvidence(cfg, call, target, mode, e, extra); Aimed(cfg, c, pc) && OwnResult(s, c, Core(pc))
  {
  }

  lemma EvidenceKeepsAimOnly(cfg: Config, c: CallId, call: Call, target: IntentKey, mode: Mode, e: Evidence, extra: Detail)
    requires target == KeyOf(c) || Foreign(cfg, c, target)
    ensures Aimed(cfg, c, AfterEvidence(cfg, call, target, mode, e, extra))
  {
  }

  lemma DecideKeepsAim(s: State, cfg: Config, c: CallId)
    requires KeyOf(c) in s.rows
    ensures var pc := Decide(cfg, KeyOf(c), s.rows[KeyOf(c)]); Aimed(cfg, c, pc) && OwnResult(s, c, Core(pc))
  {
  }

  lemma OracleKeepsAim(s: State, cfg: Config, c: CallId, choice: Choice)
    requires Legal(s, cfg, Advance(c, choice)) && !choice.Go? && Aimed(cfg, c, s.calls[c].pc)
    ensures Aimed(cfg, c, PcAfter(s, cfg, c, choice))
  {
    var call := s.calls[c];
    match choice
    case Observed(e, extra) => EvidenceKeepsAimOnly(cfg, c, call, call.pc.target, call.pc.mode, e, extra);
    case Fetched(target) => if target.Some? { assert BlocksCaller(s.rows, cfg.items, s.leases, s.now, KeyOf(c), target.value); }
    case _ =>
  }

  lemma PersistKeepsAim(s: State, cfg: Config, c: CallId, choice: Choice)
    requires Fits(s, cfg, c, choice) && choice.Go? && s.calls[c].pc.Persist?
    ensures Aimed(cfg, c, PcAfter(s, cfg, c, choice))
  {
    if Open(s, c) { DecideKeepsAim(s.(rows := RowsAfter(s, c, choice)), cfg, c); }
  }

  lemma StatementKeepsAim(s: State, cfg: Config, c: CallId, choice: Choice)
    requires Fits(s, cfg, c, choice) && choice.Go? && !s.calls[c].pc.Persist? && Aimed(cfg, c, s.calls[c].pc)
    ensures Aimed(cfg, c, PcAfter(s, cfg, c, choice))
  {
  }

  lemma NextAim(s: State, cfg: Config, c: CallId, choice: Choice)
    requires Legal(s, cfg, Advance(c, choice)) && Aimed(cfg, c, s.calls[c].pc)
    ensures Aimed(cfg, c, Apply(s, cfg, Advance(c, choice)).calls[c].pc)
  {
    if !choice.Go? { OracleKeepsAim(s, cfg, c, choice); }
    else if s.calls[c].pc.Persist? { PersistKeepsAim(s, cfg, c, choice); }
    else { StatementKeepsAim(s, cfg, c, choice); }
  }

  lemma OwnResultAfterOracle(s: State, cfg: Config, c: CallId, choice: Choice)
    requires ResultInv(s, cfg) && Legal(s, cfg, Advance(c, choice)) && Current(s, cfg, c)
    requires !choice.Go?
    ensures var s' := Apply(s, cfg, Advance(c, choice)); OwnResult(s', c, Core(s'.calls[c].pc))
  {
    var s' := Apply(s, cfg, Advance(c, choice));
    var call := s.calls[c];
    assert Aimed(cfg, c, call.pc) && OwnResult(s, c, Core(call.pc));
    if choice.Observed? {
      EvidenceKeepsAim(s', cfg, c, call, call.pc.target, call.pc.mode, choice.evidence, choice.extra);
    }
  }

  lemma OwnResultAfterPersist(s: State, cfg: Config, c: CallId, choice: Choice)
    requires ResultInv(s, cfg) && Legal(s, cfg, Advance(c, choice)) && Current(s, cfg, c)
    requires choice.Go? && (s.calls[c].pc.Persist? || s.calls[c].pc.Parent? || s.calls[c].pc.PersistAgain?)
    ensures var s' := Apply(s, cfg, Advance(c, choice)); OwnResult(s', c, Core(s'.calls[c].pc))
  {
    var s' := Apply(s, cfg, Advance(c, choice));
    var call := s.calls[c];
    assert Aimed(cfg, c, call.pc) && OwnResult(s, c, Core(call.pc));
    if Open(s, c) {
      assert KeyOf(c) in s'.rows;
      if call.pc.Persist? { DecideKeepsAim(s', cfg, c); }
    }
  }

  lemma OwnResultAfterMerge(s: State, cfg: Config, c: CallId, choice: Choice)
    requires ResultInv(s, cfg) && Legal(s, cfg, Advance(c, choice)) && Current(s, cfg, c)
    requires choice.Go? && (s.calls[c].pc.Arm? || s.calls[c].pc.Mark? || s.calls[c].pc.Enter? || s.calls[c].pc.Stash?)
    ensures var s' := Apply(s, cfg, Advance(c, choice)); OwnResult(s', c, Core(s'.calls[c].pc))
  {
    var s' := Apply(s, cfg, Advance(c, choice));
    var call := s.calls[c];
    assert Aimed(cfg, c, call.pc) && OwnResult(s, c, Core(call.pc));
  }

  /** A fence leads on to its own next program counter or stops the call. */
  lemma OwnResultAfterFence(s: State, cfg: Config, c: CallId, choice: Choice)
    requires ResultInv(s, cfg) && Legal(s, cfg, Advance(c, choice)) && Current(s, cfg, c)
    requires choice.Go? && s.calls[c].pc.Fence?
    ensures var s' := Apply(s, cfg, Advance(c, choice)); OwnResult(s', c, Core(s'.calls[c].pc))
  {
    var s' := Apply(s, cfg, Advance(c, choice));
    var pc := s.calls[c].pc;
    assert s'.rows == s.rows;
    assert Aimed(cfg, c, pc) && OwnResult(s, c, pc.next);
    var pc' := s'.calls[c].pc;
    assert Core(pc') == pc.next || pc'.ReleaseUnsent? || pc'.Threw?;
  }

  /** Settling ends the call or leads to its entry. */
  lemma OwnResultAfterSettle(s: State, cfg: Config, c: CallId, choice: Choice)
    requires ResultInv(s, cfg) && Legal(s, cfg, Advance(c, choice)) && Current(s, cfg, c)
    requires choice.Go? && s.calls[c].pc.Settle?
    ensures var s' := Apply(s, cfg, Advance(c, choice)); OwnResult(s', c, Core(s'.calls[c].pc))
  {
    assert Aimed(cfg, c, s.calls[c].pc);
  }

  lemma OwnResultAfterOther(s: State, cfg: Config, c: CallId, choice: Choice)
    requires ResultInv(s, cfg) && Legal(s, cfg, Advance(c, choice)) && Current(s, cfg, c)
    requires choice.Go? && (s.calls[c].pc.ParentReset? || s.calls[c].pc.Mutate? || s.calls[c].pc.ReleaseUnsent?)
    ensures var s' := Apply(s, cfg, Advance(c, choice)); OwnResult(s', c, Core(s'.calls[c].pc))
  {
    var s' := Apply(s, cfg, Advance(c, choice));
    assert OwnResult(s, c, Core(s.calls[c].pc));
    assert Core(s'.calls[c].pc) in {Persist, Threw} || s'.calls[c].pc.Sending?;
  }

  lemma NextOwnResult(s: State, cfg: Config, c: CallId, choice: Choice)
    requires ResultInv(s, cfg) && Legal(s, cfg, Advance(c, choice)) && Current(s, cfg, c)
    ensures var s' := Apply(s, cfg, Advance(c, choice)); OwnResult(s', c, Core(s'.calls[c].pc))
  {
    var pc := s.calls[c].pc;
    if !choice.Go? { OwnResultAfterOracle(s, cfg, c, choice); }
    else if pc.Persist? || pc.Parent? || pc.PersistAgain? { OwnResultAfterPersist(s, cfg, c, choice); }
    else if pc.Arm? || pc.Mark? || pc.Enter? || pc.Stash? { OwnResultAfterMerge(s, cfg, c, choice); }
    else if pc.Fence? { OwnResultAfterFence(s, cfg, c, choice); }
    else if pc.Settle? { OwnResultAfterSettle(s, cfg, c, choice); }
    else { OwnResultAfterOther(s, cfg, c, choice); }
  }

  /** Both halves of the invariant for one call after an environment step: no row gained a result but a closed one. */
  lemma EnvironmentKeepsOwnResult(s: State, cfg: Config, step: Step, c: CallId)
    requires ResultInv(s, cfg) && Legal(s, cfg, step) && !step.Advance?
    requires c in s.calls && c in Apply(s, cfg, step).calls && !(step.Begin? && step.c == c) && Current(s, cfg, c)
    ensures OwnResult(Apply(s, cfg, step), c, Core(s.calls[c].pc))
  {
    assert OwnResult(s, c, Core(s.calls[c].pc));
  }

  /** The same after a call's own step, or another call's. */
  lemma AdvanceKeepsOwnResult(s: State, cfg: Config, step: Step, c: CallId)
    requires ResultInv(s, cfg) && Legal(s, cfg, step) && step.Advance? && c in s.calls
    ensures var s' := Apply(s, cfg, step);
            Aimed(cfg, c, s'.calls[c].pc) && (Current(s', cfg, c) ==> OwnResult(s', c, Core(s'.calls[c].pc)))
  {
    var s' := Apply(s, cfg, step);
    assert Current(s', cfg, c) <==> Current(s, cfg, c);
    if c == step.c {
      NextAim(s, cfg, c, step.choice);
      if Current(s, cfg, c) { NextOwnResult(s, cfg, c, step.choice); }
    } else if Current(s, cfg, c) {
      OthersResults(s, cfg, step.c, step.choice, c);
    }
  }

  lemma ResultInvKept(s: State, cfg: Config, step: Step)
    requires ResultInv(s, cfg) && Legal(s, cfg, step)
    ensures ResultInv(Apply(s, cfg, step), cfg)
  {
    var s' := Apply(s, cfg, step);
    RegisteredKept(s, cfg, step);
    forall c | c in s'.calls
      ensures Aimed(cfg, c, s'.calls[c].pc)
      ensures Current(s', cfg, c) ==> OwnResult(s', c, Core(s'.calls[c].pc))
    {
      if step.Advance? {
        AdvanceKeepsOwnResult(s, cfg, step, c);
      } else if !(step.Begin? && step.c == c) && Current(s', cfg, c) {
        EnvironmentKeepsOwnResult(s, cfg, step, c);
      }
    }
  }

  // ----- Runs in which no result is overwritten -----

  ghost predicate CleanRun(s: State, cfg: Config, steps: seq<Step>)
    requires IsRun(s, cfg, steps)
    decreases |steps|
  {
    steps == [] || (!Overwrites(s, steps[0]) && CleanRun(Apply(s, cfg, steps[0]), cfg, steps[1..]))
  }

  predicate Holds(s: State, key: IntentKey, result: Json) {
    key in s.rows && Result in s.rows[key].detail && s.rows[key].detail[Result] == result
  }

  /** Where a call can be that first reads its row after `result` was stashed there. */
  predicate Replaying(cfg: Config, key: IntentKey, result: Json, pc: Pc) {
    match Core(pc)
    case Parent => true
    case ParentReset => true
    case Persist => true
    case Settle(target, Reconciled, patch, next) =>
      && target == key && patch == map[Result := result]
      && next.Done? && cfg.decode(Unstored(result)) == Some(next.value)
    case Done(value) => cfg.decode(Unstored(result)) == Some(value)
    case Threw => true
    case _ => false
  }

  predicate Later(s: State, cfg: Config, c: CallId, result: Json) {
    c in s.calls ==> Replaying(cfg, KeyOf(c), result, s.calls[c].pc)
  }

  /** The call's own step: what it read decides where it goes. */
  lemma ReplayAdvance(s: State, cfg: Config, c: CallId, choice: Choice, result: Json)
    requires Fits(s, cfg, c, choice) && Replaying(cfg, KeyOf(c), result, s.calls[c].pc)
    requires Holds(s, KeyOf(c), result)
    ensures Replaying(cfg, KeyOf(c), result, PcAfter(s, cfg, c, choice))
  {
    assert choice.Go?;
    if s.calls[c].pc.Persist? && Open(s, c) {
      var seen := RowsAfter(s, c, choice)[KeyOf(c)];
      assert seen.detail[Result] == result;
      assert (map[])[Result := result] == map[Result := result];
    }
  }

  lemma ReplayStep(s: State, cfg: Config, step: Step, c: CallId, result: Json)
    requires ResultInv(s, cfg) && Legal(s, cfg, step) && !Overwrites(s, step)
    requires Holds(s, KeyOf(c), result) && Later(s, cfg, c, result)
    ensures Holds(Apply(s, cfg, step), KeyOf(c), result) && Later(Apply(s, cfg, step), cfg, c, result)
  {
    ResultsChangeOnlyByOverwriting(s, cfg, step);
    assert Holds(Apply(s, cfg, step), KeyOf(c), result);
    if step.Advance? && step.c == c { ReplayAdvance(s, cfg, c, step.choice, result); }
  }

  /**
    Replay. Once a result is stashed, a call for the key that starts later never calls mutate(), and
    if it returns, it returns the decoding of that same result (a stored null being undefined).
   */
  lemma {:induction false} LaterCallsReplay(s: State, cfg: Config, steps: seq<Step>, c: CallId, result: Json)
    requires ResultInv(s, cfg) && IsRun(s, cfg, steps) && CleanRun(s, cfg, steps)
    requires Holds(s, KeyOf(c), result) && Later(s, cfg, c, result)
    ensures var end := End(s, cfg, steps);
            && Holds(end, KeyOf(c), result)
            && (c in end.calls ==> !end.calls[c].pc.Mutate? && !end.calls[c].pc.Sending? && !end.calls[c].pc.Sent?)
            && (c in end.calls && end.calls[c].pc.Done? ==> cfg.decode(Unstored(result)) == Some(end.calls[c].pc.value))
    decreases |steps|
  {
    if steps != [] {
      ReplayStep(s, cfg, steps[0], c, result);
      ResultInvKept(s, cfg, steps[0]);
      LaterCallsReplay(Apply(s, cfg, steps[0]), cfg, steps[1..], c, result);
    }
  }

  // ----- Executions that publish one key after the other never overwrite -----

  /** From here on the call writes no row but its own. */
  predicate KeepsToItself(c: CallId, pc: Pc) {
    match Core(pc)
    case Recover(target, _) => target == KeyOf(c)
    case Settle(target, _, _, next) => target == KeyOf(c) && Finished(next)
    case Fence(_, _) => false
    case Parent => false
    case ParentReset => false
    case Persist => false
    case Query => false
    case _ => true
  }

  /** The call has not got past its in-flight query, or is settling another work item's row. */
  predicate Searching(s: State, c: CallId) { c in s.calls && !KeepsToItself(c, s.calls[c].pc) }

  ghost predicate OneCallEach(s: State) {
    forall c, c' :: Searching(s, c) && Searching(s, c') && c.workItem == c'.workItem && c.epoch == c'.epoch ==> c == c'
  }

  /**
    An execution starts a call only when its other calls are past their query: finished, or, for a
    delegated parent, inside its mutate().
   */
  ghost predicate InTurn(s: State, step: Step) {
    step.Begin? ==> forall c :: Searching(s, c) ==> c.workItem != step.c.workItem || c.epoch != step.c.epoch
  }

  predicate RecoversVoid(s: State, cfg: Config, step: Step) {
    && step.Advance? && step.choice.Observed? && step.c in s.calls && s.calls[step.c].pc.Recover?
    && s.calls[step.c].pc.target.operation in cfg.voidOps
  }

  /**
    What keeps verdict closes out of the way: a recovery finds no value for a void operation, and no
    unleased close settles a row that a call of another work item is recovering.
   */
  ghost predicate ClosesApart(s: State, cfg: Config, step: Step) {
    && (RecoversVoid(s, cfg, step) && step.choice.evidence.Found? ==> step.choice.evidence.value == None)
    && (step.SettleVoid? && step.closer == None ==> forall c :: c in s.calls ==> !AimsElsewhere(c, s.calls[c].pc, step.target))
  }

  predicate AimsElsewhere(c: CallId, pc: Pc, target: IntentKey) {
    (Core(pc).Recover? || Core(pc).Settle?) && Core(pc).target == target && target != KeyOf(c)
  }

  ghost predicate SequentialRun(s: State, cfg: Config, steps: seq<Step>)
    requires IsRun(s, cfg, steps)
    decreases |steps|
  {
    steps == [] || (InTurn(s, steps[0]) && ClosesApart(s, cfg, steps[0]) && SequentialRun(Apply(s, cfg, steps[0]), cfg, steps[1..]))
  }

  /** A current call aiming at another work item's row finds no foreign result there. */
  predicate ForeignResult(s: State, c: CallId, pc: Pc) {
    match pc
    case Recover(target, _) => target != KeyOf(c) ==> Unstashed(s, target)
    case Settle(target, _, patch, _) => target != KeyOf(c) ==> SameOrNoResult(s, target, patch)
    case _ => true
  }

  /** A result that is to be written for a void operation is null. */
  predicate NullIfVoid(cfg: Config, c: CallId, pc: Pc) {
    match pc
    case Settle(target, _, patch, _) => target.operation in cfg.voidOps && Result in patch ==> patch[Result] == JNull
    case Stash(patch, _) => c.operation in cfg.voidOps && Result in patch ==> patch[Result] == JNull
    case _ => true
  }

  ghost predicate VoidInv(s: State, cfg: Config) {
    && (forall key :: key in s.rows && key.operation in cfg.voidOps && Result in s.rows[key].detail ==>
          s.rows[key].detail[Result] == JNull)
    && (forall c :: c in s.calls ==> NullIfVoid(cfg, c, Core(s.calls[c].pc)))
  }

  ghost predicate SequentialInv(s: State, cfg: Config) {
    && ResultInv(s, cfg)
    && VoidInv(s, cfg)
    && OneCallEach(s)
    && forall c :: c in s.calls && Current(s, cfg, c) ==> ForeignResult(s, c, Core(s.calls[c].pc))
  }

  lemma OracleKeepsVoid(s: State, cfg: Config, c: CallId, choice: Choice)
    requires Legal(s, cfg, Advance(c, choice)) && ClosesApart(s, cfg, Advance(c, choice)) && !choice.Go?
    ensures NullIfVoid(cfg, c, Core(PcAfter(s, cfg, c, choice)))
  {
  }

  lemma StatementKeepsVoid(s: State, cfg: Config, c: CallId, choice: Choice)
    requires Fits(s, cfg, c, choice) && VoidInv(s, cfg) && Aimed(cfg, c, s.calls[c].pc) && choice.Go?
    ensures NullIfVoid(cfg, c, Core(PcAfter(s, cfg, c, choice)))
  {
    assert NullIfVoid(cfg, c, Core(s.calls[c].pc));
  }

  lemma VoidRowsKept(s: State, cfg: Config, c: CallId, choice: Choice, key: IntentKey)
    requires Fits(s, cfg, c, choice) && VoidInv(s, cfg)
    requires key in RowsAfter(s, c, choice) && key.operation in cfg.voidOps && Result in RowsAfter(s, c, choice)[key].detail
    ensures RowsAfter(s, c, choice)[key].detail[Result] == JNull
  {
    assert NullIfVoid(cfg, c, Core(s.calls[c].pc));
  }

  /** Results of void operations are null wherever they are, or are about to be. */
  lemma VoidInvKept(s: State, cfg: Config, step: Step)
    requires ResultInv(s, cfg) && VoidInv(s, cfg) && Legal(s, cfg, step) && ClosesApart(s, cfg, step)
    ensures VoidInv(Apply(s, cfg, step), cfg)
  {
    if step.Advance? {
      var c, choice := step.c, step.choice;
      if choice.Go? { StatementKeepsVoid(s, cfg, c, choice); } else { OracleKeepsVoid(s, cfg, c, choice); }
      forall key | key in RowsAfter(s, c, choice) && key.operation in cfg.voidOps && Result in RowsAfter(s, c, choice)[key].detail
        ensures RowsAfter(s, c, choice)[key].detail[Result] == JNull
      {
        VoidRowsKept(s, cfg, c, choice, key);
      }
    }
  }

  lemma EvidenceKeepsForeign(s: State, cfg: Config, c: CallId, call: Call, target: IntentKey, mode: Mode, e: Evidence, extra: Detail)
    requires target != KeyOf(c) ==> Unstashed(s, target)
    ensures ForeignResult(s, c, Core(AfterEvidence(cfg, call, target, mode, e, extra)))
  {
  }

  /** A fence leads on to its own next program counter or stops the call. */
  lemma FenceKeepsForeign(s: State, cfg: Config, c: CallId, choice: Choice)
    requires Fits(s, cfg, c, choice) && choice.Go? && s.calls[c].pc.Fence?
    requires Aimed(cfg, c, s.calls[c].pc) && ForeignResult(s, c, Core(s.calls[c].pc))
    ensures ForeignResult(s, c, Core(PcAfter(s, cfg, c, choice)))
  {
  }

  lemma OracleKeepsForeign(s: State, cfg: Config, c: CallId, choice: Choice)
    requires Legal(s, cfg, Advance(c, choice)) && !choice.Go?
    requires ForeignResult(s, c, Core(s.calls[c].pc))
    ensures ForeignResult(s, c, Core(PcAfter(s, cfg, c, choice)))
  {
    var call := s.calls[c];
    match choice
    case Observed(e, extra) => EvidenceKeepsForeign(s, cfg, c, call, call.pc.target, call.pc.mode, e, extra);
    case Fetched(target) => if target.Some? { assert BlocksCaller(s.rows, cfg.items, s.leases, s.now, KeyOf(c), target.value); }
    case _ =>
  }

  /** Statements on the own row lead only to steps aimed at the own row. */
  lemma StatementKeepsForeign(s: State, cfg: Config, c: CallId, choice: Choice, after: State)
    requires Fits(s, cfg, c, choice) && choice.Go? && !s.calls[c].pc.Fence?
    requires Aimed(cfg, c, s.calls[c].pc)
    ensures ForeignResult(after, c, Core(PcAfter(s, cfg, c, choice)))
  {
  }

  lemma NextForeignResult(s: State, cfg: Config, c: CallId, choice: Choice)
    requires SequentialInv(s, cfg) && Legal(s, cfg, Advance(c, choice)) && Current(s, cfg, c)
    ensures var s' := Apply(s, cfg, Advance(c, choice)); ForeignResult(s', c, Core(s'.calls[c].pc))
  {
    var s' := Apply(s, cfg, Advance(c, choice));
    var pc := s.calls[c].pc;
    assert Aimed(cfg, c, pc) && ForeignResult(s, c, Core(pc));
    if !choice.Go? {
      OracleKeepsForeign(s, cfg, c, choice);
      assert s'.rows == s.rows;
    } else if pc.Fence? {
      FenceKeepsForeign(s, cfg, c, choice);
      assert s'.rows == s.rows;
    } else {
      StatementKeepsForeign(s, cfg, c, choice, s');
    }
  }

  /** While a call is current, other executions cannot write a result into any row of its lease key. */
  lemma OthersKeepForeignResult(s: State, cfg: Config, c: CallId, choice: Choice, other: CallId)
    requires SequentialInv(s, cfg) && Legal(s, cfg, Advance(c, choice))
    requires other in s.calls && other != c && Current(s, cfg, other)
    ensures ForeignResult(Apply(s, cfg, Advance(c, choice)), other, Core(s.calls[other].pc))
  {
    var pc := Core(s.calls[other].pc);
    assert Aimed(cfg, other, s.calls[other].pc) && Aimed(cfg, c, s.calls[c].pc) && ForeignResult(s, other, pc);
    if (pc.Recover? || pc.Settle?) && pc.target != KeyOf(other) && pc.target in s.rows {
      assert Searching(s, other);
      if Open(s, c) {
        OpenMeansCurrent(s, cfg, c);
        if cfg.items[c.workItem] == cfg.items[other.workItem] { assert KeepsToItself(c, s.calls[c].pc); }
      }
      assert pc.target in RowsAfter(s, c, choice);
      assert Result in RowsAfter(s, c, choice)[pc.target].detail <==> Result in s.rows[pc.target].detail;
    }
  }

  lemma OverwritingNeedsTwoCalls(s: State, cfg: Config, step: Step)
    requires SequentialInv(s, cfg) && Legal(s, cfg, step)
    ensures !Overwrites(s, step)
  {
    if step.Advance? && Open(s, step.c) { OpenMeansCurrent(s, cfg, step.c); }
  }

  lemma EvidenceStaysInside(cfg: Config, c: CallId, call: Call, target: IntentKey, mode: Mode, e: Evidence, extra: Detail)
    requires target == KeyOf(c)
    ensures KeepsToItself(c, AfterEvidence(cfg, call, target, mode, e, extra))
  {
  }

  /** A call past its query stays past it. */
  lemma StaysInside(s: State, cfg: Config, c: CallId, choice: Choice)
    requires Fits(s, cfg, c, choice) && Aimed(cfg, c, s.calls[c].pc) && KeepsToItself(c, s.calls[c].pc)
    ensures KeepsToItself(c, PcAfter(s, cfg, c, choice))
  {
    if choice.Observed? { EvidenceStaysInside(cfg, c, s.calls[c], s.calls[c].pc.target, s.calls[c].pc.mode, choice.evidence, choice.extra); }
  }

  lemma OneCallEachKept(s: State, cfg: Config, step: Step)
    requires ResultInv(s, cfg) && OneCallEach(s) && Enabled(s, cfg, step) && InTurn(s, step)
    ensures OneCallEach(Apply(s, cfg, step))
  {
    forall c | Searching(Apply(s, cfg, step), c) ensures Searching(s, c) || (step.Begin? && step.c == c) {
      if step.Advance? && step.c == c && KeepsToItself(c, s.calls[c].pc) { StaysInside(s, cfg, c, step.choice); }
    }
  }

  /** An environment step adds no result to any row. */
  lemma EnvironmentKeepsForeign(s: State, cfg: Config, step: Step, c: CallId)
    requires SequentialInv(s, cfg) && Legal(s, cfg, step) && ClosesApart(s, cfg, step) && !step.Advance?
    requires c in s.calls && Current(s, cfg, c)
    ensures ForeignResult(Apply(s, cfg, step), c, Core(s.calls[c].pc))
  {
    var s' := Apply(s, cfg, step);
    assert ForeignResult(s, c, Core(s.calls[c].pc));
    if step.SettleVoid? {
      CloseKeepsForeign(s, cfg, step, c);
    } else {
      assert forall key :: key in s.rows ==> key in s'.rows && (Result in s'.rows[key].detail <==> Result in s.rows[key].detail);
      assert forall key :: key in s.rows && Result in s.rows[key].detail ==> s'.rows[key].detail[Result] == s.rows[key].detail[Result];
    }
  }

  /** A leased close holds the lease key of the row, so no current call of another work item aims at it. */
  lemma CloseKeepsForeign(s: State, cfg: Config, step: Step, c: CallId)
    requires SequentialInv(s, cfg) && Legal(s, cfg, step) && ClosesApart(s, cfg, step) && step.SettleVoid?
    requires c in s.calls && Current(s, cfg, c)
    ensures ForeignResult(Apply(s, cfg, step), c, Core(s.calls[c].pc))
  {
    assert ForeignResult(s, c, Core(s.calls[c].pc)) && Aimed(cfg, c, s.calls[c].pc);
    if AimsElsewhere(c, s.calls[c].pc, step.target) {
      assert Apply(s, cfg, step).rows == s.rows;
    }
  }

  lemma SequentialStep(s: State, cfg: Config, step: Step)
    requires SequentialInv(s, cfg) && Legal(s, cfg, step) && InTurn(s, step) && ClosesApart(s, cfg, step)
    ensures SequentialInv(Apply(s, cfg, step), cfg) && !Overwrites(s, step)
  {
    var s' := Apply(s, cfg, step);
    VoidInvKept(s, cfg, step);
    ResultInvKept(s, cfg, step);
    RegisteredKept(s, cfg, step);
    OverwritingNeedsTwoCalls(s, cfg, step);
    OneCallEachKept(s, cfg, step);
    forall c | c in s'.calls && Current(s', cfg, c) ensures ForeignResult(s', c, Core(s'.calls[c].pc)) {
      if step.Begin? && step.c == c {
      } else if !step.Advance? {
        EnvironmentKeepsForeign(s, cfg, step, c);
      } else if c == step.c {
        NextForeignResult(s, cfg, c, step.choice);
      } else {
        OthersKeepForeignResult(s, cfg, step.c, step.choice, c);
      }
    }
  }

  /** So executions that publish one key after the other always replay faithfully. */
  lemma {:induction false} SequentialRunsAreClean(s: State, cfg: Config, steps: seq<Step>)
    requires SequentialInv(s, cfg) && IsRun(s, cfg, steps) && SequentialRun(s, cfg, steps)
    ensures CleanRun(s, cfg, steps) && SequentialInv(End(s, cfg, steps), cfg)
    decreases |steps|
  {
    if steps != [] {
      SequentialStep(s, cfg, steps[0]);
      SequentialRunsAreClean(Apply(s, cfg, steps[0]), cfg, steps[1..]);
    }
  }

  lemma {:induction false} RunKeepsResultInv(s: State, cfg: Config, steps: seq<Step>)
    requires ResultInv(s, cfg) && IsRun(s, cfg, steps)
    ensures ResultInv(End(s, cfg, steps), cfg)
    decreases |steps|
  {
    if steps != [] {
      ResultInvKept(s, cfg, steps[0]);
      RunKeepsResultInv(Apply(s, cfg, steps[0]), cfg, steps[1..]);
    }
  }

  /**
    Replay from the start of the system: in runs whose executions take their calls in turn, every call
    begun after a result was stashed for its key either throws, vanishes, or returns the decoding of
    that result. It never sends.
   */
  lemma SequentialCallsReplay(cfg: Config, before: seq<Step>, after: seq<Step>, c: CallId, result: Json)
    requires IsRun(Init(), cfg, before) && SequentialRun(Init(), cfg, before)
    requires var s := End(Init(), cfg, before);
             && IsRun(s, cfg, after) && SequentialRun(s, cfg, after)
             && Holds(s, KeyOf(c), result) && c !in s.calls
    ensures var end := End(End(Init(), cfg, before), cfg, after);
            && Holds(end, KeyOf(c), result)
            && (c in end.calls ==>
                  && !end.calls[c].pc.Mutate? && !end.calls[c].pc.Sending? && !end.calls[c].pc.Sent?
                  && (end.calls[c].pc.Done? ==> cfg.decode(Unstored(result)) == Some(end.calls[c].pc.value)))
  {
    var s := End(Init(), cfg, before);
    SequentialRunsAreClean(Init(), cfg, before);
    SequentialRunsAreClean(s, cfg, after);
    LaterCallsReplay(s, cfg, after, c, result);
  }

  // ----- Settled rows -----

  /** What the status guards of the statements leave possible. */
  predicate StatusStays(before: Status, after: Status) {
    && (before == Reconciled ==> after == Reconciled)
    && (before == OutcomeUnknown ==> after == OutcomeUnknown || after == Reconciled)
  }

  lemma StatusStaysInStep(s: State, cfg: Config, step: Step, key: IntentKey)
    requires Enabled(s, cfg, step) && key in s.rows
    ensures var s' := Apply(s, cfg, step); key in s'.rows && StatusStays(s.rows[key].status, s'.rows[key].status)
  {
  }

  /** Over every run reconciled is absorbing and an unknown outcome leaves only to reconciled, whoever writes. */
  lemma {:induction false} SettledStatusesStay(s: State, cfg: Config, steps: seq<Step>, key: IntentKey)
    requires IsRun(s, cfg, steps) && key in s.rows
    ensures var end := End(s, cfg, steps);
            && key in end.rows
            && (s.rows[key].status == Reconciled ==> end.rows[key].status == Reconciled)
            && (s.rows[key].status == OutcomeUnknown ==> end.rows[key].status in {OutcomeUnknown, Reconciled})
    decreases |steps|
  {
    if steps != [] {
      StatusStaysInStep(s, cfg, steps[0], key);
      SettledStatusesStay(Apply(s, cfg, steps[0]), cfg, steps[1..], key);
    }
  }

  /** The call has set its send marker. */
  predicate PastMark(s: State, c: CallId) {
    c in s.calls && var pc := Core(s.calls[c].pc); pc.Enter? || pc.Mutate? || pc.Sending?
  }

  lemma NoCallPassesItsMark(s: State, cfg: Config, c: CallId, choice: Choice)
    requires Fits(s, cfg, c, choice) && Aimed(cfg, c, s.calls[c].pc) && !PastMark(s, c)
    requires KeyOf(c) in s.rows && Settled(s.rows[KeyOf(c)])
    ensures var pc := Core(PcAfter(s, cfg, c, choice)); !pc.Enter? && !pc.Mutate? && !pc.Sending?
  {
    if choice.Observed? { EvidenceKeepsUnmarked(cfg, s.calls[c], s.calls[c].pc.target, s.calls[c].pc.mode, choice.evidence, choice.extra); }
  }

  lemma EvidenceKeepsUnmarked(cfg: Config, call: Call, target: IntentKey, mode: Mode, e: Evidence, extra: Detail)
    ensures var pc := Core(AfterEvidence(cfg, call, target, mode, e, extra)); pc.Settle? || pc.Threw?
  {
  }

  lemma SendComesFromMark(s: State, cfg: Config, step: Step, i: nat)
    requires Enabled(s, cfg, step) && |s.log| <= i < |Apply(s, cfg, step).log|
    ensures var sent := Apply(s, cfg, step).log[i]; PastMark(s, CallId(sent.key.workItem, sent.epoch, sent.key.operation))
  {
  }

  lemma NoStepPassesAMark(s: State, cfg: Config, step: Step, c: CallId)
    requires ResultInv(s, cfg) && Legal(s, cfg, step)
    requires KeyOf(c) in s.rows && Settled(s.rows[KeyOf(c)])
    ensures PastMark(Apply(s, cfg, step), c) ==> PastMark(s, c)
  {
    if step.Advance? && step.c == c && !PastMark(s, c) { NoCallPassesItsMark(s, cfg, c, step.choice); }
  }

  /**
    A settled row, a terminal unknown outcome included, never leads to mutate(): whatever is sent for
    its key afterwards comes from a call that had set its send marker before the row was settled.
   */
  lemma {:induction false} SettledRowsStartNoSend(s: State, cfg: Config, steps: seq<Step>, key: IntentKey, i: nat)
    requires ResultInv(s, cfg) && IsRun(s, cfg, steps)
    requires key in s.rows && Settled(s.rows[key])
    requires |s.log| <= i < |End(s, cfg, steps).log| && End(s, cfg, steps).log[i].key == key
    ensures PastMark(s, CallId(key.workItem, End(s, cfg, steps).log[i].epoch, key.operation))
    decreases |steps|
  {
    if steps != [] {
      var next := Apply(s, cfg, steps[0]);
      StatusStaysInStep(s, cfg, steps[0], key);
      ResultInvKept(s, cfg, steps[0]);
      if i < |next.log| {
        LogIsAppendOnly(next, cfg, steps[1..], i);
        SendComesFromMark(s, cfg, steps[0], i);
      } else {
        SettledRowsStartNoSend(next, cfg, steps[1..], key, i);
        NoStepPassesAMark(s, cfg, steps[0], CallId(key.workItem, End(s, cfg, steps).log[i].epoch, key.operation));
      }
    }
  }

  lemma {:induction false} LogIsAppendOnly(s: State, cfg: Config, steps: seq<Step>, i: nat)
    requires IsRun(s, cfg, steps) && i < |s.log|
    ensures var end := End(s, cfg, steps).log; i < |end| && end[i].key == s.log[i].key && end[i].epoch == s.log[i].epoch
    decreases |steps|
  {
    if steps != [] { LogIsAppendOnly(Apply(s, cfg, steps[0]), cfg, steps[1..], i); }
  }
}

/**
  At most one unrefused mutate() per (work item, operation key), over every run whose send markers are
  set on armed rows. The invariant is kept call by call: only the call of the key's current epoch can
  write the row, and it reaches the send marker only while nothing else was or may still be sent.
 */
module PublishSafety {
  import opened Wrappers
  import opened Leases
  import opened Intents
  import opened Publish

  // ----- The invariant -----

  predicate Settled(r: Intent) { r.status == Reconciled || r.status == OutcomeUnknown }

  /** The call's epoch is the one in its lease row, lapsed or not. */
  predicate Current(s: State, cfg: Config, c: CallId) {
    && c.workItem in cfg.items
    && cfg.items[c.workItem] in s.leases
    && s.leases[cfg.items[c.workItem]].epoch == c.epoch
    && s.leases[cfg.items[c.workItem]].holder == Some(c.workItem)
  }

  ghost predicate Registered(s: State, cfg: Config) {
    && (forall key :: key in s.leases && s.leases[key].holder.Some? ==>
          s.leases[key].holder.value in cfg.items && cfg.items[s.leases[key].holder.value] == key)
    && (forall h :: h in s.executions ==>
          h.workItem in cfg.items && cfg.items[h.workItem] in s.leases && h.epoch <= s.leases[cfg.items[h.workItem]].epoch)
    && (forall c :: c in s.calls ==> Holder(c.workItem, c.epoch) in s.executions)
  }

  /** Marked, entered if delegated, and about to call mutate(). No fence stops it any more. */
  predicate Committed(s: State, c: CallId) { c in s.calls && s.calls[c].pc.Mutate? }

  /** Nothing was sent for this key, as far as the remote did not prove to have refused it. */
  ghost predicate NoSend(log: seq<Send>, key: IntentKey) {
    forall i :: 0 <= i < |log| && log[i].key == key ==> log[i].outcome.Rejected?
  }

  ghost predicate Free(s: State, key: IntentKey) {
    && (forall c :: Committed(s, c) ==> KeyOf(c) != key)
    && NoSend(s.log, key)
  }

  /** The row keeps every later call of its key from sending. */
  predicate Blocked(s: State, cfg: Config, key: IntentKey) {
    && key in s.rows
    && (Settled(s.rows[key]) || (
          && s.rows[key].status == Pending
          && IsTrue(s.rows[key].detail, Mutating)
          && IsTrue(s.rows[key].detail, SendStarted)
          && (key.operation in cfg.delegatedOps ==> IsTrue(s.rows[key].detail, DelegationEntered))))
  }

  ghost predicate OneSender(s: State, cfg: Config) {
    && AtMostOnce(s.log)
    && (forall c :: Committed(s, c) ==> NoSend(s.log, KeyOf(c)))
    && (forall c, c' :: Committed(s, c) && Committed(s, c') && KeyOf(c) == KeyOf(c') ==> c == c')
    && (forall c :: Committed(s, c) ==> Blocked(s, cfg, KeyOf(c)))
    && (forall i :: 0 <= i < |s.log| && !s.log[i].outcome.Rejected? ==> Blocked(s, cfg, s.log[i].key))
  }

  /** What every program counter looks like, current or not. */
  predicate Shape(s: State, cfg: Config, c: CallId, pc: Pc) {
    match Core(pc)
    case Fence(_, _) => false
    case Parent => Delegated(cfg, c)
    case Stash(patch, _) => Result in patch && forall f :: f in patch ==> f.Other? || f == Result
    case Settle(target, status, patch, next) =>
      && status != Pending
      && (status == Failed ==> target == KeyOf(c) && Result !in patch)
      && (Finished(next) || next == Entry())
    case Mutate => pc.Mutate?
    case Sending(i) => i < |s.log| && s.log[i] == Send(KeyOf(c), c.epoch, Unanswered)
    case _ => true
  }

  ghost predicate SafeToSend(s: State, key: IntentKey) {
    key in s.rows && (Settled(s.rows[key]) || Free(s, key))
  }

  /** What a current call may rely on at each program counter. */
  ghost predicate Ready(s: State, cfg: Config, c: CallId, pc: Pc) {
    var key := KeyOf(c);
    match pc
    case ParentReset => SafeToSend(s, key)
    case Query => key in s.rows && (Settled(s.rows[key]) || Result !in s.rows[key].detail)
    case Arm(_) => SafeToSend(s, key)
    case Mark(armed, _) =>
      && SafeToSend(s, key)
      && (armed && !Settled(s.rows[key]) ==>
            && IsTrue(s.rows[key].detail, Mutating)
            && MutatingEpoch in s.rows[key].detail
            && s.rows[key].detail[MutatingEpoch] == JNum(c.epoch))
    case Enter =>
      && SafeToSend(s, key)
      && (!Settled(s.rows[key]) ==>
            && s.rows[key].status == Pending
            && IsTrue(s.rows[key].detail, Mutating)
            && IsTrue(s.rows[key].detail, SendStarted))
    case Settle(_, Failed, _, _) => SafeToSend(s, key)
    case _ => true
  }

  ghost predicate CallsReady(s: State, cfg: Config) {
    forall c :: c in s.calls ==>
      && Shape(s, cfg, c, s.calls[c].pc)
      && (Current(s, cfg, c) ==> Ready(s, cfg, c, Core(s.calls[c].pc)))
  }

  ghost predicate Inv(s: State, cfg: Config) {
    Registered(s, cfg) && OneSender(s, cfg) && CallsReady(s, cfg)
  }

  // ----- Leases: a spent epoch stays spent, and an open fence means a current epoch -----

  lemma OpenMeansCurrent(s: State, cfg: Config, c: CallId)
    requires Registered(s, cfg) && Open(s, c)
    ensures Current(s, cfg, c)
  {
  }

  lemma CurrentIsUnique(s: State, cfg: Config, c: CallId, c': CallId)
    requires Current(s, cfg, c) && Current(s, cfg, c') && KeyOf(c) == KeyOf(c')
    ensures c == c'
  {
  }

  lemma RegisteredKept(s: State, cfg: Config, step: Step)
    requires Registered(s, cfg) && Enabled(s, cfg, step)
    ensures Registered(Apply(s, cfg, step), cfg)
    ensures forall c: CallId :: Holder(c.workItem, c.epoch) in s.executions && Current(Apply(s, cfg, step), cfg, c) ==> Current(s, cfg, c)
  {
  }

  // ----- Rows: what one step may do to a row its own current call does not own -----

  /** Unchanged, settled, or an unsent row whose armed flag its dead holder takes back. */
  predicate Harmless(before: Intent, after: Intent, epoch: nat) {
    || Settled(after)
    || (after.status == before.status && after.detail == before.detail)
    || (UnsentArmedBy(before, epoch) && after.status == before.status && after.detail == before.detail[Mutating := JBool(false)])
  }

  lemma ForeignWritesAreHarmless(s: State, cfg: Config, c: CallId, choice: Choice, key: IntentKey)
    requires Fits(s, cfg, c, choice) && Shape(s, cfg, c, s.calls[c].pc)
    requires key in s.rows && (KeyOf(c) != key || !Open(s, c))
    ensures key in RowsAfter(s, c, choice)
    ensures Harmless(s.rows[key], RowsAfter(s, c, choice)[key], c.epoch)
  {
  }

  // ----- Steps of the environment -----

  /** The log and the other calls stayed; rows only settled; this call is gone or starts over. */
  lemma QuietStepKeepsInv(s: State, cfg: Config, s': State)
    requires Inv(s, cfg) && Registered(s', cfg) && s'.log == s.log
    requires forall c :: c in s'.calls ==> (c in s.calls && s'.calls[c] == s.calls[c]) || s'.calls[c].pc in {Checked(1, Parent), Entry()}
    requires forall c :: c in s'.calls && s'.calls[c].pc == Checked(1, Parent) ==> Delegated(cfg, c)
    requires forall c :: c in s.calls && Current(s', cfg, c) ==> Current(s, cfg, c)
    requires forall key :: key in s.rows ==> key in s'.rows && (s'.rows[key] == s.rows[key] || Settled(s'.rows[key]))
    ensures Inv(s', cfg)
  {
    assert forall c :: Committed(s', c) ==> Committed(s, c);
    assert forall key :: Free(s, key) ==> Free(s', key);
    forall c | c in s'.calls
      ensures Shape(s', cfg, c, s'.calls[c].pc)
      ensures Current(s', cfg, c) ==> Ready(s', cfg, c, Core(s'.calls[c].pc))
    {
    }
  }

  lemma EnvironmentOnlySettles(s: State, cfg: Config, step: Step, key: IntentKey)
    requires Enabled(s, cfg, step) && !step.Advance? && key in s.rows
    ensures var s' := Apply(s, cfg, step); key in s'.rows && (s'.rows[key] == s.rows[key] || Settled(s'.rows[key]))
  {
  }

  lemma EnvironmentKeepsInv(s: State, cfg: Config, step: Step)
    requires Inv(s, cfg) && Enabled(s, cfg, step) && !step.Advance?
    ensures Inv(Apply(s, cfg, step), cfg)
  {
    var s' := Apply(s, cfg, step);
    RegisteredKept(s, cfg, step);
    forall key | key in s.rows ensures key in s'.rows && (s'.rows[key] == s.rows[key] || Settled(s'.rows[key])) {
      EnvironmentOnlySettles(s, cfg, step, key);
    }
    QuietStepKeepsInv(s, cfg, s');
  }

  // ----- Steps of a call -----

  /** Sends and commitments of other keys are untouched. */
  lemma OtherKeysKept(s: State, cfg: Config, c: CallId, choice: Choice, key: IntentKey)
    requires Fits(s, cfg, c, choice) && Shape(s, cfg, c, s.calls[c].pc)
    requires key != KeyOf(c)
    ensures var s' := Apply(s, cfg, Advance(c, choice));
            (NoSend(s.log, key) <==> NoSend(s'.log, key)) && (Free(s, key) ==> Free(s', key))
  {
    var s' := Apply(s, cfg, Advance(c, choice));
    assert |s.log| <= |s'.log|;
    assert forall i :: 0 <= i < |s.log| ==> s'.log[i].key == s.log[i].key;
    assert forall i :: 0 <= i < |s.log| && s.log[i].key == key ==> s'.log[i] == s.log[i];
    assert forall c' :: Committed(s', c') && KeyOf(c') == key ==> Committed(s, c');
  }

  /** A sent log entry appears only for the committed call itself. */
  lemma OwnKeyKept(s: State, cfg: Config, c: CallId, choice: Choice)
    requires Inv(s, cfg) && Fits(s, cfg, c, choice)
    requires !Committed(s, c)
    ensures var s' := Apply(s, cfg, Advance(c, choice));
            && (NoSend(s.log, KeyOf(c)) ==> NoSend(s'.log, KeyOf(c)))
            && (Free(s, KeyOf(c)) && !Committed(s', c) ==> Free(s', KeyOf(c)))
  {
    var s' := Apply(s, cfg, Advance(c, choice));
    assert |s.log| == |s'.log|;
    assert forall i :: 0 <= i < |s.log| ==> s'.log[i].key == s.log[i].key && (s'.log[i] == s.log[i] || s.log[i].outcome.Unanswered?);
    assert forall c' :: c' != c ==> (Committed(s', c') <==> Committed(s, c'));
  }

  /** Sends and commitments of a key change only through its own calls, and only one of them sends. */
  lemma FreeForOthers(s: State, cfg: Config, c: CallId, choice: Choice, other: CallId)
    requires Inv(s, cfg) && Fits(s, cfg, c, choice) && Free(s, KeyOf(other)) && other != c && Current(s, cfg, other)
    ensures Free(Apply(s, cfg, Advance(c, choice)), KeyOf(other))
  {
    var s' := Apply(s, cfg, Advance(c, choice));
    if KeyOf(c) != KeyOf(other) {
      OtherKeysKept(s, cfg, c, choice, KeyOf(other));
    } else {
      OwnKeyKept(s, cfg, c, choice);
      NotCurrentNeverCommits(s, cfg, c, choice, other);
    }
  }

  /** Committing takes an open fence, and two calls of one key are never both current. */
  lemma NotCurrentNeverCommits(s: State, cfg: Config, c: CallId, choice: Choice, other: CallId)
    requires Inv(s, cfg) && Fits(s, cfg, c, choice) && KeyOf(c) == KeyOf(other) && other != c && Current(s, cfg, other)
    requires !Committed(s, c)
    ensures !Committed(Apply(s, cfg, Advance(c, choice)), c)
  {
    if Open(s, c) {
      OpenMeansCurrent(s, cfg, c);
      CurrentIsUnique(s, cfg, c, other);
    }
    assert Shape(s, cfg, c, s.calls[c].pc);
  }

  lemma OthersStayReady(s: State, cfg: Config, c: CallId, choice: Choice, other: CallId)
    requires Inv(s, cfg) && Fits(s, cfg, c, choice)
    requires other in s.calls && other != c && Current(s, cfg, other)
    ensures Ready(Apply(s, cfg, Advance(c, choice)), cfg, other, Core(s.calls[other].pc))
  {
    var key := KeyOf(other);
    if Open(s, c) && KeyOf(c) == key {
      OpenMeansCurrent(s, cfg, c);
      CurrentIsUnique(s, cfg, c, other);
    }
    if key in s.rows { ForeignWritesAreHarmless(s, cfg, c, choice, key); }
    if Free(s, key) { FreeForOthers(s, cfg, c, choice, other); }
  }

  /** Nothing unrefused exists for a key whose row is neither settled nor marked as sent. */
  lemma UnblockedIsFree(s: State, cfg: Config, key: IntentKey)
    requires Inv(s, cfg) && !Blocked(s, cfg, key)
    ensures Free(s, key)
  {
  }

  /** Answering the in-flight query with nothing leaves the own row settled or unblocked. */
  lemma NothingInFlight(s: State, cfg: Config, c: CallId)
    requires Inv(s, cfg) && c in s.calls && s.calls[c].pc.Query? && Current(s, cfg, c)
    requires FirstInFlight(s.rows, cfg.items, s.leases, s.now, KeyOf(c), None)
    ensures SafeToSend(s, KeyOf(c))
  {
    var key := KeyOf(c);
    assert Ready(s, cfg, c, Core(s.calls[c].pc));
    if !Settled(s.rows[key]) {
      assert !BlocksCaller(s.rows, cfg.items, s.leases, s.now, key, key);
      UnblockedIsFree(s, cfg, key);
    }
  }

  /** Recovery leads only to settling, throwing or a finished call, and needs nothing more. */
  lemma AfterEvidenceIsPlain(s: State, cfg: Config, c: CallId, call: Call, target: IntentKey, mode: Mode, e: Evidence, extra: Detail)
    ensures var pc := AfterEvidence(cfg, call, target, mode, e, extra);
            Shape(s, cfg, c, pc) && Ready(s, cfg, c, Core(pc))
  {
  }

  lemma DecideShape(s: State, cfg: Config, c: CallId, seen: Intent)
    ensures Shape(s, cfg, c, Decide(cfg, KeyOf(c), seen))
    ensures Core(Decide(cfg, KeyOf(c), seen)).Query? ==> !Settled(seen) && Result !in seen.detail
    ensures !Core(Decide(cfg, KeyOf(c), seen)).Query? ==> Ready(s, cfg, c, Core(Decide(cfg, KeyOf(c), seen)))
  {
  }

  lemma ShapeAfterOracle(s: State, cfg: Config, c: CallId, choice: Choice)
    requires Fits(s, cfg, c, choice) && Shape(s, cfg, c, s.calls[c].pc) && !choice.Go?
    ensures var s' := Apply(s, cfg, Advance(c, choice)); Shape(s', cfg, c, s'.calls[c].pc)
  {
    var call := s.calls[c];
    if choice.Observed? {
      AfterEvidenceIsPlain(Apply(s, cfg, Advance(c, choice)), cfg, c, call, call.pc.target, call.pc.mode, choice.evidence, choice.extra);
    }
  }

  lemma ShapeAfterPersist(s: State, cfg: Config, c: CallId, choice: Choice)
    requires Fits(s, cfg, c, choice) && choice.Go? && s.calls[c].pc.Persist?
    ensures var s' := Apply(s, cfg, Advance(c, choice)); Shape(s', cfg, c, s'.calls[c].pc)
  {
    var s' := Apply(s, cfg, Advance(c, choice));
    if Open(s, c) { DecideShape(s', cfg, c, s'.rows[KeyOf(c)]); }
  }

  lemma ShapeAfterStatement(s: State, cfg: Config, c: CallId, choice: Choice)
    requires Fits(s, cfg, c, choice) && Shape(s, cfg, c, s.calls[c].pc) && choice.Go? && !s.calls[c].pc.Persist?
    ensures var s' := Apply(s, cfg, Advance(c, choice)); Shape(s', cfg, c, s'.calls[c].pc)
  {
  }

  lemma NextShape(s: State, cfg: Config, c: CallId, choice: Choice)
    requires Fits(s, cfg, c, choice) && Shape(s, cfg, c, s.calls[c].pc)
    ensures var s' := Apply(s, cfg, Advance(c, choice)); Shape(s', cfg, c, s'.calls[c].pc)
  {
    if !choice.Go? { ShapeAfterOracle(s, cfg, c, choice); }
    else if s.calls[c].pc.Persist? { ShapeAfterPersist(s, cfg, c, choice); }
    else { ShapeAfterStatement(s, cfg, c, choice); }
  }

  lemma OthersKeepShape(s: State, cfg: Config, c: CallId, choice: Choice, other: CallId, pc: Pc)
    requires Fits(s, cfg, c, choice) && Shape(s, cfg, c, s.calls[c].pc)
    requires other != c && Shape(s, cfg, other, pc)
    ensures Shape(Apply(s, cfg, Advance(c, choice)), cfg, other, pc)
  {
  }

  /** Recovery leads to settling or throwing, which rely on nothing. */
  lemma AfterObserved(s: State, cfg: Config, c: CallId, choice: Choice)
    requires Fits(s, cfg, c, choice) && choice.Observed?
    ensures var s' := Apply(s, cfg, Advance(c, choice)); Ready(s', cfg, c, Core(s'.calls[c].pc))
  {
    var s' := Apply(s, cfg, Advance(c, choice));
    AfterEvidenceIsPlain(s', cfg, c, s.calls[c], s.calls[c].pc.target, s.calls[c].pc.mode, choice.evidence, choice.extra);
  }

  /** Past the query, the call may rely on what its answer excluded. */
  lemma AfterQuery(s: State, cfg: Config, c: CallId, choice: Choice)
    requires Inv(s, cfg) && Legal(s, cfg, Advance(c, choice)) && choice.Fetched?
    requires Current(s, cfg, c)
    ensures var s' := Apply(s, cfg, Advance(c, choice)); Ready(s', cfg, c, Core(s'.calls[c].pc))
  {
    if choice.target.None? {
      NothingInFlight(s, cfg, c);
      OwnKeyKept(s, cfg, c, choice);
    }
  }

  /** An answer settles the row, and settles it as failed only when it refused the send. */
  lemma AfterAnswer(s: State, cfg: Config, c: CallId, choice: Choice)
    requires Inv(s, cfg) && Fits(s, cfg, c, choice) && choice.Answered?
    requires Current(s, cfg, c)
    ensures var s' := Apply(s, cfg, Advance(c, choice)); Ready(s', cfg, c, Core(s'.calls[c].pc))
  {
    if choice.answer.NoAcceptance? {
      assert Shape(s, cfg, c, s.calls[c].pc) && Blocked(s, cfg, s.log[s.calls[c].pc.index].key);
      OnceRefusedIsFree(s, cfg, c, choice);
    }
  }

  lemma AfterGivingUp(s: State, cfg: Config, c: CallId, choice: Choice)
    requires Inv(s, cfg) && Fits(s, cfg, c, choice) && choice.GiveUp?
    requires Current(s, cfg, c)
    ensures var s' := Apply(s, cfg, Advance(c, choice)); Ready(s', cfg, c, Core(s'.calls[c].pc))
  {
    assert Ready(s, cfg, c, Core(s.calls[c].pc));
    if Committed(s, c) { OnceRefusedIsFree(s, cfg, c, choice); } else { OwnKeyKept(s, cfg, c, choice); }
  }

  /** A current call finds at its next program counter what that one relies on: oracles and answers. */
  lemma NextReadyAfterOracle(s: State, cfg: Config, c: CallId, choice: Choice)
    requires Inv(s, cfg) && Legal(s, cfg, Advance(c, choice)) && !choice.Go?
    requires Current(s, cfg, c)
    ensures var s' := Apply(s, cfg, Advance(c, choice)); Ready(s', cfg, c, Core(s'.calls[c].pc))
  {
    match choice
    case Observed(_, _) => AfterObserved(s, cfg, c, choice);
    case Fetched(_) => AfterQuery(s, cfg, c, choice);
    case Answered(_, _) => AfterAnswer(s, cfg, c, choice);
    case GiveUp(_, _, _) => AfterGivingUp(s, cfg, c, choice);
  }

  /** A parent row found failed, or armed but never entered, carries no send. */
  lemma AfterParent(s: State, cfg: Config, c: CallId, choice: Choice)
    requires Inv(s, cfg) && Fits(s, cfg, c, choice) && ArmedMark(s, Advance(c, choice)) && choice.Go?
    requires Current(s, cfg, c) && s.calls[c].pc.Parent?
    ensures var s' := Apply(s, cfg, Advance(c, choice)); Ready(s', cfg, c, Core(s'.calls[c].pc))
  {
    var s' := Apply(s, cfg, Advance(c, choice));
    var key := KeyOf(c);
    assert Ready(s, cfg, c, Core(s.calls[c].pc));
    OwnKeyKept(s, cfg, c, choice);
    if Open(s, c) && Core(s'.calls[c].pc) != Persist { UnblockedIsFree(s, cfg, key); }
  }

  /** The persisted row is what the local decision saw. */
  lemma AfterPersist(s: State, cfg: Config, c: CallId, choice: Choice)
    requires Inv(s, cfg) && Fits(s, cfg, c, choice) && ArmedMark(s, Advance(c, choice)) && choice.Go?
    requires Current(s, cfg, c) && s.calls[c].pc.Persist?
    ensures var s' := Apply(s, cfg, Advance(c, choice)); Ready(s', cfg, c, Core(s'.calls[c].pc))
  {
    var s' := Apply(s, cfg, Advance(c, choice));
    var key := KeyOf(c);
    assert Ready(s, cfg, c, Core(s.calls[c].pc));
    if Open(s, c) { DecideShape(s', cfg, c, s'.rows[key]); }
  }

  /** Arming and marking write the flags the next step relies on. */
  lemma AfterArmOrMark(s: State, cfg: Config, c: CallId, choice: Choice)
    requires Inv(s, cfg) && Fits(s, cfg, c, choice) && ArmedMark(s, Advance(c, choice)) && choice.Go?
    requires Current(s, cfg, c) && (s.calls[c].pc.Arm? || s.calls[c].pc.Mark?)
    ensures var s' := Apply(s, cfg, Advance(c, choice)); Ready(s', cfg, c, Core(s'.calls[c].pc))
  {
    var s' := Apply(s, cfg, Advance(c, choice));
    var key := KeyOf(c);
    assert Ready(s, cfg, c, Core(s.calls[c].pc));
    OwnKeyKept(s, cfg, c, choice);
  }

  /** Entering the delegate either commits the call or returns the row to failed. */
  lemma AfterEnter(s: State, cfg: Config, c: CallId, choice: Choice)
    requires Inv(s, cfg) && Fits(s, cfg, c, choice) && ArmedMark(s, Advance(c, choice)) && choice.Go?
    requires Current(s, cfg, c) && s.calls[c].pc.Enter?
    ensures var s' := Apply(s, cfg, Advance(c, choice)); Ready(s', cfg, c, Core(s'.calls[c].pc))
  {
    var s' := Apply(s, cfg, Advance(c, choice));
    var key := KeyOf(c);
    assert Ready(s, cfg, c, Core(s.calls[c].pc));
    OwnKeyKept(s, cfg, c, choice);
  }

  /** A fence leads on to its own next program counter or stops the call. */
  lemma AfterFence(s: State, cfg: Config, c: CallId, choice: Choice)
    requires Inv(s, cfg) && Fits(s, cfg, c, choice) && choice.Go?
    requires Current(s, cfg, c) && s.calls[c].pc.Fence?
    ensures var s' := Apply(s, cfg, Advance(c, choice)); Ready(s', cfg, c, Core(s'.calls[c].pc))
  {
    var s' := Apply(s, cfg, Advance(c, choice));
    var pc := s.calls[c].pc;
    assert Ready(s, cfg, c, pc.next) && Shape(s, cfg, c, pc);
    assert s'.rows == s.rows;
    var pc' := s'.calls[c].pc;
    assert Core(pc') == pc.next || pc'.ReleaseUnsent? || pc'.Threw?;
    OwnKeyKept(s, cfg, c, choice);
  }

  /** The remaining steps lead to a program counter that needs nothing new. */
  lemma AfterOtherStatement(s: State, cfg: Config, c: CallId, choice: Choice)
    requires Inv(s, cfg) && Fits(s, cfg, c, choice) && choice.Go?
    requires Current(s, cfg, c) && !s.calls[c].pc.Parent? && !s.calls[c].pc.Persist? && !s.calls[c].pc.Arm? && !s.calls[c].pc.Mark? && !s.calls[c].pc.Enter? && !s.calls[c].pc.Fence?
    ensures var s' := Apply(s, cfg, Advance(c, choice)); Ready(s', cfg, c, Core(s'.calls[c].pc))
  {
    assert Shape(s, cfg, c, s.calls[c].pc);
  }

  /** A current call finds at its next program counter what that one relies on. */
  lemma NextReady(s: State, cfg: Config, c: CallId, choice: Choice)
    requires Inv(s, cfg) && Legal(s, cfg, Advance(c, choice)) && ArmedMark(s, Advance(c, choice))
    requires Current(s, cfg, c)
    ensures var s' := Apply(s, cfg, Advance(c, choice)); Ready(s', cfg, c, Core(s'.calls[c].pc))
  {
    if !choice.Go? { NextReadyAfterOracle(s, cfg, c, choice); }
    else if s.calls[c].pc.Parent? { AfterParent(s, cfg, c, choice); }
    else if s.calls[c].pc.Persist? { AfterPersist(s, cfg, c, choice); }
    else if s.calls[c].pc.Arm? || s.calls[c].pc.Mark? { AfterArmOrMark(s, cfg, c, choice); }
    else if s.calls[c].pc.Enter? { AfterEnter(s, cfg, c, choice); }
    else if s.calls[c].pc.Fence? { AfterFence(s, cfg, c, choice); }
    else { AfterOtherStatement(s, cfg, c, choice); }
  }

  /** A refusal, or giving up before the send, returns the key to the unsent state. */
  lemma OnceRefusedIsFree(s: State, cfg: Config, c: CallId, choice: Choice)
    requires Inv(s, cfg) && Fits(s, cfg, c, choice)
    requires (s.calls[c].pc.Sending? && choice.Answered? && choice.answer.NoAcceptance?) || (Committed(s, c) && choice.GiveUp?)
    ensures Free(Apply(s, cfg, Advance(c, choice)), KeyOf(c))
  {
    var s' := Apply(s, cfg, Advance(c, choice));
    assert forall c' :: c' != c ==> (Committed(s', c') <==> Committed(s, c'));
    if s.calls[c].pc.Sending? {
      var i := s.calls[c].pc.index;
      assert s.log[i].key == KeyOf(c) && !s.log[i].outcome.Rejected?;
    }
  }

  // ----- One sender after a call's step -----

  /** A row that was blocked stays blocked, unless its own current call proved that nothing was sent. */
  lemma StaysBlocked(s: State, cfg: Config, c: CallId, choice: Choice, key: IntentKey)
    requires Inv(s, cfg) && Fits(s, cfg, c, choice)
    requires Blocked(s, cfg, key)
    ensures var s' := Apply(s, cfg, Advance(c, choice)); Blocked(s', cfg, key) || (KeyOf(c) == key && Free(s, key))
  {
    var s' := Apply(s, cfg, Advance(c, choice));
    if KeyOf(c) != key || !Open(s, c) {
      ForeignWritesAreHarmless(s, cfg, c, choice, key);
    } else {
      OpenMeansCurrent(s, cfg, c);
      assert Ready(s, cfg, c, Core(s.calls[c].pc));
    }
  }

  /** The step that commits a call is its marker, or its entry into the delegate, behind an open fence. */
  lemma CommitsByMarking(s: State, cfg: Config, c: CallId, choice: Choice)
    requires Inv(s, cfg) && Fits(s, cfg, c, choice)
    requires !Committed(s, c) && Committed(Apply(s, cfg, Advance(c, choice)), c)
    ensures choice.Go? && Open(s, c) && Mergeable(s.rows, KeyOf(c))
    ensures Ready(s, cfg, c, s.calls[c].pc) && (s.calls[c].pc.Mark? || s.calls[c].pc.Enter?)
    ensures s.calls[c].pc.Mark? ==> !Delegated(cfg, c)
  {
    var call := s.calls[c];
    assert Shape(s, cfg, c, call.pc);
    OpenMeansCurrent(s, cfg, c);
  }

  /** Marking an armed row, or entering the delegate, blocks the row it commits. */
  lemma CommittingBlocks(s: State, cfg: Config, c: CallId, choice: Choice)
    requires Inv(s, cfg) && Legal(s, cfg, Advance(c, choice)) && ArmedMark(s, Advance(c, choice))
    requires !Committed(s, c) && Committed(Apply(s, cfg, Advance(c, choice)), c)
    ensures var s' := Apply(s, cfg, Advance(c, choice));
            Blocked(s', cfg, KeyOf(c)) && Free(s, KeyOf(c)) && NoSend(s'.log, KeyOf(c)) && s'.log == s.log
  {
    CommitsByMarking(s, cfg, c, choice);
  }

  /** Every other committed call keeps its blocked row, and still has nothing unrefused in the log. */
  lemma OthersStayCommitted(s: State, cfg: Config, c: CallId, choice: Choice, other: CallId)
    requires Inv(s, cfg) && Legal(s, cfg, Advance(c, choice)) && ArmedMark(s, Advance(c, choice))
    requires other != c && Committed(s, other)
    ensures var s' := Apply(s, cfg, Advance(c, choice));
            && NoSend(s'.log, KeyOf(other)) && Blocked(s', cfg, KeyOf(other))
            && (Committed(s', c) ==> KeyOf(c) != KeyOf(other))
  {
    var s' := Apply(s, cfg, Advance(c, choice));
    if KeyOf(other) != KeyOf(c) { OtherKeysKept(s, cfg, c, choice, KeyOf(other)); } else { OwnKeyKept(s, cfg, c, choice); }
    StaysBlocked(s, cfg, c, choice, KeyOf(other));
    if !Committed(s, c) && Committed(s', c) { CommittingBlocks(s, cfg, c, choice); }
  }

  lemma SendsStayBlocked(s: State, cfg: Config, c: CallId, choice: Choice, i: nat)
    requires Inv(s, cfg) && Fits(s, cfg, c, choice)
    requires var log := Apply(s, cfg, Advance(c, choice)).log; i < |log| && !log[i].outcome.Rejected?
    ensures var s' := Apply(s, cfg, Advance(c, choice)); Blocked(s', cfg, s'.log[i].key)
  {
    var s' := Apply(s, cfg, Advance(c, choice));
    if i < |s.log| {
      assert s'.log[i].key == s.log[i].key && !s.log[i].outcome.Rejected?;
      StaysBlocked(s, cfg, c, choice, s.log[i].key);
    } else {
      assert Committed(s, c);
      StaysBlocked(s, cfg, c, choice, KeyOf(c));
    }
  }

  lemma AtMostOnceKept(s: State, cfg: Config, c: CallId, choice: Choice)
    requires Inv(s, cfg) && Fits(s, cfg, c, choice)
    ensures AtMostOnce(Apply(s, cfg, Advance(c, choice)).log)
  {
    var s' := Apply(s, cfg, Advance(c, choice));
    forall i, j | 0 <= i < j < |s'.log| && s'.log[i].key == s'.log[j].key
      ensures s'.log[i].outcome.Rejected? || s'.log[j].outcome.Rejected?
    {
      assert s'.log[i].key == s.log[i].key;
      if j < |s.log| { assert s'.log[j].key == s.log[j].key; } else { assert Committed(s, c); }
    }
  }

  lemma OneSenderKept(s: State, cfg: Config, c: CallId, choice: Choice)
    requires Inv(s, cfg) && Legal(s, cfg, Advance(c, choice)) && ArmedMark(s, Advance(c, choice))
    ensures OneSender(Apply(s, cfg, Advance(c, choice)), cfg)
  {
    var s' := Apply(s, cfg, Advance(c, choice));
    AtMostOnceKept(s, cfg, c, choice);
    if Committed(s', c) { CommittingBlocks(s, cfg, c, choice); }
    forall other | other != c && Committed(s', other)
      ensures NoSend(s'.log, KeyOf(other)) && Blocked(s', cfg, KeyOf(other)) && (Committed(s', c) ==> KeyOf(c) != KeyOf(other))
    {
      OthersStayCommitted(s, cfg, c, choice, other);
    }
    forall i | 0 <= i < |s'.log| && !s'.log[i].outcome.Rejected? ensures Blocked(s', cfg, s'.log[i].key) {
      SendsStayBlocked(s, cfg, c, choice, i);
    }
  }

  lemma AdvanceKeepsInv(s: State, cfg: Config, c: CallId, choice: Choice)
    requires Inv(s, cfg) && Legal(s, cfg, Advance(c, choice)) && ArmedMark(s, Advance(c, choice))
    ensures Inv(Apply(s, cfg, Advance(c, choice)), cfg)
  {
    var s' := Apply(s, cfg, Advance(c, choice));
    RegisteredKept(s, cfg, Advance(c, choice));
    OneSenderKept(s, cfg, c, choice);
    forall c' | c' in s'.calls
      ensures Shape(s', cfg, c', s'.calls[c'].pc)
      ensures Current(s', cfg, c') ==> Ready(s', cfg, c', Core(s'.calls[c'].pc))
    {
      if c' == c {
        NextShape(s, cfg, c, choice);
        if Current(s', cfg, c) { NextReady(s, cfg, c, choice); }
      } else {
        OthersKeepShape(s, cfg, c, choice, c', s.calls[c'].pc);
        if Current(s', cfg, c') { OthersStayReady(s, cfg, c, choice, c'); }
      }
    }
  }

  // ----- The main results -----

  /** One step keeps the invariant, as long as a send marker is only ever set on an armed row. */
  lemma StepKeepsInv(s: State, cfg: Config, step: Step)
    requires Inv(s, cfg) && Legal(s, cfg, step) && ArmedMark(s, step)
    ensures Inv(Apply(s, cfg, step), cfg)
  {
    if step.Advance? { AdvanceKeepsInv(s, cfg, step.c, step.choice); } else { EnvironmentKeepsInv(s, cfg, step); }
  }

  lemma {:induction false} RunKeepsInv(s: State, cfg: Config, steps: seq<Step>)
    requires Inv(s, cfg) && IsRun(s, cfg, steps) && ArmedRun(s, cfg, steps)
    ensures Inv(End(s, cfg, steps), cfg)
    decreases |steps|
  {
    if steps != [] {
      StepKeepsInv(s, cfg, steps[0]);
      RunKeepsInv(Apply(s, cfg, steps[0]), cfg, steps[1..]);
    }
  }

  /**
    At-most-once publication. Whatever leases are granted, lapse, are renewed, released or superseded,
    wherever calls vanish and whatever the remote answers, a key never has two mutate() calls that are
    not proven refused, in every run whose send markers find their row armed.
   */
  lemma AtMostOncePublication(cfg: Config, steps: seq<Step>)
    requires IsRun(Init(), cfg, steps) && ArmedRun(Init(), cfg, steps)
    ensures AtMostOnce(End(Init(), cfg, steps).log)
  {
    RunKeepsInv(Init(), cfg, steps);
  }
}

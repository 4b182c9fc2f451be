/**
  What becomes of an answer: which value a publication leaves in its row, what the call returns, and what
  every later call for the key makes of it.
 */
module PublishResults {
  import opened Wrappers
  import opened Leases
  import opened Intents
  import opened Publish
  import opened PublishSafety
  import opened PublishReplay

  /** undefined is kept as JSON null. */
  function AsJson(v: Option<Json>): Json {
    match v
    case None => JNull
    case Some(j) => j
  }

  /** The call goes on to write this settlement and to end at `last`; if its fence closes first, it throws. */
  predicate BoundTo(pc: Pc, target: IntentKey, status: Status, patch: Detail, last: Pc) {
    Core(pc) == Settle(target, status, patch, last) || Core(pc) == last || pc == Threw
  }

  /** The call carries the answer v to its own row. */
  predicate Carries(c: CallId, v: Option<Json>, pc: Pc) {
    match Core(pc)
    case Stash(patch, value) => value == v && Result in patch && patch[Result] == AsJson(v)
    case Settle(target, status, patch, next) =>
      target == KeyOf(c) && status == Reconciled && Result in patch && patch[Result] == AsJson(v) && next == Sent(v)
    case Sent(value) => value == v
    case Threw => true
    case _ => false
  }

  /** The same call is at work all along. */
  predicate SameCall(steps: seq<Step>, c: CallId) {
    forall i :: 0 <= i < |steps| ==> steps[i] != Vanish(c) && !(steps[i].Begin? && steps[i].c == c)
  }

  lemma EvidenceSettlesOrThrows(cfg: Config, call: Call, target: IntentKey, mode: Mode, e: Evidence, extra: Detail)
    ensures var pc := AfterEvidence(cfg, call, target, mode, e, extra);
            pc == Threw || (Core(pc).Settle? && (Core(pc).next == Threw || Core(pc).next.Done?))
  {
  }

  // ----- The row of a call that has set its marker does not fail behind its back -----

  predicate Marked(c: CallId, pc: Pc) {
    match pc
    case Enter => true
    case Mutate => true
    case Sending(_) => true
    case Stash(_, _) => true
    case Settle(target, status, _, next) => target == KeyOf(c) && status == Reconciled && next.Sent?
    case _ => false
  }

  predicate Unfailed(s: State, key: IntentKey) { key in s.rows && s.rows[key].status != Failed }

  ghost predicate AliveInv(s: State, cfg: Config) {
    forall c :: c in s.calls && Current(s, cfg, c) && Marked(c, Core(s.calls[c].pc)) ==> Unfailed(s, KeyOf(c))
  }

  /** Only a key's own current call can fail its row. */
  lemma OthersFailNothing(s: State, cfg: Config, step: Step, c: CallId)
    requires ResultInv(s, cfg) && Legal(s, cfg, step) && Current(s, cfg, c) && !(step.Advance? && step.c == c)
    requires Unfailed(s, KeyOf(c))
    ensures Unfailed(Apply(s, cfg, step), KeyOf(c))
  {
    if step.Advance? {
      assert Aimed(cfg, step.c, s.calls[step.c].pc);
      if Open(s, step.c) {
        OpenMeansCurrent(s, cfg, step.c);
        if KeyOf(step.c) == KeyOf(c) { CurrentIsUnique(s, cfg, step.c, c); }
      }
    } else {
      EnvironmentOnlySettles(s, cfg, step, KeyOf(c));
    }
  }

  lemma OwnStatementKeepsAlive(s: State, cfg: Config, c: CallId, choice: Choice)
    requires ResultInv(s, cfg) && AliveInv(s, cfg) && Legal(s, cfg, Advance(c, choice)) && Current(s, cfg, c) && choice.Go?
    ensures Marked(c, Core(PcAfter(s, cfg, c, choice))) ==> Unfailed(Apply(s, cfg, Advance(c, choice)), KeyOf(c))
  {
    var pc := s.calls[c].pc;
    assert Aimed(cfg, c, pc);
    if pc.Persist? && Open(s, c) { DecideIsUnmarked(s, cfg, c, RowsAfter(s, c, choice)[KeyOf(c)]); }
    if pc.Fence? && Marked(c, pc.next) { assert Unfailed(s, KeyOf(c)); }
  }

  lemma DecideIsUnmarked(s: State, cfg: Config, c: CallId, seen: Intent)
    ensures !Marked(c, Core(Decide(cfg, KeyOf(c), seen)))
  {
  }

  lemma OracleKeepsAlive(s: State, cfg: Config, c: CallId, choice: Choice)
    requires AliveInv(s, cfg) && Legal(s, cfg, Advance(c, choice)) && Current(s, cfg, c) && !choice.Go?
    ensures Marked(c, Core(PcAfter(s, cfg, c, choice))) ==> Unfailed(Apply(s, cfg, Advance(c, choice)), KeyOf(c))
  {
    if choice.Observed? { EvidenceSettlesOrThrows(cfg, s.calls[c], s.calls[c].pc.target, s.calls[c].pc.mode, choice.evidence, choice.extra); }
  }

  lemma AliveKept(s: State, cfg: Config, step: Step)
    requires ResultInv(s, cfg) && AliveInv(s, cfg) && Legal(s, cfg, step)
    ensures AliveInv(Apply(s, cfg, step), cfg)
  {
    var s' := Apply(s, cfg, step);
    RegisteredKept(s, cfg, step);
    forall c | c in s'.calls && Current(s', cfg, c) && Marked(c, Core(s'.calls[c].pc)) ensures Unfailed(s', KeyOf(c)) {
      if step.Advance? && step.c == c {
        if step.choice.Go? { OwnStatementKeepsAlive(s, cfg, c, step.choice); } else { OracleKeepsAlive(s, cfg, c, step.choice); }
      } else {
        OthersFailNothing(s, cfg, step, c);
      }
    }
  }

  lemma {:induction false} RunKeepsAlive(s: State, cfg: Config, steps: seq<Step>)
    requires ResultInv(s, cfg) && AliveInv(s, cfg) && IsRun(s, cfg, steps)
    ensures ResultInv(End(s, cfg, steps), cfg) && AliveInv(End(s, cfg, steps), cfg)
    decreases |steps|
  {
    if steps != [] {
      ResultInvKept(s, cfg, steps[0]);
      AliveKept(s, cfg, steps[0]);
      RunKeepsAlive(Apply(s, cfg, steps[0]), cfg, steps[1..]);
    }
  }

  // ----- The way of an answer -----

  lemma CarriesOn(s: State, cfg: Config, step: Step, c: CallId, v: Option<Json>)
    requires Enabled(s, cfg, step) && c in s.calls && Carries(c, v, s.calls[c].pc)
    requires step != Vanish(c) && !(step.Begin? && step.c == c)
    ensures var s' := Apply(s, cfg, step); c in s'.calls && Carries(c, v, s'.calls[c].pc)
  {
  }

  lemma {:induction false} CarriesToTheEnd(s: State, cfg: Config, steps: seq<Step>, c: CallId, v: Option<Json>)
    requires IsRun(s, cfg, steps) && SameCall(steps, c) && c in s.calls && Carries(c, v, s.calls[c].pc)
    ensures var end := End(s, cfg, steps); c in end.calls && Carries(c, v, end.calls[c].pc)
    decreases |steps|
  {
    if steps != [] {
      CarriesOn(s, cfg, steps[0], c, v);
      CarriesToTheEnd(Apply(s, cfg, steps[0]), cfg, steps[1..], c, v);
    }
  }

  /** The stash of an answer, written into a row that is still pending. */
  predicate Stashes(s: State, c: CallId) {
    c in s.calls && s.calls[c].pc.Stash? && Open(s, c) && KeyOf(c) in s.rows && s.rows[KeyOf(c)].status == Pending
  }

  predicate Settles(s: State, c: CallId) { c in s.calls && s.calls[c].pc.Settle? && Open(s, c) }

  /** Written under an open fence, the stash holds the answer, and the settlement holds it and is final. */
  lemma WrittenAnswer(s: State, cfg: Config, c: CallId, v: Option<Json>, extra: Detail)
    requires ResultInv(s, cfg) && AliveInv(s, cfg) && c in s.calls && Carries(c, v, s.calls[c].pc) && Unreserved(extra)
    ensures Stashes(s, c) ==> Holds(Apply(s, cfg, Advance(c, Go(extra))), KeyOf(c), AsJson(v))
    ensures Settles(s, c) ==>
              var s' := Apply(s, cfg, Advance(c, Go(extra)));
              Holds(s', KeyOf(c), AsJson(v)) && s'.rows[KeyOf(c)].status == Reconciled && s'.calls[c].pc == Sent(v)
  {
    if Open(s, c) { OpenMeansCurrent(s, cfg, c); }
  }

  lemma AnswerIsCarried(cfg: Config, before: seq<Step>, c: CallId, v: Option<Json>, extra: Detail, mid: seq<Step>)
    requires IsRun(Init(), cfg, before) && cfg.decode(v).Some?
    requires Legal(End(Init(), cfg, before), cfg, Advance(c, Answered(Ok(v), extra)))
    requires IsRun(Apply(End(Init(), cfg, before), cfg, Advance(c, Answered(Ok(v), extra))), cfg, mid) && SameCall(mid, c)
    ensures var t := End(Apply(End(Init(), cfg, before), cfg, Advance(c, Answered(Ok(v), extra))), cfg, mid);
            ResultInv(t, cfg) && AliveInv(t, cfg) && c in t.calls && Carries(c, v, t.calls[c].pc)
  {
    var answered := Advance(c, Answered(Ok(v), extra));
    var s := End(Init(), cfg, before);
    RunKeepsAlive(Init(), cfg, before);
    ResultInvKept(s, cfg, answered);
    AliveKept(s, cfg, answered);
    var s' := Apply(s, cfg, answered);
    CarriesToTheEnd(s', cfg, mid, c, v);
    RunKeepsAlive(s', cfg, mid);
  }

  /**
    The answer is stored. From the moment mutate() answered v, the call carries v on, whatever else happens;
    when its stash is written the row holds v, undefined as null; when its settlement is written the row is
    reconciled with v and the call returns v. It can end in no other way but by an exception.
   */
  lemma AnswerIsStored(cfg: Config, before: seq<Step>, c: CallId, v: Option<Json>, extra: Detail, mid: seq<Step>, written: Detail)
    requires IsRun(Init(), cfg, before) && cfg.decode(v).Some? && Unreserved(written)
    requires Legal(End(Init(), cfg, before), cfg, Advance(c, Answered(Ok(v), extra)))
    requires var s := Apply(End(Init(), cfg, before), cfg, Advance(c, Answered(Ok(v), extra)));
             IsRun(s, cfg, mid) && SameCall(mid, c)
    ensures var t := End(Apply(End(Init(), cfg, before), cfg, Advance(c, Answered(Ok(v), extra))), cfg, mid);
            var json := (match v case None => JNull case Some(j) => j);
            && c in t.calls
            && (Finished(t.calls[c].pc) ==> t.calls[c].pc == Sent(v) || t.calls[c].pc == Threw)
            && (Stashes(t, c) ==> Holds(Apply(t, cfg, Advance(c, Go(written))), KeyOf(c), json))
            && (Settles(t, c) ==>
                  var t' := Apply(t, cfg, Advance(c, Go(written)));
                  Holds(t', KeyOf(c), json) && t'.rows[KeyOf(c)].status == Reconciled && t'.calls[c].pc == Sent(v))
  {
    AnswerIsCarried(cfg, before, c, v, extra, mid);
    WrittenAnswer(End(Apply(End(Init(), cfg, before), cfg, Advance(c, Answered(Ok(v), extra))), cfg, mid), cfg, c, v, written);
  }

  /** The state in which the carried answer is written, and the one after. */
  ghost predicate WrittenAfter(cfg: Config, before: seq<Step>, c: CallId, v: Option<Json>, extra: Detail, mid: seq<Step>, written: Detail, t': State)
  {
    && IsRun(Init(), cfg, before) && SequentialRun(Init(), cfg, before) && Unreserved(written)
    && var s := End(Init(), cfg, before);
    && var answered := Advance(c, Answered(Ok(v), extra));
    && Legal(s, cfg, answered) && cfg.decode(v).Some?
    && var s' := Apply(s, cfg, answered);
    && IsRun(s', cfg, mid) && SequentialRun(s', cfg, mid) && SameCall(mid, c)
    && var t := End(s', cfg, mid);
    && (Stashes(t, c) || Settles(t, c)) && t' == Apply(t, cfg, Advance(c, Go(written)))
  }

  lemma WrittenAnswerHolds(cfg: Config, before: seq<Step>, c: CallId, v: Option<Json>, extra: Detail, mid: seq<Step>, written: Detail, t': State)
    requires WrittenAfter(cfg, before, c, v, extra, mid, written, t')
    ensures ResultInv(t', cfg) && SequentialInv(t', cfg) && Holds(t', KeyOf(c), AsJson(v))
  {
    var s, answered := End(Init(), cfg, before), Advance(c, Answered(Ok(v), extra));
    var s' := Apply(s, cfg, answered);
    var t, write := End(s', cfg, mid), Advance(c, Go(written));
    AnswerIsStored(cfg, before, c, v, extra, mid, written);
    SequentialRunsAreClean(Init(), cfg, before);
    SequentialStep(s, cfg, answered);
    SequentialRunsAreClean(s', cfg, mid);
    SequentialStep(t, cfg, write);
  }

  /**
    What mutate() answered is what every later call returns. Once the answer v was written, by the stash
    even if the process stopped right after it, no call that begins later for the key sends again, and if it
    returns, it returns the decoding of v; only a JSON null is read back as undefined.
   */
  lemma AnswerReplays(cfg: Config, before: seq<Step>, c: CallId, v: Option<Json>, extra: Detail, mid: seq<Step>, written: Detail, t': State,
                      after: seq<Step>, later: CallId)
    requires WrittenAfter(cfg, before, c, v, extra, mid, written, t')
    requires IsRun(t', cfg, after) && SequentialRun(t', cfg, after) && KeyOf(later) == KeyOf(c) && later !in t'.calls
    ensures var end := End(t', cfg, after);
            later in end.calls ==>
              var pc := end.calls[later].pc;
              && !pc.Mutate? && !pc.Sending? && !pc.Sent?
              && (pc.Done? ==> cfg.decode(if v == Some(JNull) then None else v) == Some(pc.value))
  {
    WrittenAnswerHolds(cfg, before, c, v, extra, mid, written, t');
    SequentialRunsAreClean(t', cfg, after);
    LaterCallsReplay(t', cfg, after, later, AsJson(v));
  }

  // ----- Settlements that a call is bound to write -----

  lemma BoundOn(s: State, cfg: Config, step: Step, c: CallId, target: IntentKey, status: Status, patch: Detail, last: Pc)
    requires Enabled(s, cfg, step) && c in s.calls && Finished(last) && BoundTo(s.calls[c].pc, target, status, patch, last)
    requires step != Vanish(c) && !(step.Begin? && step.c == c)
    ensures var s' := Apply(s, cfg, step); c in s'.calls && BoundTo(s'.calls[c].pc, target, status, patch, last)
  {
  }

  lemma {:induction false} BoundToTheEnd(s: State, cfg: Config, steps: seq<Step>, c: CallId, target: IntentKey, status: Status, patch: Detail, last: Pc)
    requires IsRun(s, cfg, steps) && SameCall(steps, c) && Finished(last)
    requires c in s.calls && BoundTo(s.calls[c].pc, target, status, patch, last)
    ensures var end := End(s, cfg, steps); c in end.calls && BoundTo(end.calls[c].pc, target, status, patch, last)
    decreases |steps|
  {
    if steps != [] {
      BoundOn(s, cfg, steps[0], c, target, status, patch, last);
      BoundToTheEnd(Apply(s, cfg, steps[0]), cfg, steps[1..], c, target, status, patch, last);
    }
  }

  /** The call's settlement of `target` is written under an open fence, where the row may still take it. */
  predicate SettlesAs(s: State, c: CallId, target: IntentKey, status: Status) {
    Settles(s, c) && target in s.rows && MayBecome(s.rows[target].status, status)
  }

  /** What the call's next write leaves in this row. */
  function RowWritten(s: State, cfg: Config, c: CallId, target: IntentKey): Intent
    requires c in s.calls && s.calls[c].pc.Settle? && target in s.rows
  {
    RowsAfter(s, c, Go(map[]))[target]
  }

  /** What the call ends at, and what its settlement makes of the row: settled with this result. */
  predicate EndsWithResult(t: State, cfg: Config, c: CallId, target: IntentKey, json: Json, returned: Option<Json>) {
    && c in t.calls
    && (Finished(t.calls[c].pc) ==> t.calls[c].pc == Done(returned) || t.calls[c].pc == Threw)
    && (SettlesAs(t, c, target, Reconciled) ==>
          var row := RowWritten(t, cfg, c, target);
          && row.status == Reconciled && Result in row.detail && row.detail[Result] == json
          && PcAfter(t, cfg, c, Go(map[])) == Done(returned))
  }

  /** The same for an exception: the row is no longer in flight, and terminal or not. */
  predicate EndsThrown(t: State, cfg: Config, c: CallId, target: IntentKey, status: Status, terminal: bool) {
    && c in t.calls
    && (Finished(t.calls[c].pc) ==> t.calls[c].pc == Threw)
    && (SettlesAs(t, c, target, status) ==>
          var row := RowWritten(t, cfg, c, target);
          && row.status == status && IsFalse(row.detail, Mutating)
          && (Terminal(row.detail) <==> terminal || Terminal(t.rows[target].detail))
          && (Result in row.detail <==> Result in t.rows[target].detail)
          && PcAfter(t, cfg, c, Go(map[])) == Threw)
  }

  lemma {:induction false} StaysFinished(s: State, cfg: Config, steps: seq<Step>, c: CallId, pc: Pc)
    requires IsRun(s, cfg, steps) && SameCall(steps, c) && c in s.calls && s.calls[c].pc == pc && Finished(pc)
    ensures var end := End(s, cfg, steps); c in end.calls && end.calls[c].pc == pc
    decreases |steps|
  {
    if steps != [] { StaysFinished(Apply(s, cfg, steps[0]), cfg, steps[1..], c, pc); }
  }

  lemma BoundWithResult(t: State, cfg: Config, c: CallId, target: IntentKey, patch: Detail, json: Json, returned: Option<Json>)
    requires c in t.calls && BoundTo(t.calls[c].pc, target, Reconciled, patch, Done(returned))
    requires Result in patch && patch[Result] == json
    ensures EndsWithResult(t, cfg, c, target, json, returned)
  {
  }

  lemma BoundThrown(t: State, cfg: Config, c: CallId, target: IntentKey, status: Status, patch: Detail, terminal: bool)
    requires c in t.calls && BoundTo(t.calls[c].pc, target, status, patch, Threw)
    requires IsFalse(patch, Mutating) && Result !in patch && (UnknownResolution in patch <==> terminal) && (terminal ==> Terminal(patch))
    ensures EndsThrown(t, cfg, c, target, status, terminal)
  {
  }

  lemma EndsAfterResult(s: State, cfg: Config, steps: seq<Step>, c: CallId, target: IntentKey, patch: Detail, json: Json, returned: Option<Json>)
    requires IsRun(s, cfg, steps) && SameCall(steps, c) && c in s.calls
    requires s.calls[c].pc == Fence(2, Settle(target, Reconciled, patch, Done(returned))) && Result in patch && patch[Result] == json
    ensures EndsWithResult(End(s, cfg, steps), cfg, c, target, json, returned)
  {
    BoundToTheEnd(s, cfg, steps, c, target, Reconciled, patch, Done(returned));
    BoundWithResult(End(s, cfg, steps), cfg, c, target, patch, json, returned);
  }

  lemma EndsAfterThrow(s: State, cfg: Config, steps: seq<Step>, c: CallId, target: IntentKey, status: Status, patch: Detail, terminal: bool)
    requires IsRun(s, cfg, steps) && SameCall(steps, c) && c in s.calls
    requires s.calls[c].pc.Fence? && s.calls[c].pc.next == Settle(target, status, patch, Threw)
    requires IsFalse(patch, Mutating) && Result !in patch && (UnknownResolution in patch <==> terminal) && (terminal ==> Terminal(patch))
    ensures EndsThrown(End(s, cfg, steps), cfg, c, target, status, terminal)
  {
    BoundToTheEnd(s, cfg, steps, c, target, status, patch, Threw);
    BoundThrown(End(s, cfg, steps), cfg, c, target, status, patch, terminal);
  }

  /** A call that recovers an intent, after its oracle answered and any number of steps later. */
  ghost predicate Recovering(s: State, cfg: Config, c: CallId, e: Evidence, extra: Detail, steps: seq<Step>) {
    && Fits(s, cfg, c, Observed(e, extra)) && s.calls[c].pc.Recover? && SameCall(steps, c)
    && IsRun(Apply(s, cfg, Advance(c, Observed(e, extra))), cfg, steps)
  }

  /** Past its fence checks, the call's next statement settles the intent it recovers. */
  predicate SettlesNext(s: State, cfg: Config, c: CallId, e: Evidence, extra: Detail)
    requires Fits(s, cfg, c, Observed(e, extra))
  {
    var next := Core(Apply(s, cfg, Advance(c, Observed(e, extra))).calls[c].pc);
    next.Settle? && next.target == s.calls[c].pc.target
  }

  ghost function Recovered(s: State, cfg: Config, c: CallId, e: Evidence, extra: Detail, steps: seq<Step>): State
    requires Recovering(s, cfg, c, e, extra, steps)
  {
    End(Apply(s, cfg, Advance(c, Observed(e, extra))), cfg, steps)
  }

  /** A value that was found is stored, for the recovered intent whoever's it is, and its decoding is returned. */
  lemma FoundIsStored(s: State, cfg: Config, c: CallId, v: Option<Json>, extra: Detail, steps: seq<Step>)
    requires Recovering(s, cfg, c, Found(v), extra, steps) && cfg.decode(v).Some?
    ensures EndsWithResult(Recovered(s, cfg, c, Found(v), extra, steps), cfg, c, s.calls[c].pc.target,
                           match v case None => JNull case Some(j) => j, cfg.decode(v).value)
    ensures SettlesNext(s, cfg, c, Found(v), extra)
  {
    var target, d := s.calls[c].pc.target, cfg.decode(v).value;
    EndsAfterResult(Apply(s, cfg, Advance(c, Observed(Found(v), extra))), cfg, steps, c, target, extra[Result := AsJson(v)], AsJson(v), d);
  }

  /**
    Nothing was found. A publish record of a void call counts as success, and so does the reconciled status
    of one; without it an intent in flight becomes terminally unknown.
   */
  lemma NothingFoundIsTerminal(s: State, cfg: Config, c: CallId, record: bool, extra: Detail, steps: seq<Step>)
    requires Recovering(s, cfg, c, Absent(record), extra, steps)
    ensures var t, pc, voidOk := Recovered(s, cfg, c, Absent(record), extra, steps), s.calls[c].pc, s.calls[c].voidOk;
            match pc.mode
            case OnInFlight =>
              && (voidOk && record && cfg.decode(None).Some? ==> EndsWithResult(t, cfg, c, pc.target, JNull, cfg.decode(None).value))
              && (!(voidOk && record) ==> EndsThrown(t, cfg, c, pc.target, OutcomeUnknown, true))
              && ((voidOk && record ==> cfg.decode(None).Some?) ==> SettlesNext(s, cfg, c, Absent(record), extra))
            case OnReconciled =>
              && (voidOk && cfg.decode(None).Some? ==>
                    EndsWithResult(t, cfg, c, pc.target, JNull, cfg.decode(None).value) && SettlesNext(s, cfg, c, Absent(record), extra))
              && (!voidOk ==> c in t.calls && t.calls[c].pc == Threw)
            case OnDoubt => EndsThrown(t, cfg, c, pc.target, OutcomeUnknown, false) && SettlesNext(s, cfg, c, Absent(record), extra)
  {
    var s', pc, voidOk := Apply(s, cfg, Advance(c, Observed(Absent(record), extra))), s.calls[c].pc, s.calls[c].voidOk;
    if voidOk && (pc.mode == OnReconciled || (pc.mode == OnInFlight && record)) {
      if cfg.decode(None).Some? {
        EndsAfterResult(s', cfg, steps, c, pc.target, extra[Result := JNull], JNull, cfg.decode(None).value);
      }
    } else if pc.mode == OnReconciled {
      StaysFinished(s', cfg, steps, c, Threw);
    } else if pc.mode == OnInFlight {
      EndsAfterThrow(s', cfg, steps, c, pc.target, OutcomeUnknown, extra[Mutating := JBool(false)][UnknownResolution := TERMINAL], true);
    } else {
      EndsAfterThrow(s', cfg, steps, c, pc.target, OutcomeUnknown, extra[Mutating := JBool(false)], false);
    }
  }

  /** The oracle failed. Only with a publish record does that settle anything, and then not terminally. */
  lemma FailedOracleIsNotTerminal(s: State, cfg: Config, c: CallId, record: bool, extra: Detail, steps: seq<Step>)
    requires Recovering(s, cfg, c, RecoverThrows(record), extra, steps)
    ensures var t, pc, voidOk := Recovered(s, cfg, c, RecoverThrows(record), extra, steps), s.calls[c].pc, s.calls[c].voidOk;
            if pc.mode != OnInFlight || !record then c in t.calls && t.calls[c].pc == Threw
            else if voidOk then cfg.decode(None).Some? ==>
              EndsWithResult(t, cfg, c, pc.target, JNull, cfg.decode(None).value) && SettlesNext(s, cfg, c, RecoverThrows(record), extra)
            else EndsThrown(t, cfg, c, pc.target, OutcomeUnknown, false) && SettlesNext(s, cfg, c, RecoverThrows(record), extra)
  {
    var s', pc, voidOk := Apply(s, cfg, Advance(c, Observed(RecoverThrows(record), extra))), s.calls[c].pc, s.calls[c].voidOk;
    if pc.mode != OnInFlight || !record {
      StaysFinished(s', cfg, steps, c, Threw);
    } else if voidOk {
      if cfg.decode(None).Some? {
        EndsAfterResult(s', cfg, steps, c, pc.target, extra[Result := JNull], JNull, cfg.decode(None).value);
      }
    } else {
      EndsAfterThrow(s', cfg, steps, c, pc.target, OutcomeUnknown, extra[Mutating := JBool(false)], false);
    }
  }

  /** A call whose own mutate() was refused, or whose outcome is open and not to be looked for. */
  lemma ErrorIsRecorded(s: State, cfg: Config, c: CallId, answer: Answer, extra: Detail, steps: seq<Step>)
    requires Fits(s, cfg, c, Answered(answer, extra)) && SameCall(steps, c) && IsRun(Apply(s, cfg, Advance(c, Answered(answer, extra))), cfg, steps)
    ensures var t := End(Apply(s, cfg, Advance(c, Answered(answer, extra))), cfg, steps);
            var next := Core(Apply(s, cfg, Advance(c, Answered(answer, extra))).calls[c].pc);
            match answer
            case Ok(v) => cfg.decode(v).None? ==> c in t.calls && t.calls[c].pc == Threw
            case NoAcceptance => next.Settle? && EndsThrown(t, cfg, c, KeyOf(c), Failed, false)
            case Unclear(persistFirst) => !persistFirst ==> next.Settle? && EndsThrown(t, cfg, c, KeyOf(c), OutcomeUnknown, false)
  {
    var s' := Apply(s, cfg, Advance(c, Answered(answer, extra)));
    match answer
    case Ok(v) => if cfg.decode(v).None? { StaysFinished(s', cfg, steps, c, Threw); }
    case NoAcceptance => EndsAfterThrow(s', cfg, steps, c, KeyOf(c), Failed, extra[Mutating := JBool(false)], false);
    case Unclear(persistFirst) =>
      if !persistFirst { EndsAfterThrow(s', cfg, steps, c, KeyOf(c), OutcomeUnknown, extra[Mutating := JBool(false)], false); }
  }

  /** The same for an error before anything was sent. */
  lemma GivingUpIsRecorded(s: State, cfg: Config, c: CallId, known: bool, persistFirst: bool, extra: Detail, steps: seq<Step>)
    requires Fits(s, cfg, c, GiveUp(known, persistFirst, extra)) && SameCall(steps, c)
    requires IsRun(Apply(s, cfg, Advance(c, GiveUp(known, persistFirst, extra))), cfg, steps)
    ensures var s' := Apply(s, cfg, Advance(c, GiveUp(known, persistFirst, extra)));
            if known then Core(s'.calls[c].pc).Settle? && EndsThrown(End(s', cfg, steps), cfg, c, KeyOf(c), Failed, false)
            else if persistFirst then Core(s'.calls[c].pc) == PersistAgain
            else Core(s'.calls[c].pc).Settle? && EndsThrown(End(s', cfg, steps), cfg, c, KeyOf(c), OutcomeUnknown, false)
  {
    var s' := Apply(s, cfg, Advance(c, GiveUp(known, persistFirst, extra)));
    if known || !persistFirst {
      EndsAfterThrow(s', cfg, steps, c, KeyOf(c), if known then Failed else OutcomeUnknown, extra[Mutating := JBool(false)], false);
    }
  }

  /** A delegate that could not be entered was not sent: its parent fails, and may be sent again. */
  lemma RefusedEntryFails(s: State, cfg: Config, c: CallId, extra: Detail, steps: seq<Step>)
    requires Fits(s, cfg, c, Go(extra)) && s.calls[c].pc.Enter? && !(Open(s, c) && Mergeable(s.rows, KeyOf(c))) && SameCall(steps, c)
    requires IsRun(Apply(s, cfg, Advance(c, Go(extra))), cfg, steps)
    ensures Apply(s, cfg, Advance(c, Go(extra))).rows == s.rows
    ensures EndsThrown(End(Apply(s, cfg, Advance(c, Go(extra))), cfg, steps), cfg, c, KeyOf(c), Failed, false)
    ensures Core(Apply(s, cfg, Advance(c, Go(extra))).calls[c].pc).Settle?
  {
    var nothing: Detail := map[];
    EndsAfterThrow(Apply(s, cfg, Advance(c, Go(extra))), cfg, steps, c, KeyOf(c), Failed, nothing[Mutating := JBool(false)], false);
  }

  /** A stash that was not settled is settled as it is by the next call that finds it, which returns its decoding. */
  lemma StashIsSettled(s: State, cfg: Config, c: CallId, extra: Detail, steps: seq<Step>)
    requires Fits(s, cfg, c, Go(extra)) && s.calls[c].pc.Persist? && Open(s, c) && SameCall(steps, c)
    requires KeyOf(c) in s.rows && Result in s.rows[KeyOf(c)].detail && IsRun(Apply(s, cfg, Advance(c, Go(extra))), cfg, steps)
    ensures var row, t := s.rows[KeyOf(c)], End(Apply(s, cfg, Advance(c, Go(extra))), cfg, steps);
            var json := row.detail[Result];
            match cfg.decode(if json == JNull then None else Some(json))
            case None => c in t.calls && (Finished(t.calls[c].pc) ==> t.calls[c].pc == Threw)
            case Some(d) =>
              && EndsWithResult(t, cfg, c, KeyOf(c), json, d)
              && (row.status != Reconciled ==>
                    Core(Apply(s, cfg, Advance(c, Go(extra))).calls[c].pc) == Settle(KeyOf(c), Reconciled, map[Result := json], Done(d)))
  {
    var s', json := Apply(s, cfg, Advance(c, Go(extra))), s.rows[KeyOf(c)].detail[Result];
    match cfg.decode(Unstored(json))
    case None => BoundToTheEnd(s', cfg, steps, c, KeyOf(c), Pending, map[], Threw);
    case Some(d) =>
      var patch: Detail := map[Result := json];
      assert (map[])[Result := json] == patch;
      BoundToTheEnd(s', cfg, steps, c, KeyOf(c), Reconciled, patch, Done(d));
      BoundWithResult(End(s', cfg, steps), cfg, c, KeyOf(c), patch, json, d);
  }

  /** Where the in-flight query sends a call: to recover what it found, or on to arm its own row. */
  lemma QueryDecides(s: State, cfg: Config, c: CallId, found: Option<IntentKey>)
    requires Fits(s, cfg, c, Fetched(found))
    ensures var s' := Apply(s, cfg, Advance(c, Fetched(found)));
            && s'.rows == s.rows
            && match found
               case None => Core(s'.calls[c].pc).Arm?
               case Some(target) => s'.calls[c].pc == Recover(target, OnInFlight)
  {
  }

  /** An open outcome that may be looked for is: the row is persisted again, and the oracle asked. */
  lemma DoubtIsLookedInto(s: State, cfg: Config, c: CallId, extra: Detail)
    requires Fits(s, cfg, c, Answered(Unclear(true), extra))
    ensures Core(PcAfter(s, cfg, c, Answered(Unclear(true), extra))) == PersistAgain
    ensures forall t, more :: Fits(t, cfg, c, Go(more)) && t.calls[c].pc == PersistAgain && Open(t, c) ==>
              PcAfter(t, cfg, c, Go(more)) == Recover(KeyOf(c), OnDoubt)
  {
  }

  /** Where an execution goes on that has persisted its intent and finds this row. */
  lemma FoundRowDecides(s: State, cfg: Config, c: CallId, extra: Detail)
    requires Fits(s, cfg, c, Go(extra)) && s.calls[c].pc.Persist? && Open(s, c) && KeyOf(c) in s.rows
    ensures var row, next := s.rows[KeyOf(c)], Core(PcAfter(s, cfg, c, Go(extra)));
            Result !in row.detail ==>
              match row.status
              case Pending => next == Query
              case Failed => next == Query
              case Reconciled => next == Recover(KeyOf(c), OnReconciled)
              case OutcomeUnknown => next == if Terminal(row.detail) then Threw else Recover(KeyOf(c), OnInFlight)
  {
  }
}

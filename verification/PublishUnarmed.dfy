/**
  The condition of PublishSafety is exact. A send marker set on an unarmed row leaves the key open to a
  second unrefused mutate(), even if every later marker finds its row armed; and such a marker is reached
  from the initial state, for every work item.
 */
module PublishUnarmed {
  import opened Wrappers
  import opened Leases
  import opened Intents
  import opened Publish
  import opened PublishSafety
  import opened PublishReplay

  // ----- Building runs -----

  ghost predicate Via(s: State, cfg: Config, steps: seq<Step>, t: State, armed: bool) {
    IsRun(s, cfg, steps) && End(s, cfg, steps) == t && (armed ==> ArmedRun(s, cfg, steps))
  }

  /** t can be reached from s; with `armed`, by a run whose markers all find their row armed. */
  ghost predicate Leads(s: State, cfg: Config, t: State, armed: bool) {
    exists steps :: Via(s, cfg, steps, t, armed)
  }

  lemma {:induction false} ViaThen(s: State, cfg: Config, steps: seq<Step>, t: State, armed: bool, step: Step)
    requires Via(s, cfg, steps, t, armed) && Legal(t, cfg, step) && (armed ==> ArmedMark(t, step))
    ensures Via(s, cfg, steps + [step], Apply(t, cfg, step), armed)
    decreases |steps|
  {
    var longer := steps + [step];
    if steps == [] {
      assert longer == [step] && longer[1..] == [];
      assert IsRun(Apply(t, cfg, step), cfg, longer[1..]);
    } else {
      assert longer[0] == steps[0] && longer[1..] == steps[1..] + [step];
      ViaThen(Apply(s, cfg, steps[0]), cfg, steps[1..], t, armed, step);
    }
  }

  lemma Here(s: State, cfg: Config, armed: bool)
    ensures Leads(s, cfg, s, armed)
  {
    assert Via(s, cfg, [], s, armed);
  }

  lemma Then(s: State, cfg: Config, t: State, armed: bool, step: Step)
    requires Leads(s, cfg, t, armed) && Legal(t, cfg, step) && (armed ==> ArmedMark(t, step))
    ensures Leads(s, cfg, Apply(t, cfg, step), armed)
  {
    var steps :| Via(s, cfg, steps, t, armed);
    ViaThen(s, cfg, steps, t, armed, step);
  }

  lemma {:induction false} ViaBoth(s: State, cfg: Config, first: seq<Step>, t: State, second: seq<Step>, u: State)
    requires Via(s, cfg, first, t, false) && Via(t, cfg, second, u, false)
    ensures Via(s, cfg, first + second, u, false)
    decreases |first|
  {
    if first == [] {
      assert first + second == second;
    } else {
      assert (first + second)[1..] == first[1..] + second;
      ViaBoth(Apply(s, cfg, first[0]), cfg, first[1..], t, second, u);
    }
  }

  // ----- One call at work, with its fence open -----

  /** The state after the call alone took `ticks` steps that wrote nothing. */
  function At(s: State, c: CallId, pc: Pc, ticks: nat): State
    requires c in s.calls
  {
    s.(clock := s.clock + ticks, calls := s.calls[c := s.calls[c].(pc := pc)])
  }

  lemma {:induction false} PassChecks(s: State, cfg: Config, t: State, armed: bool, c: CallId)
    requires Leads(s, cfg, t, armed)
    requires c in t.calls && t.calls[c].pc.Fence? && t.calls[c].pc.checks > 0 && Open(t, c)
    ensures Leads(s, cfg, At(t, c, t.calls[c].pc.next, t.calls[c].pc.checks), armed)
    decreases t.calls[c].pc.checks
  {
    var step := Advance(c, Go(map[]));
    var t' := Apply(t, cfg, step);
    Then(s, cfg, t, armed, step);
    var Fence(checks, next) := t.calls[c].pc;
    if checks == 1 {
      assert t' == At(t, c, next, 1);
    } else {
      assert t'.calls[c].pc == Fence(checks - 1, next);
      PassChecks(s, cfg, t', armed, c);
      assert At(t', c, next, checks - 1) == At(t, c, next, checks);
    }
  }

  /** An unsent, unstashed row of the call's own key that is pending but not armed. */
  predicate Ajar(s: State, key: IntentKey) {
    && key in s.rows && s.rows[key].status == Pending
    && !IsTrue(s.rows[key].detail, Mutating) && Result !in s.rows[key].detail
  }

  predicate Poised(s: State, cfg: Config, c: CallId, pc: Pc) {
    c in s.calls && s.calls[c].pc == pc && c.workItem in cfg.items
  }

  ghost predicate Live(s: State, cfg: Config, c: CallId) {
    && Registered(s, cfg)
    && c.workItem in cfg.items && cfg.items[c.workItem] in s.leases
    && HeldAt(s.leases, cfg.items[c.workItem], c.workItem, c.epoch, s.now)
  }

  /** A later execution of the same work item: the old lease lapses and a new epoch is granted. */
  lemma FreshLease(s: State, cfg: Config, t: State, armed: bool, w: WorkItemId) returns (epoch: nat, t': State)
    requires Leads(s, cfg, t, armed) && Registered(t, cfg) && w in cfg.items
    ensures Leads(s, cfg, t', armed) && Registered(t', cfg)
    ensures cfg.items[w] in t'.leases && HeldAt(t'.leases, cfg.items[w], w, epoch, t'.now)
    ensures Holder(w, epoch) !in t.executions && Holder(w, epoch) in t'.executions
    ensures t'.rows == t.rows && t'.log == t.log && t'.calls == t.calls
  {
    var key := cfg.items[w];
    var wait := if key in t.leases && t.leases[key].expiresAt > t.now then t.leases[key].expiresAt - t.now else 0;
    var t1 := Apply(t, cfg, Tick(wait));
    Then(s, cfg, t, armed, Tick(wait));
    RegisteredKept(t, cfg, Tick(wait));
    t' := Apply(t1, cfg, Grant(w, 1));
    Then(s, cfg, t1, armed, Grant(w, 1));
    RegisteredKept(t1, cfg, Grant(w, 1));
    epoch := t'.leases[key].epoch;
  }

  /** Its call begins. */
  lemma FreshCall(s: State, cfg: Config, t: State, armed: bool, w: WorkItemId, operation: string) returns (c: CallId, t': State)
    requires Leads(s, cfg, t, armed) && Registered(t, cfg) && w in cfg.items
    ensures c.workItem == w && c.operation == operation
    ensures Leads(s, cfg, t', armed) && Live(t', cfg, c)
    ensures t'.rows == t.rows && t'.log == t.log
    ensures c !in t.calls && Poised(t', cfg, c, if Delegated(cfg, c) then Checked(1, Parent) else Entry())
  {
    var epoch, granted := FreshLease(s, cfg, t, armed, w);
    c := CallId(w, epoch, operation);
    t' := Apply(granted, cfg, Begin(c, false, true));
    Then(s, cfg, granted, armed, Begin(c, false, true));
    RegisteredKept(granted, cfg, Begin(c, false, true));
  }

  ghost predicate OthersSame(t: State, t': State, key: IntentKey) {
    forall k :: k != key ==> (k in t'.rows <==> k in t.rows) && (k in t.rows ==> t'.rows[k] == t.rows[k])
  }

  /** Nothing changed but the row of the call's key, and the call has moved on to `pc`. */
  ghost predicate Moved(t: State, t': State, cfg: Config, c: CallId, pc: Pc) {
    && Poised(t', cfg, c, pc) && Live(t', cfg, c) && OthersSame(t, t', KeyOf(c))
    && t'.log == t.log && t'.now == t.now && t'.leases == t.leases && t'.executions == t.executions
    && (forall other :: other in t.calls && other != c ==> other in t'.calls && t'.calls[other] == t.calls[other])
    && (c in t.calls ==> t'.calls[c].recovers == t.calls[c].recovers)
  }

  lemma PersistsAjar(t: State, cfg: Config, c: CallId)
    requires Live(t, cfg, c) && (KeyOf(c) in t.rows ==> Ajar(t, KeyOf(c)))
    requires Poised(t, cfg, c, Parent) || Poised(t, cfg, c, Persist)
    ensures Legal(t, cfg, Advance(c, Go(map[])))
    ensures var t' := Apply(t, cfg, Advance(c, Go(map[])));
            Ajar(t', KeyOf(c)) && Moved(t, t', cfg, c, if t.calls[c].pc == Parent then Entry() else Fence(1, Query))
  {
  }

  lemma FencePassed(s: State, cfg: Config, t: State, armed: bool, c: CallId, checks: nat, next: Pc) returns (t': State)
    requires Leads(s, cfg, t, armed) && Live(t, cfg, c) && checks > 0
    requires Poised(t, cfg, c, Fence(checks, next))
    ensures Leads(s, cfg, t', armed) && Moved(t, t', cfg, c, next) && t'.rows == t.rows
  {
    PassChecks(s, cfg, t, armed, c);
    t' := At(t, c, next, checks);
  }

  /** The first statements leave the row as ajar as they found it. */
  lemma ReachQuery(s: State, cfg: Config, t: State, armed: bool, c: CallId) returns (t': State)
    requires Leads(s, cfg, t, armed) && Live(t, cfg, c)
    requires Poised(t, cfg, c, Entry()) && (KeyOf(c) in t.rows ==> Ajar(t, KeyOf(c)))
    ensures Leads(s, cfg, t', armed) && Ajar(t', KeyOf(c)) && Moved(t, t', cfg, c, Query)
  {
    t' := FencePassed(s, cfg, t, armed, c, 2, Persist);
    PersistsAjar(t', cfg, c);
    Then(s, cfg, t', armed, Advance(c, Go(map[])));
    t' := Apply(t', cfg, Advance(c, Go(map[])));
    t' := FencePassed(s, cfg, t', armed, c, 1, Query);
  }

  lemma ReachEntry(s: State, cfg: Config, t: State, armed: bool, c: CallId) returns (t': State)
    requires Leads(s, cfg, t, armed) && Live(t, cfg, c)
    requires Poised(t, cfg, c, Checked(1, Parent)) && (KeyOf(c) in t.rows ==> Ajar(t, KeyOf(c)))
    ensures Leads(s, cfg, t', armed) && Ajar(t', KeyOf(c)) && Moved(t, t', cfg, c, Entry())
  {
    t' := FencePassed(s, cfg, t, armed, c, 1, Parent);
    PersistsAjar(t', cfg, c);
    Then(s, cfg, t', armed, Advance(c, Go(map[])));
    t' := Apply(t', cfg, Advance(c, Go(map[])));
  }

  /**
    The query finds nothing, because the lease has lapsed: then other work items' rows do not count,
    and the own row is not armed. The renewal timer brings the lease back.
   */
  lemma PassQuery(s: State, cfg: Config, t: State, armed: bool, c: CallId) returns (t': State)
    requires Leads(s, cfg, t, armed) && Poised(t, cfg, c, Query) && Live(t, cfg, c) && Ajar(t, KeyOf(c))
    ensures Leads(s, cfg, t', armed) && Poised(t', cfg, c, Arm(false)) && Live(t', cfg, c)
    ensures t'.rows == t.rows && t'.log == t.log && t'.executions == t.executions
  {
    var key := cfg.items[c.workItem];
    var wait := t.leases[key].expiresAt - t.now;
    Then(s, cfg, t, armed, Tick(wait));
    var t1 := Apply(t, cfg, Tick(wait));
    var answer := Advance(c, Fetched(None));
    assert !HoldsLease(cfg.items, t1.leases, c.workItem, t1.now);
    assert FirstInFlight(t1.rows, cfg.items, t1.leases, t1.now, KeyOf(c), None);
    Then(s, cfg, t1, armed, answer);
    var t2 := Apply(t1, cfg, answer);
    Then(s, cfg, t2, armed, Renew(c.workItem, c.epoch, 1));
    var t3 := Apply(t2, cfg, Renew(c.workItem, c.epoch, 1));
    assert t2.calls[c].pc == Fence(1, Arm(false));
    RegisteredKept(t, cfg, Tick(wait));
    RegisteredKept(t1, cfg, answer);
    RegisteredKept(t2, cfg, Renew(c.workItem, c.epoch, 1));
    t' := FencePassed(s, cfg, t3, armed, c, 1, Arm(false));
  }

  /** The row is pending without a result; `armed` says whether its armed flag is set. */
  predicate Pends(s: State, key: IntentKey, armed: bool) {
    && key in s.rows && s.rows[key].status == Pending && Result !in s.rows[key].detail
    && (IsTrue(s.rows[key].detail, Mutating) <==> armed)
  }

  lemma ArmsRow(t: State, cfg: Config, c: CallId)
    requires Poised(t, cfg, c, Arm(false)) && Live(t, cfg, c) && Ajar(t, KeyOf(c))
    ensures var rows := RowsAfter(t, c, Go(map[]));
            Pends(t.(rows := rows), KeyOf(c), true) && OthersSame(t, t.(rows := rows), KeyOf(c))
  {
  }

  lemma ArmsOpenly(t: State, cfg: Config, c: CallId)
    requires Poised(t, cfg, c, Arm(false)) && Live(t, cfg, c) && Ajar(t, KeyOf(c))
    ensures Legal(t, cfg, Advance(c, Go(map[])))
    ensures var t' := Apply(t, cfg, Advance(c, Go(map[])));
            Moved(t, t', cfg, c, Fence(3, Mark(true, false))) && Pends(t', KeyOf(c), true)
  {
    var go := Advance(c, Go(map[]));
    ArmsRow(t, cfg, c);
    RegisteredKept(t, cfg, go);
    var t' := Apply(t, cfg, go);
    assert t'.rows == RowsAfter(t, c, Go(map[]));
    assert t'.calls == t.calls[c := t.calls[c].(pc := Fence(3, Mark(true, false)))];
  }

  lemma MarksRow(t: State, cfg: Config, c: CallId, pc: Pc, armed: bool)
    requires pc.Mark? && Poised(t, cfg, c, pc) && Live(t, cfg, c) && Pends(t, KeyOf(c), armed)
    ensures Marks(t, Advance(c, Go(map[]))) && Legal(t, cfg, Advance(c, Go(map[])))
    ensures var t' := Apply(t, cfg, Advance(c, Go(map[])));
            Pends(t', KeyOf(c), armed) && Moved(t, t', cfg, c, if Delegated(cfg, c) then Fence(1, Enter) else Mutate)
            && IsTrue(t'.rows[KeyOf(c)].detail, SendStarted)
  {
    RegisteredKept(t, cfg, Advance(c, Go(map[])));
  }

  lemma EntersDelegate(t: State, cfg: Config, c: CallId, armed: bool)
    requires Poised(t, cfg, c, Enter) && Live(t, cfg, c) && Pends(t, KeyOf(c), armed)
    ensures Legal(t, cfg, Advance(c, Go(map[])))
    ensures var t' := Apply(t, cfg, Advance(c, Go(map[]))); Pends(t', KeyOf(c), armed) && Moved(t, t', cfg, c, Mutate)
  {
    RegisteredKept(t, cfg, Advance(c, Go(map[])));
  }

  lemma CallsMutate(t: State, cfg: Config, c: CallId, rowArmed: bool)
    requires Poised(t, cfg, c, Mutate) && Live(t, cfg, c) && Pends(t, KeyOf(c), rowArmed)
    ensures Legal(t, cfg, Advance(c, Go(map[]))) && !Marks(t, Advance(c, Go(map[])))
    ensures var t' := Apply(t, cfg, Advance(c, Go(map[])));
            Registered(t', cfg) && Pends(t', KeyOf(c), rowArmed) && t'.log == t.log + [Send(KeyOf(c), c.epoch, Unanswered)]
  {
    RegisteredKept(t, cfg, Advance(c, Go(map[])));
  }

  lemma ReachMutate(s: State, cfg: Config, t: State, armed: bool, c: CallId, rowArmed: bool) returns (t': State)
    requires Leads(s, cfg, t, armed) && Live(t, cfg, c) && Pends(t, KeyOf(c), rowArmed)
    requires Poised(t, cfg, c, if Delegated(cfg, c) then Fence(1, Enter) else Mutate)
    ensures Leads(s, cfg, t', armed) && Live(t', cfg, c) && Pends(t', KeyOf(c), rowArmed) && Poised(t', cfg, c, Mutate) && t'.log == t.log
  {
    t' := t;
    if Delegated(cfg, c) {
      t' := FencePassed(s, cfg, t, armed, c, 1, Enter);
      EntersDelegate(t', cfg, c, rowArmed);
      Then(s, cfg, t', armed, Advance(c, Go(map[])));
      t' := Apply(t', cfg, Advance(c, Go(map[])));
    }
  }

  /** A call that has just set its marker goes on to mutate(); the row keeps its armed flag. */
  lemma SendNow(s: State, cfg: Config, t: State, armed: bool, c: CallId, rowArmed: bool) returns (t': State)
    requires Leads(s, cfg, t, armed) && Live(t, cfg, c) && Pends(t, KeyOf(c), rowArmed)
    requires Poised(t, cfg, c, if Delegated(cfg, c) then Fence(1, Enter) else Mutate)
    ensures Leads(s, cfg, t', armed) && Registered(t', cfg) && c.workItem in cfg.items && Pends(t', KeyOf(c), rowArmed)
    ensures t'.log == t.log + [Send(KeyOf(c), c.epoch, Unanswered)]
  {
    var ready := ReachMutate(s, cfg, t, armed, c, rowArmed);
    CallsMutate(ready, cfg, c, rowArmed);
    Then(s, cfg, ready, armed, Advance(c, Go(map[])));
    t' := Apply(ready, cfg, Advance(c, Go(map[])));
  }

  /** From a pending, unarmed row a later execution sends, and its own marker finds the row armed. */
  lemma SendAgain(s: State, cfg: Config, t: State, w: WorkItemId, operation: string) returns (t': State, epoch: nat)
    requires Leads(s, cfg, t, true) && Registered(t, cfg) && w in cfg.items && Ajar(t, IntentKey(w, operation))
    ensures Leads(s, cfg, t', true) && t'.log == t.log + [Send(IntentKey(w, operation), epoch, Unanswered)]
  {
    var c;
    c, t' := FreshCall(s, cfg, t, true, w, operation);
    epoch := c.epoch;
    assert KeyOf(c) == IntentKey(w, operation);
    if Delegated(cfg, c) { t' := ReachEntry(s, cfg, t', true, c); }
    t' := ReachQuery(s, cfg, t', true, c);
    t' := PassQuery(s, cfg, t', true, c);
    var go := Advance(c, Go(map[]));
    ArmsOpenly(t', cfg, c);
    Then(s, cfg, t', true, go);
    t' := Apply(t', cfg, go);
    t' := FencePassed(s, cfg, t', true, c, 3, Mark(true, false));
    MarksRow(t', cfg, c, Mark(true, false), true);
    Then(s, cfg, t', true, go);
    t' := Apply(t', cfg, go);
    t' := SendNow(s, cfg, t', true, c, true);
  }

  // ----- The condition is exact -----

  ghost predicate SafeFromHere(s: State, cfg: Config) {
    forall steps :: IsRun(s, cfg, steps) && ArmedRun(s, cfg, steps) ==> AtMostOnce(End(s, cfg, steps).log)
  }

  lemma UnarmedMarkSendsTwice(s: State, cfg: Config, c: CallId, extra: Detail) returns (t: State)
    requires Inv(s, cfg) && ResultInv(s, cfg) && Enabled(s, cfg, Advance(c, Go(extra)))
    requires Marks(s, Advance(c, Go(extra))) && !ArmedMark(s, Advance(c, Go(extra)))
    ensures Leads(Apply(s, cfg, Advance(c, Go(extra))), cfg, t, true) && !AtMostOnce(t.log)
  {
    var step := Advance(c, Go(extra));
    var s' := Apply(s, cfg, step);
    OpenMeansCurrent(s, cfg, c);
    assert OwnResult(s, c, Core(s.calls[c].pc)) && Ready(s, cfg, c, Core(s.calls[c].pc));
    RegisteredKept(s, cfg, step);
    assert Pends(s', KeyOf(c), false);
    Here(s', cfg, true);
    t := SendNow(s', cfg, s', true, c, false);
    var first := t;
    var epoch;
    t, epoch := SendAgain(s', cfg, t, c.workItem, c.operation);
    assert t.log[|first.log| - 1] == Send(KeyOf(c), c.epoch, Unanswered);
    assert t.log[|first.log|].key == KeyOf(c);
  }

  /**
    A send marker leaves publication at most once, in every continuation with armed markers, exactly
    when it finds its row armed.
   */
  lemma MarkIsSafeExactlyWhenArmed(s: State, cfg: Config, c: CallId, extra: Detail)
    requires Inv(s, cfg) && ResultInv(s, cfg) && Enabled(s, cfg, Advance(c, Go(extra))) && Marks(s, Advance(c, Go(extra)))
    ensures IsTrue(s.rows[KeyOf(c)].detail, Mutating) <==> SafeFromHere(Apply(s, cfg, Advance(c, Go(extra))), cfg)
  {
    var step := Advance(c, Go(extra));
    var s' := Apply(s, cfg, step);
    if ArmedMark(s, step) {
      StepKeepsInv(s, cfg, step);
      forall steps | IsRun(s', cfg, steps) && ArmedRun(s', cfg, steps) ensures AtMostOnce(End(s', cfg, steps).log) {
        RunKeepsInv(s', cfg, steps);
      }
    } else {
      var t := UnarmedMarkSendsTwice(s, cfg, c, extra);
      var steps :| Via(s', cfg, steps, t, true);
    }
  }

  // ----- And the unarmed marker is reachable -----

  /** Meeting a closed fence, the arming write changes nothing and the call goes on. */
  lemma ArmsIntoNothing(t: State, cfg: Config, c: CallId)
    requires Registered(t, cfg) && Poised(t, cfg, c, Arm(false)) && !Open(t, c)
    ensures Legal(t, cfg, Advance(c, Go(map[])))
    ensures var t' := Apply(t, cfg, Advance(c, Go(map[])));
            && Registered(t', cfg) && Poised(t', cfg, c, Fence(3, Mark(false, false)))
            && t'.rows == t.rows && t'.leases == t.leases && t'.now == t.now
  {
    var t' := Apply(t, cfg, Advance(c, Go(map[])));
    assert RowsAfter(t, c, Go(map[])) == t.rows;
    assert t' == t.(clock := t.clock + 1, calls := t.calls[c := t.calls[c].(pc := Fence(3, Mark(false, false)))]);
  }

  /** The arming write meets a lease that lapsed after its fence check, and the renewal comes before the next check. */
  lemma LoseArming(s: State, cfg: Config, t: State, c: CallId) returns (t': State)
    requires Leads(s, cfg, t, false) && Poised(t, cfg, c, Arm(false)) && Live(t, cfg, c) && Ajar(t, KeyOf(c))
    ensures Leads(s, cfg, t', false) && Poised(t', cfg, c, Mark(false, false)) && Live(t', cfg, c) && Pends(t', KeyOf(c), false)
  {
    var wait := t.leases[cfg.items[c.workItem]].expiresAt - t.now;
    var go := Advance(c, Go(map[]));
    Then(s, cfg, t, false, Tick(wait));
    RegisteredKept(t, cfg, Tick(wait));
    var t1 := Apply(t, cfg, Tick(wait));
    ArmsIntoNothing(t1, cfg, c);
    Then(s, cfg, t1, false, go);
    var t2 := Apply(t1, cfg, go);
    Then(s, cfg, t2, false, Renew(c.workItem, c.epoch, 1));
    RegisteredKept(t2, cfg, Renew(c.workItem, c.epoch, 1));
    t' := FencePassed(s, cfg, Apply(t2, cfg, Renew(c.workItem, c.epoch, 1)), false, c, 3, Mark(false, false));
  }

  lemma ReachUnarmedMark(cfg: Config, w: WorkItemId, operation: string) returns (c: CallId, t: State)
    requires w in cfg.items
    ensures c.workItem == w && c.operation == operation
    ensures Leads(Init(), cfg, t, false) && Poised(t, cfg, c, Mark(false, false)) && Live(t, cfg, c) && Pends(t, KeyOf(c), false)
  {
    var s := Init();
    Here(s, cfg, false);
    c, t := FreshCall(s, cfg, s, false, w, operation);
    if Delegated(cfg, c) { t := ReachEntry(s, cfg, t, false, c); }
    t := ReachQuery(s, cfg, t, false, c);
    t := PassQuery(s, cfg, t, false, c);
    t := LoseArming(s, cfg, t, c);
  }

  lemma SendUnarmed(cfg: Config, w: WorkItemId, operation: string) returns (t: State, epoch: nat)
    requires w in cfg.items
    ensures Leads(Init(), cfg, t, false) && Registered(t, cfg) && Ajar(t, IntentKey(w, operation))
    ensures |t.log| > 0 && t.log[|t.log| - 1] == Send(IntentKey(w, operation), epoch, Unanswered)
  {
    var c, marked := ReachUnarmedMark(cfg, w, operation);
    epoch := c.epoch;
    MarksRow(marked, cfg, c, Mark(false, false), false);
    Then(Init(), cfg, marked, false, Advance(c, Go(map[])));
    t := SendNow(Init(), cfg, Apply(marked, cfg, Advance(c, Go(map[]))), false, c, false);
  }

  /** Without the hypothesis at-most-once fails: for every work item and key some run sends twice. */
  lemma SomeRunSendsTwice(cfg: Config, w: WorkItemId, operation: string) returns (steps: seq<Step>)
    requires w in cfg.items
    ensures IsRun(Init(), cfg, steps) && !AtMostOnce(End(Init(), cfg, steps).log)
  {
    var sent, epoch := SendUnarmed(cfg, w, operation);
    Here(sent, cfg, true);
    var again, next := SendAgain(sent, cfg, sent, w, operation);
    assert again.log[|sent.log| - 1] == Send(IntentKey(w, operation), epoch, Unanswered);
    assert again.log[|sent.log|].key == IntentKey(w, operation);
    var first :| Via(Init(), cfg, first, sent, false);
    var second :| Via(sent, cfg, second, again, true);
    ViaBoth(Init(), cfg, first, sent, second, again);
    steps := first + second;
  }
}

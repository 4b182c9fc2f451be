/**
  Faithful replay needs calls in turn. When two calls of one execution are both past their query and both
  recover the same foreign in-flight intent, the later settlement overwrites the result of the earlier one.
 */
module PublishOverwrite {
  import opened Wrappers
  import opened Leases
  import opened Intents
  import opened Publish
  import opened PublishSafety
  import opened PublishReplay
  import opened PublishUnarmed

  /** A row that is marked as sent and has no result. */
  predicate UnderWay(s: State, key: IntentKey) {
    key in s.rows && InFlight(s.rows[key]) && IsTrue(s.rows[key].detail, SendStarted)
  }

  lemma ReachArm(cfg: Config, w: WorkItemId, operation: string) returns (c: CallId, t: State)
    requires w in cfg.items && operation !in cfg.delegatedOps
    ensures KeyOf(c) == IntentKey(w, operation) && Leads(Init(), cfg, t, false)
    ensures Poised(t, cfg, c, Arm(false)) && Live(t, cfg, c) && Ajar(t, KeyOf(c)) && t.rows.Keys == {KeyOf(c)}
  {
    Here(Init(), cfg, false);
    c, t := FreshCall(Init(), cfg, Init(), false, w, operation);
    t := ReachQuery(Init(), cfg, t, false, c);
    t := PassQuery(Init(), cfg, t, false, c);
  }

  /** One work item stops right after its send marker. */
  lemma LeaveUnderWay(cfg: Config, w: WorkItemId, operation: string) returns (t: State)
    requires w in cfg.items && operation !in cfg.delegatedOps
    ensures Leads(Init(), cfg, t, false) && Registered(t, cfg)
    ensures t.rows.Keys == {IntentKey(w, operation)} && UnderWay(t, IntentKey(w, operation))
  {
    var s, c := Init(), CallId(w, 0, operation);
    c, t := ReachArm(cfg, w, operation);
    var go := Advance(c, Go(map[]));
    ArmsOpenly(t, cfg, c);
    Then(s, cfg, t, false, go);
    t := FencePassed(s, cfg, Apply(t, cfg, go), false, c, 3, Mark(true, false));
    t := MarkUnderWay(s, cfg, t, c);
  }

  lemma MarkUnderWay(s: State, cfg: Config, t: State, c: CallId) returns (t': State)
    requires Leads(s, cfg, t, false) && Poised(t, cfg, c, Mark(true, false)) && Live(t, cfg, c) && Pends(t, KeyOf(c), true)
    requires t.rows.Keys == {KeyOf(c)}
    ensures Leads(s, cfg, t', false) && Registered(t', cfg) && UnderWay(t', KeyOf(c)) && t'.rows.Keys == {KeyOf(c)}
  {
    MarksRow(t, cfg, c, Mark(true, false), true);
    Then(s, cfg, t, false, Advance(c, Go(map[])));
    t' := Apply(t, cfg, Advance(c, Go(map[])));
  }

  /** The call has asked what is in flight and was given the foreign intent. */
  lemma FindsForeign(t: State, cfg: Config, c: CallId, target: IntentKey)
    requires Poised(t, cfg, c, Query) && Live(t, cfg, c) && UnderWay(t, target)
    requires target.workItem != c.workItem && target.workItem in cfg.items && cfg.items[target.workItem] == cfg.items[c.workItem]
    requires forall k :: k in t.rows && k != target ==> !InFlight(t.rows[k])
    ensures Legal(t, cfg, Advance(c, Fetched(Some(target))))
    ensures var t' := Apply(t, cfg, Advance(c, Fetched(Some(target))));
            Moved(t, t', cfg, c, Recover(target, OnInFlight)) && t'.rows == t.rows
  {
    assert BlocksCaller(t.rows, cfg.items, t.leases, t.now, KeyOf(c), target);
    RegisteredKept(t, cfg, Advance(c, Fetched(Some(target))));
  }

  /** What a call that found `value` for a foreign intent does next. */
  function SettlementOf(cfg: Config, target: IntentKey, value: Option<Json>): Pc
    requires cfg.decode(value).Some?
  {
    Settle(target, Reconciled, map[Result := Stored(value)], Done(cfg.decode(value).value))
  }

  lemma Recovers(t: State, cfg: Config, c: CallId, target: IntentKey, value: Option<Json>)
    requires Poised(t, cfg, c, Recover(target, OnInFlight)) && Live(t, cfg, c) && t.calls[c].recovers && cfg.decode(value).Some?
    requires target != KeyOf(c)
    ensures Legal(t, cfg, Advance(c, Observed(Found(value), map[])))
    ensures var step := Advance(c, Observed(Found(value), map[]));
            Moved(t, Apply(t, cfg, step), cfg, c, Fence(2, SettlementOf(cfg, target, value))) && Apply(t, cfg, step).rows == t.rows
  {
    RegisteredKept(t, cfg, Advance(c, Observed(Found(value), map[])));
    assert (map[])[Result := Stored(value)] == map[Result := Stored(value)];
  }

  lemma Settles(t: State, cfg: Config, c: CallId, target: IntentKey, value: Option<Json>)
    requires cfg.decode(value).Some? && Poised(t, cfg, c, SettlementOf(cfg, target, value)) && Live(t, cfg, c)
    requires target in t.rows && t.rows[target].status in {Pending, Reconciled}
    ensures Legal(t, cfg, Advance(c, Go(map[])))
    ensures var t' := Apply(t, cfg, Advance(c, Go(map[])));
            && Live(t', cfg, c) && Holds(t', target, Stored(value)) && t'.rows[target].status == Reconciled
            && forall other :: other in t.calls && other != c ==> other in t'.calls && t'.calls[other] == t.calls[other]
  {
    RegisteredKept(t, cfg, Advance(c, Go(map[])));
  }

  /** Recovery finds a value and the foreign intent is settled with it. */
  lemma SettleForeign(s: State, cfg: Config, t: State, c: CallId, target: IntentKey, value: Option<Json>) returns (t': State)
    requires Leads(s, cfg, t, false) && Poised(t, cfg, c, Recover(target, OnInFlight)) && Live(t, cfg, c) && t.calls[c].recovers
    requires target in t.rows && t.rows[target].status in {Pending, Reconciled} && cfg.decode(value).Some? && target != KeyOf(c)
    ensures Leads(s, cfg, t', false) && Live(t', cfg, c) && Holds(t', target, Stored(value)) && t'.rows[target].status == Reconciled
    ensures forall other :: other in t.calls && other != c ==> other in t'.calls && t'.calls[other] == t.calls[other]
  {
    var observed := Advance(c, Observed(Found(value), map[]));
    Recovers(t, cfg, c, target, value);
    Then(s, cfg, t, false, observed);
    t' := FencePassed(s, cfg, Apply(t, cfg, observed), false, c, 2, SettlementOf(cfg, target, value));
    Settles(t', cfg, c, target, value);
    Then(s, cfg, t', false, Advance(c, Go(map[])));
    t' := Apply(t', cfg, Advance(c, Go(map[])));
  }

  lemma BeginsOne(s: State, cfg: Config, t: State, c: CallId) returns (t': State)
    requires Leads(s, cfg, t, false) && Registered(t, cfg) && c !in t.calls && Holder(c.workItem, c.epoch) in t.executions
    requires c.workItem in cfg.items && cfg.items[c.workItem] in t.leases && HeldAt(t.leases, cfg.items[c.workItem], c.workItem, c.epoch, t.now)
    requires c.operation !in cfg.delegatedOps
    ensures Leads(s, cfg, t', false) && Live(t', cfg, c) && Poised(t', cfg, c, Entry()) && t'.calls[c].recovers
    ensures t'.rows == t.rows && t'.leases == t.leases && t'.now == t.now && t'.executions == t.executions
    ensures t'.calls.Keys == t.calls.Keys + {c} && forall other :: other in t.calls ==> t'.calls[other] == t.calls[other]
  {
    Then(s, cfg, t, false, Begin(c, true, true));
    RegisteredKept(t, cfg, Begin(c, true, true));
    t' := Apply(t, cfg, Begin(c, true, true));
  }

  /** Two calls of one fresh execution begin. */
  lemma TwoBegin(s: State, cfg: Config, t: State, w: WorkItemId, b: string, d: string) returns (c1: CallId, c2: CallId, t': State)
    requires Leads(s, cfg, t, false) && Registered(t, cfg) && w in cfg.items && b != d && b !in cfg.delegatedOps && d !in cfg.delegatedOps
    ensures Leads(s, cfg, t', false) && c1.workItem == c2.workItem == w && c1.epoch == c2.epoch && c1.operation == b && c2.operation == d
    ensures Poised(t', cfg, c1, Entry()) && Poised(t', cfg, c2, Entry()) && Live(t', cfg, c1)
    ensures t'.calls[c1].recovers && t'.calls[c2].recovers && t'.rows == t.rows
  {
    var epoch, granted := FreshLease(s, cfg, t, false, w);
    c1, c2 := CallId(w, epoch, b), CallId(w, epoch, d);
    var one := BeginsOne(s, cfg, granted, c1);
    t' := BeginsOne(s, cfg, one, c2);
  }

  /** Both pass on to their queries; each writes only its own new row. */
  lemma TwoReachQuery(s: State, cfg: Config, t: State, c1: CallId, c2: CallId) returns (t': State)
    requires Leads(s, cfg, t, false) && Live(t, cfg, c1) && c1.workItem == c2.workItem && c1.epoch == c2.epoch && c1 != c2
    requires Poised(t, cfg, c1, Entry()) && Poised(t, cfg, c2, Entry()) && KeyOf(c1) !in t.rows && KeyOf(c2) !in t.rows
    ensures Leads(s, cfg, t', false) && Live(t', cfg, c1) && Live(t', cfg, c2)
    ensures Poised(t', cfg, c1, Query) && Poised(t', cfg, c2, Query) && Ajar(t', KeyOf(c1)) && Ajar(t', KeyOf(c2))
    ensures t'.calls[c1].recovers == t.calls[c1].recovers && t'.calls[c2].recovers == t.calls[c2].recovers
    ensures forall k :: k != KeyOf(c1) && k != KeyOf(c2) ==> (k in t'.rows <==> k in t.rows) && (k in t.rows ==> t'.rows[k] == t.rows[k])
  {
    var one := ReachQuery(s, cfg, t, false, c1);
    t' := ReachQuery(s, cfg, one, false, c2);
    assert KeyOf(c1) in one.rows && t'.rows[KeyOf(c1)] == one.rows[KeyOf(c1)];
  }

  /** They stand at their queries, before either has written anything but its own new row. */
  lemma TwoSearchers(s: State, cfg: Config, t: State, w: WorkItemId, b: string, d: string) returns (c1: CallId, c2: CallId, t': State)
    requires Leads(s, cfg, t, false) && Registered(t, cfg) && w in cfg.items && b != d && b !in cfg.delegatedOps && d !in cfg.delegatedOps
    requires forall k :: k in t.rows ==> k.workItem != w
    ensures Leads(s, cfg, t', false) && c1.workItem == c2.workItem == w && c1.operation == b && c2.operation == d
    ensures Poised(t', cfg, c1, Query) && Poised(t', cfg, c2, Query) && Live(t', cfg, c1) && Live(t', cfg, c2)
    ensures t'.calls[c1].recovers && t'.calls[c2].recovers && Ajar(t', KeyOf(c1)) && Ajar(t', KeyOf(c2))
    ensures forall k :: k in t.rows ==> k in t'.rows && t'.rows[k] == t.rows[k]
    ensures forall k :: k in t'.rows ==> k in t.rows || k == KeyOf(c1) || k == KeyOf(c2)
  {
    c1, c2, t' := TwoBegin(s, cfg, t, w, b, d);
    t' := TwoReachQuery(s, cfg, t', c1, c2);
  }

  /**
    Out of turn, a stashed result changes: some run holds the first result for a key and, later on, the
    second. So two completed calls for that key need not return the same decoding.
   */
  lemma OverlappingCallsOverwrite(cfg: Config, w: WorkItemId, w': WorkItemId, a: string, b: string, d: string, v: Option<Json>, v': Option<Json>)
    returns (mid: State, end: State)
    requires w in cfg.items && w' in cfg.items && w != w' && cfg.items[w] == cfg.items[w']
    requires b != d && a !in cfg.delegatedOps && b !in cfg.delegatedOps && d !in cfg.delegatedOps
    requires cfg.decode(v).Some? && cfg.decode(v').Some?
    ensures Leads(Init(), cfg, mid, false) && Leads(mid, cfg, end, false)
    ensures Holds(mid, IntentKey(w', a), Stored(v)) && Holds(end, IntentKey(w', a), Stored(v'))
    ensures mid.rows[IntentKey(w', a)].status == Reconciled
  {
    var s, target := Init(), IntentKey(w', a);
    var t := LeaveUnderWay(cfg, w', a);
    var c1, c2;
    c1, c2, t := TwoSearchers(s, cfg, t, w, b, d);
    FindsForeign(t, cfg, c1, target);
    Then(s, cfg, t, false, Advance(c1, Fetched(Some(target))));
    t := Apply(t, cfg, Advance(c1, Fetched(Some(target))));
    FindsForeign(t, cfg, c2, target);
    Then(s, cfg, t, false, Advance(c2, Fetched(Some(target))));
    t := Apply(t, cfg, Advance(c2, Fetched(Some(target))));
    mid := SettleForeign(s, cfg, t, c1, target, v);
    Here(mid, cfg, false);
    end := SettleForeign(mid, cfg, mid, c2, target, v');
  }

  // ----- A verdict close overwrites too -----

  /** Every process stops. */
  lemma {:induction false} AllVanish(s: State, cfg: Config, t: State) returns (t': State)
    requires Leads(s, cfg, t, false)
    ensures Leads(s, cfg, t', false) && t' == t.(calls := map[])
    decreases |t.calls|
  {
    t' := t;
    if t.calls != map[] {
      var c :| c in t.calls;
      Then(s, cfg, t, false, Vanish(c));
      var next := Apply(t, cfg, Vanish(c));
      assert t.calls.Keys == next.calls.Keys + {c};
      t' := AllVanish(s, cfg, next);
    }
  }

  /**
    A value that a call of another work item recovered for a verdict close is replaced by null when the
    close is completed later. So recoveries of void operations must find no value for replay to hold.
   */
  lemma CloseOverwritesRecovery(cfg: Config, w: WorkItemId, w': WorkItemId, a: string, b: string, d: string, v: Option<Json>)
    returns (mid: State, end: State)
    requires w in cfg.items && w' in cfg.items && w != w' && cfg.items[w] == cfg.items[w']
    requires b != d && a !in cfg.delegatedOps && b !in cfg.delegatedOps && d !in cfg.delegatedOps && a in cfg.voidOps
    requires cfg.decode(v).Some?
    ensures Leads(Init(), cfg, mid, false) && Leads(mid, cfg, end, false)
    ensures Holds(mid, IntentKey(w', a), Stored(v)) && Holds(end, IntentKey(w', a), JNull)
  {
    var target, reached := IntentKey(w', a), Init();
    mid, reached := OverlappingCallsOverwrite(cfg, w, w', a, b, d, v, v);
    Here(mid, cfg, false);
    var t := AllVanish(mid, cfg, mid);
    Then(mid, cfg, t, false, SettleVoid(target, None));
    end := Apply(t, cfg, SettleVoid(target, None));
  }
}

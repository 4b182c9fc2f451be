/** What every sequence of saves keeps: budget, reserve, the shape of the decision log, and what was stored. */
module ArtifactRuns {
  import opened Wrappers
  import opened Sums
  import opened Artifacts
  import opened ArtifactWalks
  import opened ArtifactStores

  datatype Save = Save(binding: Binding, envelope: Envelope, gate: Gate)

  ghost function AfterSave(codec: Codec, items: Items, s: Save): Items {
    items[s.binding.workItem := SavedRows(codec, RowsOf(items, s.binding.workItem), s.binding, s.envelope, s.gate)]
  }

  ghost function AfterSaves(codec: Codec, items: Items, saves: seq<Save>): Items
    decreases |saves|
  {
    if saves == [] then items else AfterSaves(codec, AfterSave(codec, items, saves[0]), saves[1..])
  }

  // ----- The invariant of one work item's rows -----

  predicate Faithful(codec: Codec, k: Key, row: Row) {
    var e := row.envelope;
    && WellFormed(codec, e) && e.logicalKey == k && row.order == e.order && row.payloadHash == codec.hash(e)
    && row.fingerprint == e.binding.fingerprint && codec.bytes(e) <= BUDGET
  }

  predicate HoldsReserve(rows: Rows, k: Key) {
    k.PreparedKey? && SettledKey(k.sequence) !in rows
  }

  ghost predicate StoreInv(codec: Codec, rows: Rows) {
    && (forall k :: k in rows ==> Faithful(codec, k, rows[k]))
    && (forall k :: k in rows ==> Sound(codec, rows, rows[k].envelope.binding, rows[k].envelope))
    && (forall k :: k in rows ==> rows[k].reserved == if HoldsReserve(rows, k) then SETTLEMENT_RESERVE else 0)
    && Usage(codec, rows) <= BUDGET
  }

  // ----- Rows are immutable but for their reserve -----

  predicate SameArtifact(row: Row, row': Row) { row' == row.(reserved := row'.reserved) }

  predicate Extends(rows: Rows, rows': Rows) {
    forall k :: k in rows ==> k in rows' && SameArtifact(rows[k], rows'[k])
  }

  lemma {:induction false} SoundStays(codec: Codec, rows: Rows, rows': Rows, b: Binding, e: Envelope)
    requires Extends(rows, rows') && Sound(codec, rows, b, e)
    ensures Sound(codec, rows', b, e)
    decreases e.order
  {
    forall k | k in Edges(e) && Below(codec, rows', b, e, k)
      ensures Sound(codec, rows', b, Prior(codec, rows', b, k).value)
    {
      LocalEdgesAreBelow(codec, rows, b, e, k);
      SoundStays(codec, rows, rows', b, Prior(codec, rows, b, k).value);
    }
    assert forall k :: Below(codec, rows, b, e, k) ==> Prior(codec, rows', b, k) == Prior(codec, rows, b, k);
  }

  lemma StorableInserts(codec: Codec, rows: Rows, b: Binding, e: Envelope, gate: Gate)
    requires StoreInv(codec, rows) && Storable(codec, rows, b, e, gate)
    ensures var rows' := Inserted(codec, rows, e); Extends(rows, rows') && rows'.Keys == rows.Keys + {e.logicalKey}
  {
  }

  lemma UsageOfOneMore(codec: Codec, rows: Rows, k: Key, row: Row)
    requires k !in rows
    ensures Usage(codec, rows[k := row]) == Usage(codec, rows) + codec.bytes(row.envelope) + row.reserved
  {
    var w' := StoredBytes(codec, rows[k := row]);
    TotalAdd(w', rows.Keys, k);
    TotalSame(StoredBytes(codec, rows), w', rows.Keys);
    assert rows[k := row].Keys == rows.Keys + {k};
  }

  lemma UsageAfterRelease(codec: Codec, rows: Rows, k: Key)
    requires k in rows
    ensures Usage(codec, rows[k := rows[k].(reserved := 0)]) == Usage(codec, rows) - rows[k].reserved
  {
    var w, w' := StoredBytes(codec, rows), StoredBytes(codec, rows[k := rows[k].(reserved := 0)]);
    TotalUpdate(w, rows.Keys, k, codec.bytes(rows[k].envelope));
    TotalSame(w[k := codec.bytes(rows[k].envelope)], w', rows.Keys);
    assert rows[k := rows[k].(reserved := 0)].Keys == rows.Keys;
  }

  /** The running total after an insert is the one that save compared with the budget. */
  lemma UsageAfterInsert(codec: Codec, rows: Rows, e: Envelope)
    requires e.logicalKey !in rows && SettlementCovered(codec, rows, e)
    ensures Usage(codec, Inserted(codec, rows, e)) == Usage(codec, rows) + codec.bytes(e) + ReserveOf(e.artifact) - ReleaseOf(e.artifact)
  {
    var row := Row(e.order, e.binding.fingerprint, codec.hash(e), e, ReserveOf(e.artifact));
    if e.artifact.Settled? {
      var k := PreparedKey(e.artifact.sequence);
      UsageAfterRelease(codec, rows, k);
      UsageOfOneMore(codec, rows[k := rows[k].(reserved := 0)], e.logicalKey, row);
    } else {
      UsageOfOneMore(codec, rows, e.logicalKey, row);
    }
  }

  lemma ReservesAfterInsert(codec: Codec, rows: Rows, b: Binding, e: Envelope, gate: Gate, k: Key)
    requires StoreInv(codec, rows) && Storable(codec, rows, b, e, gate)
    requires k in Inserted(codec, rows, e)
    ensures var rows' := Inserted(codec, rows, e); rows'[k].reserved == if HoldsReserve(rows', k) then SETTLEMENT_RESERVE else 0
  {
    var rows' := Inserted(codec, rows, e);
    StorableInserts(codec, rows, b, e, gate);
    if e.artifact.Prepared? && k == e.logicalKey && SettledKey(k.sequence) in rows {
      SettledNeedsPrepared(codec, rows, k.sequence);
    }
  }

  /** A settled decision rests on its prepared one. */
  lemma SettledNeedsPrepared(codec: Codec, rows: Rows, n: nat)
    requires StoreInv(codec, rows) && SettledKey(n) in rows
    ensures PreparedKey(n) in rows && rows[PreparedKey(n)].envelope.binding == rows[SettledKey(n)].envelope.binding
  {
    var e := StoredIsSound(codec, rows, SettledKey(n));
  }

  lemma SettledEdge(codec: Codec, rows: Rows, b: Binding, e: Envelope, n: nat)
    requires WellFormed(codec, e) && e.logicalKey == PreparedKey(n) && n > 0 && DecisionHolds(codec, rows, b, e)
    ensures SettledKey(n - 1) in rows && rows[SettledKey(n - 1)].envelope.binding == b
  {
  }

  lemma PreparedNeedsSettled(codec: Codec, rows: Rows, n: nat)
    requires StoreInv(codec, rows) && PreparedKey(n) in rows && n > 0
    ensures SettledKey(n - 1) in rows && rows[SettledKey(n - 1)].envelope.binding == rows[PreparedKey(n)].envelope.binding
  {
    var e := StoredIsSound(codec, rows, PreparedKey(n));
    SettledEdge(codec, rows, e.binding, e, n);
  }

  lemma StoredIsSound(codec: Codec, rows: Rows, k: Key) returns (e: Envelope)
    requires StoreInv(codec, rows) && k in rows
    ensures e == rows[k].envelope && WellFormed(codec, e) && e.logicalKey == k && DecisionHolds(codec, rows, e.binding, e)
  {
    e := rows[k].envelope;
    assert Faithful(codec, k, rows[k]);
    assert Sound(codec, rows, e.binding, e);
  }

  lemma SaveKeepsInv(codec: Codec, rows: Rows, b: Binding, e: Envelope, gate: Gate)
    requires StoreInv(codec, rows)
    ensures StoreInv(codec, SavedRows(codec, rows, b, e, gate)) && Extends(rows, SavedRows(codec, rows, b, e, gate))
  {
    if Storable(codec, rows, b, e, gate) {
      var rows' := Inserted(codec, rows, e);
      StorableInserts(codec, rows, b, e, gate);
      UsageAfterInsert(codec, rows, e);
      TotalPick(StoredBytes(codec, rows'), rows'.Keys, e.logicalKey);
      forall k | k in rows' ensures Faithful(codec, k, rows'[k]) {
        if k != e.logicalKey { assert Faithful(codec, k, rows[k]); }
      }
      forall k | k in rows' ensures Sound(codec, rows', rows'[k].envelope.binding, rows'[k].envelope) {
        if k == e.logicalKey { SoundStays(codec, rows, rows', b, e); } else { SoundStays(codec, rows, rows', rows[k].envelope.binding, rows[k].envelope); }
      }
      forall k | k in rows' ensures rows'[k].reserved == if HoldsReserve(rows', k) then SETTLEMENT_RESERVE else 0 {
        ReservesAfterInsert(codec, rows, b, e, gate, k);
      }
    }
  }

  // ----- Whole runs -----

  ghost predicate AllInv(codec: Codec, items: Items) {
    forall w :: StoreInv(codec, RowsOf(items, w))
  }

  lemma EmptyStore(codec: Codec)
    ensures AllInv(codec, map[])
  {
    forall w: nat ensures StoreInv(codec, RowsOf(map[], w)) {
      assert RowsOf(map[], w).Keys == {};
    }
  }

  lemma {:induction false} SavesKeepInv(codec: Codec, items: Items, saves: seq<Save>, w: nat)
    requires AllInv(codec, items)
    ensures AllInv(codec, AfterSaves(codec, items, saves))
    ensures Extends(RowsOf(items, w), RowsOf(AfterSaves(codec, items, saves), w))
    decreases |saves|
  {
    if saves != [] {
      var s := saves[0];
      var next := AfterSave(codec, items, s);
      SaveKeepsInv(codec, RowsOf(items, s.binding.workItem), s.binding, s.envelope, s.gate);
      forall v: nat ensures StoreInv(codec, RowsOf(next, v)) {
        if v != s.binding.workItem { assert RowsOf(next, v) == RowsOf(items, v); }
      }
      assert Extends(RowsOf(items, w), RowsOf(next, w)) by {
        if w != s.binding.workItem { assert RowsOf(next, w) == RowsOf(items, w); }
      }
      SavesKeepInv(codec, next, saves[1..], w);
    }
  }

  // ----- Stored artifacts load for ever -----

  /** A part of the store that leaves out one row weighs no more with that row's bytes added. */
  lemma PartOfUsage(codec: Codec, rows: Rows, k: Key, part: set<Key>)
    requires k in rows && part <= rows.Keys && k !in part && codec.bytes(rows[k].envelope) <= BUDGET
    ensures codec.bytes(rows[k].envelope) + Total(Weights(codec, rows), part) <= Usage(codec, rows)
  {
    TotalAdd(Weights(codec, rows), part, k);
    TotalAtMost(Weights(codec, rows), StoredBytes(codec, rows), part + {k}, rows.Keys);
  }

  /** In a store that only saves have written, what an envelope rests on always fits beside it. */
  lemma StoredIsAcceptable(codec: Codec, rows: Rows, k: Key)
    requires StoreInv(codec, rows) && k in rows
    ensures var e := rows[k].envelope; Acceptable(codec, rows, e.binding, e) && Decode(codec, k, rows[k], e.binding) == Some(e)
  {
    var e := rows[k].envelope;
    assert Faithful(codec, k, rows[k]);
    ClosureIsStored(codec, rows, e.binding, e);
    RootOutsideClosure(codec, rows, e);
    PartOfUsage(codec, rows, k, Closure(codec, rows, e.binding, e));
  }

  /** Under its own binding every row loads as it was written, and under another binding none does. */
  lemma LoadIsExact(codec: Codec, rows: Rows, b: Binding, k: Key)
    requires StoreInv(codec, rows)
    ensures LoadAnswer(codec, rows, b, k) == if k in rows && rows[k].envelope.binding == b then Some(rows[k].envelope) else None
  {
    if k in rows { StoredIsAcceptable(codec, rows, k); }
  }

  /** Save then load, for ever: an envelope answered stored is loaded unchanged after any further saves. */
  lemma StoredLoadsForever(codec: Codec, before: seq<Save>, s: Save, after: seq<Save>)
    requires var items := AfterSaves(codec, map[], before);
             Storable(codec, RowsOf(items, s.binding.workItem), s.binding, s.envelope, s.gate)
    ensures var items := AfterSaves(codec, AfterSave(codec, AfterSaves(codec, map[], before), s), after);
            LoadAnswer(codec, RowsOf(items, s.binding.workItem), s.binding, s.envelope.logicalKey) == Some(s.envelope)
  {
    var w := s.binding.workItem;
    var items := AfterSaves(codec, map[], before);
    EmptyStore(codec);
    SavesKeepInv(codec, map[], before, w);
    assert AfterSaves(codec, items, [s]) == AfterSave(codec, items, s) by { assert [s][1..] == []; }
    SavesKeepInv(codec, items, [s], w);
    SavesKeepInv(codec, AfterSave(codec, items, s), after, w);
    LoadIsExact(codec, RowsOf(AfterSaves(codec, AfterSave(codec, items, s), after), w), s.binding, s.envelope.logicalKey);
  }

  /** Saving a stored envelope again, after any crash, answers existing and changes nothing. */
  lemma SavingAgainIsExisting(codec: Codec, rows: Rows, b: Binding, e: Envelope, r: SaveResult)
    requires StoreInv(codec, rows) && LoadAnswer(codec, rows, b, e.logicalKey) == Some(e)
    requires SaveAnswers(codec, rows, b, e, GateOpen, r)
    ensures r == Existing && SavedRows(codec, rows, b, e, GateOpen) == rows
  {
    LoadIsExact(codec, rows, b, e.logicalKey);
    StoredIsAcceptable(codec, rows, e.logicalKey);
  }

  // ----- Settlement always fits -----

  /** The settlement that matches a prepared decision. */
  predicate Settles(codec: Codec, prepared: Envelope, e: Envelope) {
    && prepared.artifact.Prepared? && e.artifact.Settled? && e.binding == prepared.binding
    && e.artifact.sequence == prepared.artifact.sequence && e.artifact.decisionId == prepared.artifact.decisionId
    && e.artifact.preparedHash == codec.hash(prepared)
  }

  /** Whatever part of the store is read, a held reserve leaves room for the settlement's bytes. */
  lemma ReserveLeavesRoom(codec: Codec, rows: Rows, k: Key, part: set<Key>, bytes: nat)
    requires k in rows && part <= rows.Keys && bytes <= rows[k].reserved && Usage(codec, rows) <= BUDGET
    ensures bytes + Total(Weights(codec, rows), part) <= BUDGET
  {
    var stored := StoredBytes(codec, rows);
    var shrunk := stored[k := codec.bytes(rows[k].envelope)];
    TotalUpdate(stored, rows.Keys, k, codec.bytes(rows[k].envelope));
    TotalAtMost(Weights(codec, rows), shrunk, part, rows.Keys);
  }

  lemma SettlementIsSound(codec: Codec, rows: Rows, n: nat, e: Envelope)
    requires StoreInv(codec, rows) && PreparedKey(n) in rows
    requires WellFormed(codec, e) && Settles(codec, rows[PreparedKey(n)].envelope, e)
    ensures Sound(codec, rows, e.binding, e)
  {
    assert Faithful(codec, PreparedKey(n), rows[PreparedKey(n)]);
    assert Prior(codec, rows, e.binding, PreparedKey(n)) == Some(rows[PreparedKey(n)].envelope);
    assert Edges(e) == {PreparedKey(n)};
  }

  lemma SettlementIsAcceptable(codec: Codec, rows: Rows, n: nat, e: Envelope)
    requires StoreInv(codec, rows) && Unsettled(rows, n)
    requires WellFormed(codec, e) && Settles(codec, rows[PreparedKey(n)].envelope, e)
    requires codec.bytes(e) <= SETTLEMENT_RESERVE
    ensures Acceptable(codec, rows, e.binding, e)
  {
    SettlementIsSound(codec, rows, n, e);
    ClosureIsStored(codec, rows, e.binding, e);
    ReserveLeavesRoom(codec, rows, PreparedKey(n), Closure(codec, rows, e.binding, e), codec.bytes(e));
  }

  /**
    Once a decision is prepared and unsettled, its matching settlement of at most 8192 bytes is stored:
    neither the running total nor the bytes counted in the dependency walk can turn it away.
   */
  lemma SettlementAlwaysFits(codec: Codec, saves: seq<Save>, w: nat, n: nat, e: Envelope)
    requires var rows := RowsOf(AfterSaves(codec, map[], saves), w);
             && Unsettled(rows, n)
             && WellFormed(codec, e) && Settles(codec, rows[PreparedKey(n)].envelope, e)
             && codec.bytes(e) <= SETTLEMENT_RESERVE
    ensures var rows := RowsOf(AfterSaves(codec, map[], saves), w);
            && Storable(codec, rows, e.binding, e, GateOpen)
            && forall r :: SaveAnswers(codec, rows, e.binding, e, GateOpen, r) ==> r == Stored
  {
    var rows := RowsOf(AfterSaves(codec, map[], saves), w);
    EmptyStore(codec);
    SavesKeepInv(codec, map[], saves, w);
    assert Faithful(codec, PreparedKey(n), rows[PreparedKey(n)]);
    SettlementIsAcceptable(codec, rows, n, e);
  }

  // ----- The decision log -----

  /** Each decision hangs on its own prepared artifact, and each later one on the settlement before it. */
  predicate Linked(rows: Rows, n: nat) {
    && (SettledKey(n) in rows ==>
          PreparedKey(n) in rows && rows[PreparedKey(n)].envelope.binding == rows[SettledKey(n)].envelope.binding)
    && (PreparedKey(n) in rows && n > 0 ==>
          SettledKey(n - 1) in rows && rows[SettledKey(n - 1)].envelope.binding == rows[PreparedKey(n)].envelope.binding)
  }

  lemma StoreIsLinked(codec: Codec, rows: Rows)
    requires StoreInv(codec, rows)
    ensures forall n: nat :: Linked(rows, n)
  {
    forall n: nat ensures Linked(rows, n) {
      if SettledKey(n) in rows { SettledNeedsPrepared(codec, rows, n); }
      if PreparedKey(n) in rows && n > 0 { PreparedNeedsSettled(codec, rows, n); }
    }
  }

  lemma {:induction false} LinkedLog(rows: Rows, n: nat, m: nat)
    requires (forall i: nat :: Linked(rows, i)) && PreparedKey(n) in rows && m < n
    ensures PreparedKey(m) in rows && SettledKey(m) in rows
    ensures rows[PreparedKey(m)].envelope.binding == rows[SettledKey(m)].envelope.binding == rows[PreparedKey(n)].envelope.binding
    decreases n
  {
    assert Linked(rows, n) && Linked(rows, n - 1);
    if m < n - 1 { LinkedLog(rows, n - 1, m); }
  }

  /** Preparing decision n needs every earlier one prepared and settled, under the same binding. */
  lemma EarlierDecisionsSettled(codec: Codec, rows: Rows, n: nat, m: nat)
    requires StoreInv(codec, rows) && PreparedKey(n) in rows && m < n
    ensures PreparedKey(m) in rows && SettledKey(m) in rows
    ensures rows[PreparedKey(m)].envelope.binding == rows[SettledKey(m)].envelope.binding == rows[PreparedKey(n)].envelope.binding
  {
    StoreIsLinked(codec, rows);
    LinkedLog(rows, n, m);
  }

  predicate Unsettled(rows: Rows, n: nat) { PreparedKey(n) in rows && SettledKey(n) !in rows }

  function Reserves(rows: Rows): map<Key, nat> { map k | k in rows :: rows[k].reserved }

  /** Decisions are a prefix, at most one is unsettled, and the reserve is 8192 if one is and 0 otherwise. */
  lemma DecisionLogShape(codec: Codec, saves: seq<Save>, w: nat)
    ensures var rows := RowsOf(AfterSaves(codec, map[], saves), w);
            && (forall n, m :: PreparedKey(n) in rows && m < n ==> PreparedKey(m) in rows && SettledKey(m) in rows)
            && (forall n :: SettledKey(n) in rows ==> PreparedKey(n) in rows)
            && (forall n, m :: Unsettled(rows, n) && Unsettled(rows, m) ==> n == m)
            && (forall n :: Unsettled(rows, n) ==> Total(Reserves(rows), rows.Keys) == SETTLEMENT_RESERVE)
            && ((forall n :: !Unsettled(rows, n)) ==> Total(Reserves(rows), rows.Keys) == 0)
            && Usage(codec, rows) <= BUDGET
  {
    var rows := RowsOf(AfterSaves(codec, map[], saves), w);
    EmptyStore(codec);
    SavesKeepInv(codec, map[], saves, w);
    forall n, m | PreparedKey(n) in rows && m < n ensures PreparedKey(m) in rows && SettledKey(m) in rows {
      EarlierDecisionsSettled(codec, rows, n, m);
    }
    forall n | SettledKey(n) in rows ensures PreparedKey(n) in rows { SettledNeedsPrepared(codec, rows, n); }
    assert forall n, m :: Unsettled(rows, n) && Unsettled(rows, m) ==> n == m by {
      forall n, m | Unsettled(rows, n) && Unsettled(rows, m) ensures n == m {
        if m < n { EarlierDecisionsSettled(codec, rows, n, m); } else if n < m { EarlierDecisionsSettled(codec, rows, m, n); }
      }
    }
    forall n | Unsettled(rows, n) ensures Total(Reserves(rows), rows.Keys) == SETTLEMENT_RESERVE {
      TotalPick(Reserves(rows), rows.Keys, PreparedKey(n));
      NoReserveElsewhere(codec, rows, rows.Keys - {PreparedKey(n)});
    }
    if forall n :: !Unsettled(rows, n) { NoReserveElsewhere(codec, rows, rows.Keys); }
  }

  lemma {:induction false} NoReserveElsewhere(codec: Codec, rows: Rows, s: set<Key>)
    requires StoreInv(codec, rows) && s <= rows.Keys
    requires forall n :: Unsettled(rows, n) ==> PreparedKey(n) !in s
    ensures Total(Reserves(rows), s) == 0
    decreases |s|
  {
    if s != {} {
      var k :| k in s;
      TotalPick(Reserves(rows), s, k);
      assert k.PreparedKey? ==> !Unsettled(rows, k.sequence);
      NoReserveElsewhere(codec, rows, s - {k});
    }
  }
}

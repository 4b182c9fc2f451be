/** Loading and saving review artifacts (src/agentWork/reviewArtifactRepository.ts:192-288). */
module ArtifactStores {
  import opened Wrappers
  import opened Sums
  import opened Artifacts
  import opened ArtifactWalks

  /** What the lease lock and the work-item lock of the transaction answered. */
  datatype Gate = GateOpen | LeaseGone | WorkInactive | WrongItem

  datatype Problem = Schema | Identity | Conflict | Mismatch(reason: Reason)

  datatype SaveResult =
    | Stored
    | Existing
    | Capacity
    | Incompatible
    | Invalid(problem: Problem)
    | Closed(gate: Gate)
    | RefusedByTable          // the kind CHECK of migration 037 does not list opened_paths

  /** encoded_bytes + reserved_bytes of every row. */
  function StoredBytes(codec: Codec, rows: Rows): map<Key, nat> {
    map k | k in rows :: codec.bytes(rows[k].envelope) + rows[k].reserved
  }

  ghost function Usage(codec: Codec, rows: Rows): nat { Total(StoredBytes(codec, rows), rows.Keys) }

  function ReserveOf(a: Artifact): nat { if a.Prepared? then SETTLEMENT_RESERVE else 0 }

  function ReleaseOf(a: Artifact): nat { if a.Settled? then SETTLEMENT_RESERVE else 0 }

  /** The reserve the prepared decision still holds must cover its settlement. */
  predicate SettlementCovered(codec: Codec, rows: Rows, e: Envelope) {
    e.artifact.Settled? ==>
      && PreparedKey(e.artifact.sequence) in rows
      && rows[PreparedKey(e.artifact.sequence)].reserved == SETTLEMENT_RESERVE
      && codec.bytes(e) <= SETTLEMENT_RESERVE
  }

  ghost predicate Fits(codec: Codec, rows: Rows, e: Envelope) {
    Usage(codec, rows) + codec.bytes(e) + ReserveOf(e.artifact) - ReleaseOf(e.artifact) <= BUDGET
  }

  function Inserted(codec: Codec, rows: Rows, e: Envelope): Rows {
    var row := Row(e.order, e.binding.fingerprint, codec.hash(e), e, ReserveOf(e.artifact));
    if e.artifact.Settled? && PreparedKey(e.artifact.sequence) in rows
    then rows[PreparedKey(e.artifact.sequence) := rows[PreparedKey(e.artifact.sequence)].(reserved := 0)][e.logicalKey := row]
    else rows[e.logicalKey := row]
  }

  ghost predicate Storable(codec: Codec, rows: Rows, b: Binding, e: Envelope, gate: Gate) {
    && WellFormed(codec, e) && e.binding == b && gate == GateOpen && e.logicalKey !in rows
    && Acceptable(codec, rows, b, e) && SettlementCovered(codec, rows, e) && Fits(codec, rows, e)
    && !e.artifact.OpenedPaths?
  }

  ghost function SavedRows(codec: Codec, rows: Rows, b: Binding, e: Envelope, gate: Gate): Rows {
    if Storable(codec, rows, b, e, gate) then Inserted(codec, rows, e) else rows
  }

  /**
    The answer of save. An envelope that is sound but does not fit is answered capacity, by the walk or by
    the running total. Which of several faults an unsound one is blamed for depends on the order of the walk.
   */
  ghost predicate SaveAnswers(codec: Codec, rows: Rows, b: Binding, e: Envelope, gate: Gate, r: SaveResult) {
    if !WellFormed(codec, e) then r == Invalid(Schema)
    else if e.binding != b then r == Invalid(Identity)
    else if gate != GateOpen then r == Closed(gate)
    else if e.logicalKey in rows then
      var row := rows[e.logicalKey];
      if Decode(codec, e.logicalKey, row, b) == None then r == Incompatible
      else if row.payloadHash != codec.hash(e) || row.envelope != e then r == Invalid(Conflict)
      else r == if Acceptable(codec, rows, b, e) then Existing else Incompatible
    else if !Acceptable(codec, rows, b, e) then
      || (r == Capacity && codec.bytes(e) + Total(Weights(codec, rows), rows.Keys) > BUDGET)
      || (&& r.Invalid? && r.problem.Mismatch? && r.problem.reason != BudgetReason
          && !Sound(codec, rows, b, e) && Blames(codec, rows, e, r.problem.reason))
    else if !SettlementCovered(codec, rows, e) then r == Invalid(Mismatch(PreparedMismatch))
    else if !Fits(codec, rows, e) then r == Capacity
    else r == if e.artifact.OpenedPaths? then RefusedByTable else Stored
  }

  ghost function LoadAnswer(codec: Codec, rows: Rows, b: Binding, key: Key): Option<Envelope> {
    var found := Prior(codec, rows, b, key);
    if found.Some? && Acceptable(codec, rows, b, found.value) then found else None
  }

  type Items = map<nat, Rows>

  function RowsOf(items: Items, workItem: nat): Rows { if workItem in items then items[workItem] else map[] }

  method SumUsage(codec: Codec, rows: Rows) returns (usage: nat)
    ensures usage == Usage(codec, rows)
  {
    var left := rows.Keys;
    usage := 0;
    while left != {}
      invariant left <= rows.Keys
      invariant usage + Total(StoredBytes(codec, rows), left) == Usage(codec, rows)
      decreases |left|
    {
      var k :| k in left;
      TotalPick(StoredBytes(codec, rows), left, k);
      usage := usage + codec.bytes(rows[k].envelope) + rows[k].reserved;
      left := left - {k};
    }
  }

  class ArtifactStore {
    const codec: Codec
    var items: Items

    constructor (codec: Codec)
      ensures items == map[] && this.codec == codec
    {
      this.codec, items := codec, map[];
    }

    method Load(b: Binding, key: Key) returns (e: Option<Envelope>)
      ensures e == LoadAnswer(codec, RowsOf(items, b.workItem), b, key)
    {
      var rows := RowsOf(items, b.workItem);
      if key !in rows { return None; }
      e := Decode(codec, key, rows[key], b);
      if e.Some? {
        var mismatch := DependencyMismatch(codec, rows, e.value);
        if mismatch.Some? { e := None; }
      }
    }

    method Save(b: Binding, e: Envelope, gate: Gate) returns (r: SaveResult)
      modifies this
      ensures SaveAnswers(codec, RowsOf(old(items), b.workItem), b, e, gate, r)
      ensures r == Stored <==> Storable(codec, RowsOf(old(items), b.workItem), b, e, gate)
      ensures RowsOf(items, b.workItem) == SavedRows(codec, RowsOf(old(items), b.workItem), b, e, gate)
      ensures forall w :: w != b.workItem ==> RowsOf(items, w) == RowsOf(old(items), w)
    {
      if !WellFormed(codec, e) { return Invalid(Schema); }
      if e.binding != b { return Invalid(Identity); }
      if gate != GateOpen { return Closed(gate); }
      var rows := RowsOf(items, b.workItem);
      if e.logicalKey in rows {
        var row := rows[e.logicalKey];
        if Decode(codec, e.logicalKey, row, b) == None { return Incompatible; }
        if row.payloadHash != codec.hash(e) || row.envelope != e { return Invalid(Conflict); }
        var broken := DependencyMismatch(codec, rows, e);
        return if broken.Some? then Incompatible else Existing;
      }
      var mismatch := DependencyMismatch(codec, rows, e);
      assert rows.Keys - {e.logicalKey} == rows.Keys;
      if mismatch == Some(BudgetReason) { return Capacity; }
      if mismatch.Some? { return Invalid(Mismatch(mismatch.value)); }
      r := Insert(b, e, rows);
    }

    /** The reserve arithmetic of an envelope whose dependencies hold. */
    method Insert(b: Binding, e: Envelope, rows: Rows) returns (r: SaveResult)
      requires rows == RowsOf(items, b.workItem) && WellFormed(codec, e) && e.binding == b && e.logicalKey !in rows
      requires Acceptable(codec, rows, b, e)
      modifies this
      ensures SaveAnswers(codec, rows, b, e, GateOpen, r)
      ensures r == Stored <==> Storable(codec, rows, b, e, GateOpen)
      ensures RowsOf(items, b.workItem) == SavedRows(codec, rows, b, e, GateOpen)
      ensures forall w :: w != b.workItem ==> RowsOf(items, w) == RowsOf(old(items), w)
    {
      var preparedKey: Option<Key> := None;
      var reserve, released := 0, 0;
      if e.artifact.Prepared? {
        reserve := SETTLEMENT_RESERVE;
      } else if e.artifact.Settled? {
        preparedKey := Some(PreparedKey(e.artifact.sequence));
        var row := rows[preparedKey.value];
        if row.reserved != SETTLEMENT_RESERVE || codec.bytes(e) > SETTLEMENT_RESERVE {
          return Invalid(Mismatch(PreparedMismatch));
        }
        released := SETTLEMENT_RESERVE;
      }
      var usage := SumUsage(codec, rows);
      if usage + codec.bytes(e) + reserve - released > BUDGET { return Capacity; }
      if e.artifact.OpenedPaths? { return RefusedByTable; }
      var next := rows;
      if preparedKey.Some? { next := next[preparedKey.value := next[preparedKey.value].(reserved := 0)]; }
      next := next[e.logicalKey := Row(e.order, b.fingerprint, codec.hash(e), e, reserve)];
      items := items[b.workItem := next];
      r := Stored;
    }
  }
}

/**
  Review artifacts (src/review/recovery/reviewArtifacts.ts, src/agentWork/reviewArtifactRepository.ts):
  hash-linked envelopes, one per logical key, and what it means for an envelope to rest on stored ones.
 */
module Artifacts {
  import opened Wrappers
  import opened Sums

  const BUDGET: nat := 1_048_576
  const SETTLEMENT_RESERVE: nat := 8_192
  const MAX_SEQUENCE: nat := 100_000
  const MAX_DEPENDENCIES: nat := 64

  type Hash = nat

  datatype Specialist = Correctness | Security | Quality | Tests

  /** Logical keys. A dependency may also name a key that no artifact has. */
  datatype Key =
    | BriefKey
    | OpenedPathsKey
    | ReportKey(specialist: Specialist)
    | PreparedKey(sequence: nat)
    | SettledKey(sequence: nat)
    | SummaryKey
    | UnusedKey(text: string)

  datatype Dependency = Dependency(key: Key, payloadHash: Hash)

  /** `content` stands for everything the store never looks into. */
  datatype Artifact =
    | Brief(content: nat)
    | OpenedPaths(content: nat)
    | Report(specialist: Specialist, content: nat)
    | Prepared(sequence: nat, decisionId: nat, dependencies: seq<Dependency>, content: nat)
    | Settled(sequence: nat, decisionId: nat, preparedHash: Hash, content: nat)
    | FinalSummary(dependencies: seq<Dependency>, content: nat)

  /** The input fingerprint and everything else the execution's inputs fix. */
  datatype Binding = Binding(workItem: nat, fingerprint: nat, identity: nat)

  datatype Envelope = Envelope(binding: Binding, logicalKey: Key, order: nat, artifact: Artifact)

  /** Hashing, the length of the canonical text and the schema and redaction checks stay arbitrary. */
  datatype Codec = Codec(hash: Envelope -> Hash, bytes: Envelope -> nat, schemaOk: Envelope -> bool)

  datatype Row = Row(order: nat, fingerprint: nat, payloadHash: Hash, envelope: Envelope, reserved: nat)

  type Rows = map<Key, Row>

  function KeyOf(a: Artifact): Key {
    match a
    case Brief(_) => BriefKey
    case OpenedPaths(_) => OpenedPathsKey
    case Report(specialist, _) => ReportKey(specialist)
    case Prepared(sequence, _, _, _) => PreparedKey(sequence)
    case Settled(sequence, _, _, _) => SettledKey(sequence)
    case FinalSummary(_, _) => SummaryKey
  }

  function OrderOf(key: Key): nat {
    match key
    case BriefKey => 0
    case OpenedPathsKey => 5
    case ReportKey(specialist) =>
      (match specialist case Correctness => 10 case Security => 11 case Quality => 12 case Tests => 13)
    case PreparedKey(sequence) => 100 + sequence * 2
    case SettledKey(sequence) => 101 + sequence * 2
    case SummaryKey => 1_000_000
    case UnusedKey(_) => 0
  }

  /** The UNIQUE (work item, order) constraint can never be the one that refuses an insert. */
  lemma OrdersAreUnique(codec: Codec, e: Envelope, e': Envelope)
    requires WellFormed(codec, e) && WellFormed(codec, e')
    ensures e.order == e'.order <==> e.logicalKey == e'.logicalKey
  {
  }

  function DependenciesOf(e: Envelope): seq<Dependency> {
    if e.artifact.Prepared? || e.artifact.FinalSummary? then e.artifact.dependencies else []
  }

  /** parseReviewArtifactEnvelope: key and order are those of the artifact. */
  predicate WellFormed(codec: Codec, e: Envelope) {
    && e.logicalKey == KeyOf(e.artifact) && e.order == OrderOf(e.logicalKey)
    && (e.artifact.Prepared? || e.artifact.Settled? ==> e.artifact.sequence <= MAX_SEQUENCE)
    && |DependenciesOf(e)| <= MAX_DEPENDENCIES
    && codec.schemaOk(e)
  }

  /** decodeArtifact on the row stored under `key`. */
  function Decode(codec: Codec, key: Key, row: Row, binding: Binding): Option<Envelope> {
    var e := row.envelope;
    if codec.bytes(e) > BUDGET || !WellFormed(codec, e) then None
    else if key != e.logicalKey || row.order != e.order then None
    else if row.fingerprint != binding.fingerprint || e.binding != binding || row.payloadHash != codec.hash(e) then None
    else Some(e)
  }

  /** The place of an artifact, by its kind. */
  predicate InPlace(e: Envelope) {
    match e.artifact
    case Brief(_) => e.logicalKey == BriefKey && e.order == 0
    case OpenedPaths(_) => e.logicalKey == OpenedPathsKey && e.order == 5
    case Report(specialist, _) =>
      && e.logicalKey == ReportKey(specialist)
      && e.order == (match specialist case Correctness => 10 case Security => 11 case Quality => 12 case Tests => 13)
    case Prepared(n, _, declared, _) => n <= 100_000 && |declared| <= 64 && e.logicalKey == PreparedKey(n) && e.order == 100 + 2 * n
    case Settled(n, _, _, _) => n <= 100_000 && e.logicalKey == SettledKey(n) && e.order == 101 + 2 * n
    case FinalSummary(declared, _) => |declared| <= 64 && e.logicalKey == SummaryKey && e.order == 1_000_000
  }

  /** A row is read exactly if it is what its columns say, was saved with this binding, and is not longer than 1 MiB. */
  lemma ReadExactly(codec: Codec, rows: Rows, b: Binding, k: Key, e: Envelope)
    ensures Prior(codec, rows, b, k) == Some(e) <==>
              && k in rows && rows[k].envelope == e && e.logicalKey == k && e.binding == b && codec.schemaOk(e) && InPlace(e)
              && rows[k].order == e.order && rows[k].fingerprint == b.fingerprint && rows[k].payloadHash == codec.hash(e)
              && codec.bytes(e) <= 1_048_576
  {
  }

  /** What an artifact names, itself or through the decision log, is there under its hash, earlier in the order. */
  lemma RestsOnWhatItNames(codec: Codec, rows: Rows, b: Binding, e: Envelope, d: Dependency)
    requires Sound(codec, rows, b, e)
    requires (e.artifact.Prepared? && d in e.artifact.dependencies) || (e.artifact.FinalSummary? && d in e.artifact.dependencies)
             || (e.artifact.Settled? && d == Dependency(PreparedKey(e.artifact.sequence), e.artifact.preparedHash))
    ensures d.key in rows && rows[d.key].payloadHash == d.payloadHash && rows[d.key].order < e.order && rows[d.key].envelope.binding == b
    ensures Sound(codec, rows, b, rows[d.key].envelope)
    ensures e.artifact.Settled? ==>
              rows[d.key].envelope.artifact.Prepared? && rows[d.key].envelope.artifact.decisionId == e.artifact.decisionId
  {
    assert d.key in Edges(e);
    LocalEdgesAreBelow(codec, rows, b, e, d.key);
  }

  /** The row's text is replaced by the empty one when it is longer than the budget. */
  function ShownBytes(codec: Codec, row: Row): nat {
    if codec.bytes(row.envelope) <= BUDGET then codec.bytes(row.envelope) else 0
  }

  function Weights(codec: Codec, rows: Rows): map<Key, nat> {
    map k | k in rows :: ShownBytes(codec, rows[k])
  }

  // ----- What an envelope rests on -----

  /** The stored artifact behind a key, as the execution with this binding reads it. */
  function Prior(codec: Codec, rows: Rows, b: Binding, k: Key): Option<Envelope> {
    if k in rows then Decode(codec, k, rows[k], b) else None
  }

  function ImplicitEdges(a: Artifact): set<Key> {
    match a
    case Prepared(sequence, _, _, _) => if sequence > 0 then {SettledKey(sequence - 1)} else {}
    case Settled(sequence, _, _, _) => {PreparedKey(sequence)}
    case _ => {}
  }

  /** Declared dependencies, and the decision edges that nobody declares. */
  function Edges(e: Envelope): set<Key> {
    (set d | d in DependenciesOf(e) :: d.key) + ImplicitEdges(e.artifact)
  }

  predicate Below(codec: Codec, rows: Rows, b: Binding, e: Envelope, k: Key) {
    Prior(codec, rows, b, k).Some? && Prior(codec, rows, b, k).value.order < e.order
  }

  predicate DependencyHolds(codec: Codec, rows: Rows, b: Binding, e: Envelope, d: Dependency) {
    Below(codec, rows, b, e, d.key) && codec.hash(Prior(codec, rows, b, d.key).value) == d.payloadHash
  }

  predicate DistinctKeys(ds: seq<Dependency>) {
    forall i, j :: 0 <= i < j < |ds| ==> ds[i].key != ds[j].key
  }

  predicate DecisionHolds(codec: Codec, rows: Rows, b: Binding, e: Envelope) {
    match e.artifact
    case Prepared(sequence, _, _, _) =>
      sequence > 0 ==>
        Below(codec, rows, b, e, SettledKey(sequence - 1)) && Prior(codec, rows, b, SettledKey(sequence - 1)).value.artifact.Settled?
    case Settled(sequence, decisionId, preparedHash, _) =>
      && Below(codec, rows, b, e, PreparedKey(sequence))
      && var p := Prior(codec, rows, b, PreparedKey(sequence)).value;
      && p.artifact.Prepared? && p.artifact.decisionId == decisionId && codec.hash(p) == preparedHash
    case _ => true
  }

  ghost predicate DeclaredHold(codec: Codec, rows: Rows, b: Binding, e: Envelope) {
    DistinctKeys(DependenciesOf(e)) && forall d :: d in DependenciesOf(e) ==> DependencyHolds(codec, rows, b, e, d)
  }

  /** Every direct edge is present, same-binding, strictly lower in order and hash-matching. */
  ghost predicate LocalOk(codec: Codec, rows: Rows, b: Binding, e: Envelope) {
    DeclaredHold(codec, rows, b, e) && DecisionHolds(codec, rows, b, e)
  }

  lemma LocalEdgesAreBelow(codec: Codec, rows: Rows, b: Binding, e: Envelope, k: Key)
    requires LocalOk(codec, rows, b, e) && k in Edges(e)
    ensures Below(codec, rows, b, e, k)
  {
  }

  /** The same of every artifact in the transitive closure. */
  ghost predicate Sound(codec: Codec, rows: Rows, b: Binding, e: Envelope)
    decreases e.order
  {
    && LocalOk(codec, rows, b, e)
    && forall k :: k in Edges(e) && Below(codec, rows, b, e, k) ==> Sound(codec, rows, b, Prior(codec, rows, b, k).value)
  }

  /** Keys reachable over edges that descend. */
  ghost function Closure(codec: Codec, rows: Rows, b: Binding, e: Envelope): set<Key>
    decreases e.order
  {
    set k, x | k in Edges(e) && Below(codec, rows, b, e, k) && x in {k} + Closure(codec, rows, b, Prior(codec, rows, b, k).value) :: x
  }

  lemma {:induction false} ClosureMembers(codec: Codec, rows: Rows, b: Binding, e: Envelope, x: Key)
    requires x in Closure(codec, rows, b, e)
    ensures x in rows && Prior(codec, rows, b, x).Some? && Prior(codec, rows, b, x).value.order < e.order
    ensures Sound(codec, rows, b, e) ==> Sound(codec, rows, b, Prior(codec, rows, b, x).value)
    decreases e.order
  {
    var k :| k in Edges(e) && Below(codec, rows, b, e, k) && x in {k} + Closure(codec, rows, b, Prior(codec, rows, b, k).value);
    if x != k { ClosureMembers(codec, rows, b, Prior(codec, rows, b, k).value, x); }
  }

  lemma {:induction false} ClosureIsTransitive(codec: Codec, rows: Rows, b: Binding, e: Envelope, x: Key)
    requires x in Closure(codec, rows, b, e) && Prior(codec, rows, b, x).Some?
    ensures Closure(codec, rows, b, Prior(codec, rows, b, x).value) <= Closure(codec, rows, b, e)
    decreases e.order
  {
    var k :| k in Edges(e) && Below(codec, rows, b, e, k) && x in {k} + Closure(codec, rows, b, Prior(codec, rows, b, k).value);
    if x != k { ClosureIsTransitive(codec, rows, b, Prior(codec, rows, b, k).value, x); }
  }

  /** The bytes the walk would add up for a sound envelope: its own and its closure's. */
  ghost function ClosureBytes(codec: Codec, rows: Rows, b: Binding, e: Envelope): nat
    requires Closure(codec, rows, b, e) <= rows.Keys
  {
    codec.bytes(e) + Total(Weights(codec, rows), Closure(codec, rows, b, e))
  }

  lemma ClosureIsStored(codec: Codec, rows: Rows, b: Binding, e: Envelope)
    ensures Closure(codec, rows, b, e) <= rows.Keys
  {
    forall x | x in Closure(codec, rows, b, e) ensures x in rows.Keys { ClosureMembers(codec, rows, b, e, x); }
  }

  /**
    What an envelope must meet to be loaded or saved. An envelope that rests on nothing is not measured
    against the budget by the walk; the running total of save measures it.
   */
  ghost predicate Acceptable(codec: Codec, rows: Rows, b: Binding, e: Envelope) {
    && Sound(codec, rows, b, e)
    && Closure(codec, rows, b, e) <= rows.Keys
    && (Closure(codec, rows, b, e) != {} ==> ClosureBytes(codec, rows, b, e) <= BUDGET)
  }
}

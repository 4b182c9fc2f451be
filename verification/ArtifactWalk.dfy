/** The dependency worklist of reviewArtifactRepository.ts:124-185, and what its verdict means. */
module ArtifactWalks {
  import opened Wrappers
  import opened Sums
  import opened Artifacts

  datatype Reason = DependencyReason | OrderReason | PreparedMissing | PreparedMismatch | BudgetReason

  /** What each reason says of the artifact it was found at. */
  ghost predicate AtFault(codec: Codec, rows: Rows, b: Binding, e: Envelope, reason: Reason) {
    match reason
    case DependencyReason => !DeclaredHold(codec, rows, b, e)
    case OrderReason =>
      && e.artifact.Prepared? && e.artifact.sequence > 0
      && var k := SettledKey(e.artifact.sequence - 1);
      && (Below(codec, rows, b, e, k) ==> !Prior(codec, rows, b, k).value.artifact.Settled?)
    case PreparedMissing =>
      && e.artifact.Settled?
      && var k := PreparedKey(e.artifact.sequence);
      && (Below(codec, rows, b, e, k) ==> !Prior(codec, rows, b, k).value.artifact.Prepared?)
    case PreparedMismatch =>
      && e.artifact.Settled? && Below(codec, rows, b, e, PreparedKey(e.artifact.sequence))
      && var p := Prior(codec, rows, b, PreparedKey(e.artifact.sequence)).value;
      && p.artifact.Prepared? && !(p.artifact.decisionId == e.artifact.decisionId && codec.hash(p) == e.artifact.preparedHash)
    case BudgetReason => false
  }

  /** The root itself, or an artifact it rests on. */
  ghost predicate Inside(codec: Codec, rows: Rows, root: Envelope, e: Envelope) {
    e == root || (e.logicalKey in Closure(codec, rows, root.binding, root) && Prior(codec, rows, root.binding, e.logicalKey) == Some(e))
  }

  /** Some artifact of the closure is at fault in the way the reason says. */
  ghost predicate Blames(codec: Codec, rows: Rows, root: Envelope, reason: Reason) {
    exists e :: Inside(codec, rows, root, e) && AtFault(codec, rows, root.binding, e, reason)
  }

  lemma LoadedIsInside(codec: Codec, rows: Rows, root: Envelope, loaded: map<Key, Envelope>, e: Envelope)
    requires LoadedFrom(codec, rows, root, loaded) && e.logicalKey in loaded && loaded[e.logicalKey] == e
    ensures Inside(codec, rows, root, e)
  {
  }

  /** What is loaded when nothing is pending is the whole closure, and all of it holds. */
  ghost predicate Checked(codec: Codec, rows: Rows, b: Binding, loaded: map<Key, Envelope>, e: Envelope) {
    LocalOk(codec, rows, b, e) && Edges(e) <= loaded.Keys
  }

  ghost predicate LoadedFrom(codec: Codec, rows: Rows, root: Envelope, loaded: map<Key, Envelope>) {
    && root.logicalKey in loaded && loaded[root.logicalKey] == root
    && forall k {:trigger loaded[k]} :: k in loaded && k != root.logicalKey ==>
         Prior(codec, rows, root.binding, k) == Some(loaded[k]) && k in Closure(codec, rows, root.binding, root)
  }

  /** A descending edge out of a loaded artifact stays in the closure. */
  lemma EdgeInClosure(codec: Codec, rows: Rows, root: Envelope, loaded: map<Key, Envelope>, from: Envelope, k: Key)
    requires LoadedFrom(codec, rows, root, loaded)
    requires from.logicalKey in loaded && loaded[from.logicalKey] == from
    requires k in Edges(from) && Below(codec, rows, root.binding, from, k)
    ensures k in Closure(codec, rows, root.binding, root)
  {
    assert k in {k} + Closure(codec, rows, root.binding, Prior(codec, rows, root.binding, k).value);
    if from != root { ClosureIsTransitive(codec, rows, root.binding, root, from.logicalKey); }
  }

  /** An artifact of the root's own key is never below anything the root rests on. */
  lemma RootIsOnTop(codec: Codec, rows: Rows, root: Envelope, loaded: map<Key, Envelope>, from: Envelope)
    requires LoadedFrom(codec, rows, root, loaded) && WellFormed(codec, root)
    requires from.logicalKey in loaded && loaded[from.logicalKey] == from
    ensures !Below(codec, rows, root.binding, from, root.logicalKey)
    ensures root.order >= from.order
  {
    if from != root { ClosureMembers(codec, rows, root.binding, root, from.logicalKey); }
  }

  lemma RootOutsideClosure(codec: Codec, rows: Rows, root: Envelope)
    requires WellFormed(codec, root)
    ensures root.logicalKey !in Closure(codec, rows, root.binding, root)
  {
    if root.logicalKey in Closure(codec, rows, root.binding, root) {
      ClosureMembers(codec, rows, root.binding, root, root.logicalKey);
      assert false;
    }
  }

  /** Something loaded that does not hold refutes the root. */
  lemma UnsoundInside(codec: Codec, rows: Rows, root: Envelope, loaded: map<Key, Envelope>, from: Envelope)
    requires LoadedFrom(codec, rows, root, loaded)
    requires from.logicalKey in loaded && loaded[from.logicalKey] == from && !LocalOk(codec, rows, root.binding, from)
    ensures !Sound(codec, rows, root.binding, root)
  {
    if from != root { ClosureMembers(codec, rows, root.binding, root, from.logicalKey); }
  }

  lemma {:induction false} CheckedIsSound(codec: Codec, rows: Rows, root: Envelope, loaded: map<Key, Envelope>, e: Envelope)
    requires LoadedFrom(codec, rows, root, loaded) && WellFormed(codec, root)
    requires forall k :: k in loaded ==> Checked(codec, rows, root.binding, loaded, loaded[k])
    requires e.logicalKey in loaded && loaded[e.logicalKey] == e
    ensures Sound(codec, rows, root.binding, e)
    ensures Closure(codec, rows, root.binding, e) <= loaded.Keys
    decreases e.order
  {
    var b := root.binding;
    forall k | k in Edges(e) && Below(codec, rows, b, e, k)
      ensures k in loaded && Sound(codec, rows, b, Prior(codec, rows, b, k).value)
      ensures Closure(codec, rows, b, Prior(codec, rows, b, k).value) <= loaded.Keys
    {
      RootIsOnTop(codec, rows, root, loaded, e);
      CheckedIsSound(codec, rows, root, loaded, loaded[k]);
    }
  }

  lemma MissingRefutes(codec: Codec, rows: Rows, root: Envelope, loaded: map<Key, Envelope>, from: Envelope, key: Key)
    requires LoadedFrom(codec, rows, root, loaded)
    requires from.logicalKey in loaded && loaded[from.logicalKey] == from
    requires key in Edges(from) && !Below(codec, rows, root.binding, from, key)
    ensures !Sound(codec, rows, root.binding, root)
  {
    if LocalOk(codec, rows, root.binding, from) { LocalEdgesAreBelow(codec, rows, root.binding, from, key); }
    UnsoundInside(codec, rows, root, loaded, from);
  }

  /** Reading past the budget refutes the root, whichever of its artifacts was read on the way. */
  lemma OverBudgetRefutes(codec: Codec, rows: Rows, root: Envelope, loaded: map<Key, Envelope>, from: Envelope, key: Key)
    requires LoadedFrom(codec, rows, root, loaded) && loaded.Keys - {root.logicalKey} <= rows.Keys
    requires from.logicalKey in loaded && loaded[from.logicalKey] == from
    requires key in Edges(from) && key in rows && key !in loaded
    requires codec.bytes(root) + Total(Weights(codec, rows), loaded.Keys - {root.logicalKey}) + ShownBytes(codec, rows[key]) > BUDGET
    ensures !Acceptable(codec, rows, root.binding, root)
    ensures codec.bytes(root) + Total(Weights(codec, rows), rows.Keys - {root.logicalKey}) > BUDGET
  {
    var w, inside, closure := Weights(codec, rows), loaded.Keys - {root.logicalKey}, Closure(codec, rows, root.binding, root);
    TotalAdd(w, inside, key);
    TotalAtMost(w, w, inside + {key}, rows.Keys - {root.logicalKey});
    if Below(codec, rows, root.binding, from, key) {
      EdgeInClosure(codec, rows, root, loaded, from, key);
      ClosureIsStored(codec, rows, root.binding, root);
      TotalAtMost(w, w, inside + {key}, closure);
    } else {
      MissingRefutes(codec, rows, root, loaded, from, key);
    }
  }

  /** One more artifact of the closure is loaded. */
  lemma LoadOne(codec: Codec, rows: Rows, root: Envelope, loaded: map<Key, Envelope>, from: Envelope, key: Key)
    requires LoadedFrom(codec, rows, root, loaded) && loaded.Keys - {root.logicalKey} <= rows.Keys
    requires from.logicalKey in loaded && loaded[from.logicalKey] == from
    requires key in Edges(from) && key !in loaded && Below(codec, rows, root.binding, from, key)
    ensures var next := loaded[key := Prior(codec, rows, root.binding, key).value];
            && LoadedFrom(codec, rows, root, next) && next.Keys - {root.logicalKey} <= rows.Keys
            && Total(Weights(codec, rows), next.Keys - {root.logicalKey})
               == Total(Weights(codec, rows), loaded.Keys - {root.logicalKey}) + ShownBytes(codec, rows[key])
            && |rows.Keys - next.Keys| < |rows.Keys - loaded.Keys|
  {
    var next := loaded[key := Prior(codec, rows, root.binding, key).value];
    EdgeInClosure(codec, rows, root, loaded, from, key);
    TotalAdd(Weights(codec, rows), loaded.Keys - {root.logicalKey}, key);
    assert next.Keys - {root.logicalKey} == loaded.Keys - {root.logicalKey} + {key};
    assert rows.Keys - next.Keys == rows.Keys - loaded.Keys - {key};
  }

  /** Nothing pending and everything checked: what is loaded is the closure. */
  lemma LoadedIsClosure(codec: Codec, rows: Rows, root: Envelope, loaded: map<Key, Envelope>)
    requires LoadedFrom(codec, rows, root, loaded) && WellFormed(codec, root)
    requires forall k :: k in loaded ==> Checked(codec, rows, root.binding, loaded, loaded[k])
    ensures Sound(codec, rows, root.binding, root)
    ensures Closure(codec, rows, root.binding, root) == loaded.Keys - {root.logicalKey}
  {
    CheckedIsSound(codec, rows, root, loaded, root);
    RootOutsideClosure(codec, rows, root);
    forall k | k in loaded.Keys - {root.logicalKey} ensures k in Closure(codec, rows, root.binding, root) {}
  }

  lemma AllChecked(codec: Codec, rows: Rows, root: Envelope, loaded: map<Key, Envelope>)
    requires Sound(codec, rows, root.binding, root)
    requires Closure(codec, rows, root.binding, root) == loaded.Keys - {root.logicalKey} && loaded.Keys - {root.logicalKey} <= rows.Keys
    requires root.logicalKey in loaded
    requires loaded.Keys != {root.logicalKey} ==>
               codec.bytes(root) + Total(Weights(codec, rows), loaded.Keys - {root.logicalKey}) <= BUDGET
    ensures Acceptable(codec, rows, root.binding, root)
  {
  }

  lemma NotBelowRefutes(codec: Codec, rows: Rows, root: Envelope, loaded: map<Key, Envelope>, from: Envelope, key: Key, prior: Envelope)
    requires LoadedFrom(codec, rows, root, loaded) && WellFormed(codec, root)
    requires from.logicalKey in loaded && loaded[from.logicalKey] == from && key in Edges(from)
    requires if key == root.logicalKey then prior == root else Prior(codec, rows, root.binding, key) == Some(prior)
    requires prior.order >= from.order
    ensures !Sound(codec, rows, root.binding, root) && !Below(codec, rows, root.binding, from, key)
  {
    RootIsOnTop(codec, rows, root, loaded, from);
    MissingRefutes(codec, rows, root, loaded, from, key);
  }

  lemma DecisionRefutes(codec: Codec, rows: Rows, root: Envelope, loaded: map<Key, Envelope>, from: Envelope)
    requires LoadedFrom(codec, rows, root, loaded)
    requires from.logicalKey in loaded && loaded[from.logicalKey] == from && !DecisionHolds(codec, rows, root.binding, from)
    ensures !Sound(codec, rows, root.binding, root)
  {
    UnsoundInside(codec, rows, root, loaded, from);
  }

  lemma PreparedDecision(codec: Codec, rows: Rows, b: Binding, e: Envelope, p: Envelope)
    requires e.artifact.Prepared? && e.artifact.sequence > 0 && p.order < e.order
    requires Prior(codec, rows, b, SettledKey(e.artifact.sequence - 1)) == Some(p)
    ensures DecisionHolds(codec, rows, b, e) <==> p.artifact.Settled?
    ensures !p.artifact.Settled? ==> AtFault(codec, rows, b, e, OrderReason)
    ensures ImplicitEdges(e.artifact) == {SettledKey(e.artifact.sequence - 1)}
  {
  }

  function DecisionReason(a: Artifact): Reason { if a.Prepared? then OrderReason else PreparedMissing }

  lemma UnreadDecision(codec: Codec, rows: Rows, b: Binding, e: Envelope, key: Key)
    requires key in ImplicitEdges(e.artifact) && !Below(codec, rows, b, e, key)
    ensures AtFault(codec, rows, b, e, DecisionReason(e.artifact))
  {
  }

  lemma SettledDecision(codec: Codec, rows: Rows, b: Binding, e: Envelope, p: Envelope)
    requires e.artifact.Settled? && p.order < e.order && Prior(codec, rows, b, PreparedKey(e.artifact.sequence)) == Some(p)
    ensures DecisionHolds(codec, rows, b, e) <==>
              p.artifact.Prepared? && p.artifact.decisionId == e.artifact.decisionId && codec.hash(p) == e.artifact.preparedHash
    ensures !DecisionHolds(codec, rows, b, e) ==> AtFault(codec, rows, b, e, if p.artifact.Prepared? then PreparedMismatch else PreparedMissing)
    ensures ImplicitEdges(e.artifact) == {PreparedKey(e.artifact.sequence)}
  {
  }

  lemma PoppedIsAtHand(codec: Codec, rows: Rows, b: Binding, loaded: map<Key, Envelope>, pending: seq<Envelope>)
    requires |pending| > 0 && AllAccounted(codec, rows, b, loaded, pending, None)
    ensures AllAccounted(codec, rows, b, loaded, pending[..|pending| - 1], Some(pending[|pending| - 1]))
  {
    var rest := pending[..|pending| - 1];
    assert pending == rest + [pending[|pending| - 1]];
    forall k | k in loaded
      ensures loaded[k] in rest || loaded[k] == pending[|pending| - 1] || Checked(codec, rows, b, loaded, loaded[k])
    {
      if loaded[k] in pending { assert loaded[k] in rest || loaded[k] == pending[|pending| - 1]; }
    }
  }

  /** The artifact at hand has passed both checks. */
  lemma NowChecked(codec: Codec, rows: Rows, b: Binding, before: map<Key, Envelope>, loaded: map<Key, Envelope>, pending: seq<Envelope>, current: Envelope)
    requires AllAccounted(codec, rows, b, loaded, pending, Some(current)) && before.Keys <= loaded.Keys
    requires DependenciesHold(codec, rows, b, before, current, |DependenciesOf(current)|)
    requires DecisionHolds(codec, rows, b, current) && ImplicitEdges(current.artifact) <= loaded.Keys
    ensures AllAccounted(codec, rows, b, loaded, pending, None)
  {
    assert Checked(codec, rows, b, loaded, current) by {
      assert forall d :: d in DependenciesOf(current) ==> exists j :: 0 <= j < |DependenciesOf(current)| && DependenciesOf(current)[j] == d;
    }
  }

  ghost predicate Seen(ds: seq<Dependency>, seen: set<Key>, i: nat) {
    i <= |ds| && forall k :: k in seen <==> exists j :: 0 <= j < i && ds[j].key == k
  }

  lemma SeenGrows(ds: seq<Dependency>, seen: set<Key>, i: nat)
    requires i < |ds| && Seen(ds, seen, i)
    ensures Seen(ds, seen + {ds[i].key}, i + 1)
  {
  }

  /** The first n declared dependencies are distinct, hold and are loaded. */
  ghost predicate DependenciesHold(codec: Codec, rows: Rows, b: Binding, loaded: map<Key, Envelope>, e: Envelope, n: nat) {
    var ds := DependenciesOf(e);
    && n <= |ds|
    && (forall j, j' :: 0 <= j < j' < n ==> ds[j].key != ds[j'].key)
    && forall j :: 0 <= j < n ==> ds[j].key in loaded && DependencyHolds(codec, rows, b, e, ds[j])
  }

  lemma DependenciesGrow(codec: Codec, rows: Rows, b: Binding, loaded: map<Key, Envelope>, next: map<Key, Envelope>, e: Envelope, n: nat)
    requires DependenciesHold(codec, rows, b, loaded, e, n) && loaded.Keys <= next.Keys && n < |DependenciesOf(e)|
    requires var d := DependenciesOf(e)[n]; d.key in next && DependencyHolds(codec, rows, b, e, d)
    requires forall j :: 0 <= j < n ==> DependenciesOf(e)[j].key != DependenciesOf(e)[n].key
    ensures DependenciesHold(codec, rows, b, next, e, n + 1)
  {
  }

  lemma RepeatRefutes(codec: Codec, rows: Rows, root: Envelope, loaded: map<Key, Envelope>, from: Envelope, seen: set<Key>, i: nat)
    requires LoadedFrom(codec, rows, root, loaded)
    requires from.logicalKey in loaded && loaded[from.logicalKey] == from
    requires Seen(DependenciesOf(from), seen, i) && i < |DependenciesOf(from)| && DependenciesOf(from)[i].key in seen
    ensures !Sound(codec, rows, root.binding, root) && !DeclaredHold(codec, rows, root.binding, from)
  {
    assert !DistinctKeys(DependenciesOf(from));
    UnsoundInside(codec, rows, root, loaded, from);
  }

  /** The prior that was read, from the cache or the table, does not satisfy the dependency. */
  lemma FailedDependencyRefutes(codec: Codec, rows: Rows, root: Envelope, loaded: map<Key, Envelope>, from: Envelope, d: Dependency, prior: Envelope)
    requires LoadedFrom(codec, rows, root, loaded) && WellFormed(codec, root)
    requires from.logicalKey in loaded && loaded[from.logicalKey] == from && d in DependenciesOf(from)
    requires if d.key == root.logicalKey then prior == root else Prior(codec, rows, root.binding, d.key) == Some(prior)
    requires prior.order >= from.order || codec.hash(prior) != d.payloadHash
    ensures !Sound(codec, rows, root.binding, root) && !DependencyHolds(codec, rows, root.binding, from, d)
  {
    RootIsOnTop(codec, rows, root, loaded, from);
    assert !DependencyHolds(codec, rows, root.binding, from, d);
    UnsoundInside(codec, rows, root, loaded, from);
  }

  /** A prior strictly below the artifact at hand was read from the table. */
  lemma RootIsNoPrior(codec: Codec, rows: Rows, root: Envelope, loaded: map<Key, Envelope>, from: Envelope, prior: Envelope)
    requires LoadedFrom(codec, rows, root, loaded) && WellFormed(codec, root)
    requires from.logicalKey in loaded && loaded[from.logicalKey] == from && prior.order < from.order
    ensures prior != root
  {
    RootIsOnTop(codec, rows, root, loaded, from);
  }

  /** Everything loaded is still pending, is the artifact at hand, or has been checked. */
  ghost predicate AllAccounted(codec: Codec, rows: Rows, b: Binding, loaded: map<Key, Envelope>, pending: seq<Envelope>, current: Option<Envelope>) {
    forall k {:trigger loaded[k]} :: k in loaded ==> loaded[k] in pending || Some(loaded[k]) == current || Checked(codec, rows, b, loaded, loaded[k])
  }

  /** What was accounted for stays so when one more artifact is loaded and pending. */
  lemma AccountedGrows(codec: Codec, rows: Rows, b: Binding, loaded: map<Key, Envelope>, pending: seq<Envelope>, current: Option<Envelope>,
                       key: Key, prior: Envelope)
    requires AllAccounted(codec, rows, b, loaded, pending, current) && key !in loaded
    ensures AllAccounted(codec, rows, b, loaded[key := prior], pending + [prior], current)
  {
    var next := loaded[key := prior];
    forall k | k in next
      ensures next[k] in pending + [prior] || Some(next[k]) == current || Checked(codec, rows, b, next, next[k])
    {
      if k != key && Checked(codec, rows, b, loaded, loaded[k]) { assert loaded.Keys <= next.Keys; }
    }
  }

  /** The loaded artifacts are part of the closure, their bytes are counted, and what is pending is loaded. */
  ghost predicate Consistent(codec: Codec, rows: Rows, root: Envelope, pending: seq<Envelope>, loaded: map<Key, Envelope>, bytes: nat) {
    && LoadedFrom(codec, rows, root, loaded)
    && loaded.Keys - {root.logicalKey} <= rows.Keys
    && bytes == codec.bytes(root) + Total(Weights(codec, rows), loaded.Keys - {root.logicalKey})
    && (loaded.Keys != {root.logicalKey} ==> bytes <= BUDGET)
    && (forall p :: p in pending ==> p.logicalKey in loaded && loaded[p.logicalKey] == p)
  }

  /** What the cache holds under a key is what the table holds there, or the root. */
  lemma CachedIsStored(codec: Codec, rows: Rows, root: Envelope, loaded: map<Key, Envelope>, key: Key)
    requires LoadedFrom(codec, rows, root, loaded) && key in loaded
    ensures if key == root.logicalKey then loaded[key] == root else Prior(codec, rows, root.binding, key) == Some(loaded[key])
    ensures loaded[key].logicalKey == key
  {
  }

  lemma PendingStaysLoaded(pending: seq<Envelope>, loaded: map<Key, Envelope>, key: Key, prior: Envelope)
    requires key !in loaded && prior.logicalKey == key
    requires forall p :: p in pending ==> p.logicalKey in loaded && loaded[p.logicalKey] == p
    ensures var next := loaded[key := prior]; forall p :: p in pending + [prior] ==> p.logicalKey in next && next[p.logicalKey] == p
  {
  }

  lemma StaysConsistent(codec: Codec, rows: Rows, root: Envelope, pending: seq<Envelope>, loaded: map<Key, Envelope>, bytes: nat, from: Envelope, key: Key)
    requires Consistent(codec, rows, root, pending, loaded, bytes)
    requires from.logicalKey in loaded && loaded[from.logicalKey] == from
    requires key in Edges(from) && key !in loaded && Below(codec, rows, root.binding, from, key)
    requires bytes + ShownBytes(codec, rows[key]) <= BUDGET
    ensures var prior := Prior(codec, rows, root.binding, key).value;
            && Consistent(codec, rows, root, pending + [prior], loaded[key := prior], bytes + ShownBytes(codec, rows[key]))
            && |rows.Keys - loaded[key := prior].Keys| < |rows.Keys - loaded.Keys|
  {
    LoadOne(codec, rows, root, loaded, from, key);
    PendingStaysLoaded(pending, loaded, key, Prior(codec, rows, root.binding, key).value);
  }

  /** What a prior that stands lower than its dependent leaves of the walk. */
  lemma FetchedLower(codec: Codec, rows: Rows, root: Envelope, pending: seq<Envelope>, loaded: map<Key, Envelope>, bytes: nat,
                     from: Envelope, key: Key, prior: Envelope)
    requires Consistent(codec, rows, root, pending, loaded, bytes)
    requires AllAccounted(codec, rows, root.binding, loaded, pending, Some(from))
    requires from.logicalKey in loaded && loaded[from.logicalKey] == from
    requires key in Edges(from) && key !in loaded && Below(codec, rows, root.binding, from, key)
    requires Prior(codec, rows, root.binding, key) == Some(prior) && bytes + ShownBytes(codec, rows[key]) <= BUDGET
    ensures Consistent(codec, rows, root, pending + [prior], loaded[key := prior], bytes + ShownBytes(codec, rows[key]))
    ensures AllAccounted(codec, rows, root.binding, loaded[key := prior], pending + [prior], Some(from))
    ensures |rows.Keys - loaded[key := prior].Keys| < |rows.Keys - loaded.Keys|
  {
    StaysConsistent(codec, rows, root, pending, loaded, bytes, from, key);
    AccountedGrows(codec, rows, root.binding, loaded, pending, Some(from), key, prior);
  }

  /** Nothing left to look at: the root is acceptable. */
  lemma DoneMeansAcceptable(codec: Codec, rows: Rows, root: Envelope, loaded: map<Key, Envelope>, bytes: nat)
    requires WellFormed(codec, root) && Consistent(codec, rows, root, [], loaded, bytes)
    requires AllAccounted(codec, rows, root.binding, loaded, [], None)
    ensures Acceptable(codec, rows, root.binding, root)
  {
    LoadedIsClosure(codec, rows, root, loaded);
    AllChecked(codec, rows, root, loaded);
  }

  class Walk {
    const codec: Codec
    const rows: Rows
    const root: Envelope
    var pending: seq<Envelope>
    var loaded: map<Key, Envelope>
    var bytes: nat
    var overBudget: bool

    ghost predicate Valid()
      reads this
    {
      WellFormed(codec, root) && Consistent(codec, rows, root, pending, loaded, bytes) && !overBudget
    }

    ghost predicate Accounted(current: Option<Envelope>)
      reads this
    {
      AllAccounted(codec, rows, root.binding, loaded, pending, current)
    }

    ghost predicate Loaded(e: Envelope)
      reads this
    {
      e.logicalKey in loaded && loaded[e.logicalKey] == e
    }

    /** The root is refuted. If the budget was the reason, all that is stored exceeds it; otherwise some edge is broken. */
    ghost predicate Refuted()
      reads this
    {
      && !Acceptable(codec, rows, root.binding, root)
      && (overBudget || !Sound(codec, rows, root.binding, root))
      && (overBudget ==> codec.bytes(root) + Total(Weights(codec, rows), rows.Keys - {root.logicalKey}) > BUDGET)
    }

    ghost predicate Progress(loadedBefore: map<Key, Envelope>, pendingBefore: seq<Envelope>)
      reads this
    {
      (loaded == loadedBefore && pending == pendingBefore) || |rows.Keys - loaded.Keys| < |rows.Keys - loadedBefore.Keys|
    }

    constructor (codec: Codec, rows: Rows, root: Envelope)
      requires WellFormed(codec, root)
      ensures Valid() && Accounted(None) && this.codec == codec && this.rows == rows && this.root == root
    {
      this.codec, this.rows, this.root := codec, rows, root;
      pending, loaded := [root], map[root.logicalKey := root];
      bytes, overBudget := codec.bytes(root), false;
      new;
      assert loaded.Keys - {root.logicalKey} == {};
    }

    /** The bytes of the row are counted before it is decoded. */
    method Count(key: Key, from: Envelope) returns (within: bool)
      requires Valid() && Loaded(from) && key in Edges(from) && key !in loaded && key in rows
      modifies this`bytes, this`overBudget
      ensures within ==> bytes == old(bytes) + ShownBytes(codec, rows[key]) <= BUDGET && !overBudget
      ensures !within ==> Refuted() && overBudget
    {
      bytes := bytes + ShownBytes(codec, rows[key]);
      within := bytes <= BUDGET;
      if !within {
        overBudget := true;
        OverBudgetRefutes(codec, rows, root, loaded, from, key);
      }
    }

    method Fetch(key: Key, from: Envelope) returns (prior: Option<Envelope>)
      requires Valid() && Accounted(Some(from)) && Loaded(from) && key in Edges(from) && key !in loaded && key in rows
      modifies this
      ensures prior.None? ==> Refuted() && (overBudget || !Below(codec, rows, root.binding, from, key))
      ensures prior.Some? ==> !overBudget && prior == Prior(codec, rows, root.binding, key) && prior.value.logicalKey == key
      ensures prior.Some? && prior.value.order < from.order ==>
                && Valid() && Accounted(Some(from)) && loaded == old(loaded)[key := prior.value]
                && |rows.Keys - loaded.Keys| < |rows.Keys - old(loaded).Keys|
    {
      var within := Count(key, from);
      if !within { return None; }
      prior := Decode(codec, key, rows[key], root.binding);
      if prior == None {
        MissingRefutes(codec, rows, root, loaded, from, key);
        return None;
      }
      if prior.value.order < from.order {
        FetchedLower(codec, rows, root, pending, loaded, old(bytes), from, key, prior.value);
      }
      Keep(key, prior.value);
    }

    method Keep(key: Key, prior: Envelope)
      modifies this`loaded, this`pending
      ensures loaded == old(loaded)[key := prior] && pending == old(pending) + [prior]
    {
      loaded := loaded[key := prior];
      pending := pending + [prior];
    }

    method ReadPrior(key: Key, from: Envelope) returns (prior: Option<Envelope>)
      requires Valid() && Accounted(Some(from)) && Loaded(from) && key in Edges(from)
      modifies this
      ensures prior.None? ==> Refuted() && (overBudget || !Below(codec, rows, root.binding, from, key))
      ensures prior.Some? ==> !overBudget
      ensures prior.Some? ==> if key == root.logicalKey then prior == Some(root) else prior == Prior(codec, rows, root.binding, key)
      ensures prior.Some? && prior.value.order < from.order ==>
                && Valid() && Accounted(Some(from)) && Loaded(from) && Loaded(prior.value) && prior.value.logicalKey == key
                && old(loaded).Keys <= loaded.Keys && Progress(old(loaded), old(pending))
    {
      if key in loaded {
        CachedIsStored(codec, rows, root, loaded, key);
        return Some(loaded[key]);
      }
      if key !in rows {
        MissingRefutes(codec, rows, root, loaded, from, key);
        return None;
      }
      prior := Fetch(key, from);
    }

    method CheckDependency(current: Envelope, d: Dependency) returns (ok: bool)
      requires Valid() && Accounted(Some(current)) && Loaded(current) && d in DependenciesOf(current)
      modifies this
      ensures !ok ==> Refuted() && (overBudget || !DependencyHolds(codec, rows, root.binding, current, d))
      ensures ok ==>
                && Valid() && Accounted(Some(current)) && Loaded(current) && Progress(old(loaded), old(pending))
                && old(loaded).Keys <= loaded.Keys
                && d.key in loaded && DependencyHolds(codec, rows, root.binding, current, d)
    {
      assert d.key in Edges(current);
      ghost var before := loaded;
      var prior := ReadPrior(d.key, current);
      if prior == None { return false; }
      if prior.value.order >= current.order || codec.hash(prior.value) != d.payloadHash {
        FailedDependencyRefutes(codec, rows, root, before, current, d, prior.value);
        return false;
      }
      RootIsNoPrior(codec, rows, root, loaded, current, prior.value);
      ok := true;
    }

    /** The declared dependencies of one artifact, in order, refusing a repeated key. */
    method CheckDependencies(current: Envelope) returns (ok: bool)
      requires Valid() && Accounted(Some(current)) && Loaded(current)
      modifies this
      ensures !ok ==> Refuted() && (overBudget || AtFault(codec, rows, root.binding, current, DependencyReason))
      ensures ok ==>
                && Valid() && Accounted(Some(current)) && Loaded(current) && Progress(old(loaded), old(pending))
                && DependenciesHold(codec, rows, root.binding, loaded, current, |DependenciesOf(current)|)
    {
      var dependencies := DependenciesOf(current);
      var seen: set<Key> := {};
      var i := 0;
      while i < |dependencies|
        invariant 0 <= i <= |dependencies|
        invariant Valid() && Accounted(Some(current)) && Loaded(current) && Progress(old(loaded), old(pending))
        invariant Seen(dependencies, seen, i) && DependenciesHold(codec, rows, root.binding, loaded, current, i)
      {
        var dependency := dependencies[i];
        if dependency.key in seen {
          RepeatRefutes(codec, rows, root, loaded, current, seen, i);
          return false;
        }
        SeenGrows(dependencies, seen, i);
        seen := seen + {dependency.key};
        ghost var before := loaded;
        var holds := CheckDependency(current, dependency);
        if !holds { return false; }
        DependenciesGrow(codec, rows, root.binding, before, loaded, current, i);
        i := i + 1;
      }
      ok := true;
    }

    method ReadDecision(current: Envelope, key: Key) returns (prior: Option<Envelope>)
      requires Valid() && Accounted(Some(current)) && Loaded(current) && key in ImplicitEdges(current.artifact)
      modifies this
      ensures prior.None? ==> Refuted() && (overBudget || AtFault(codec, rows, root.binding, current, DecisionReason(current.artifact)))
      ensures prior.Some? ==> !overBudget && prior.value.order < current.order
      ensures prior.Some? ==>
                && Valid() && Accounted(Some(current)) && Loaded(current) && Progress(old(loaded), old(pending))
                && key in loaded && old(loaded).Keys <= loaded.Keys && prior == Prior(codec, rows, root.binding, key)
    {
      assert key in Edges(current);
      ghost var before := loaded;
      prior := ReadPrior(key, current);
      if prior.None? {
        if !overBudget { UnreadDecision(codec, rows, root.binding, current, key); }
      } else {
        if prior.value.order >= current.order {
          NotBelowRefutes(codec, rows, root, before, current, key, prior.value);
          UnreadDecision(codec, rows, root.binding, current, key);
          return None;
        }
        RootIsNoPrior(codec, rows, root, loaded, current, prior.value);
      }
    }

    /** A prepared decision rests on the settlement of the one before it. */
    method CheckPrepared(current: Envelope) returns (ok: bool)
      requires Valid() && Accounted(Some(current)) && Loaded(current) && current.artifact.Prepared? && current.artifact.sequence > 0
      modifies this
      ensures !ok ==> Refuted() && (overBudget || AtFault(codec, rows, root.binding, current, OrderReason))
      ensures ok ==> PassedDecision(current) && Progress(old(loaded), old(pending)) && old(loaded).Keys <= loaded.Keys
    {
      var prior := ReadDecision(current, SettledKey(current.artifact.sequence - 1));
      if prior == None { return false; }
      PreparedDecision(codec, rows, root.binding, current, prior.value);
      if !prior.value.artifact.Settled? {
        DecisionRefutes(codec, rows, root, loaded, current);
        return false;
      }
      ok := true;
    }

    method CheckSettled(current: Envelope) returns (reason: Option<Reason>)
      requires Valid() && Accounted(Some(current)) && Loaded(current) && current.artifact.Settled?
      modifies this
      ensures reason.Some? ==> Refuted() && (overBudget || AtFault(codec, rows, root.binding, current, reason.value))
      ensures reason.None? ==> PassedDecision(current) && Progress(old(loaded), old(pending)) && old(loaded).Keys <= loaded.Keys
    {
      var prior := ReadDecision(current, PreparedKey(current.artifact.sequence));
      if prior == None { return Some(PreparedMissing); }
      var p := prior.value;
      SettledDecision(codec, rows, root.binding, current, p);
      if !p.artifact.Prepared? {
        DecisionRefutes(codec, rows, root, loaded, current);
        return Some(PreparedMissing);
      }
      if p.artifact.decisionId != current.artifact.decisionId || codec.hash(p) != current.artifact.preparedHash {
        DecisionRefutes(codec, rows, root, loaded, current);
        return Some(PreparedMismatch);
      }
      reason := None;
    }

    ghost predicate PassedDecision(current: Envelope)
      reads this
    {
      && Valid() && Accounted(Some(current)) && Loaded(current)
      && DecisionHolds(codec, rows, root.binding, current) && ImplicitEdges(current.artifact) <= loaded.Keys
    }

    /** The edges of the decision log, which no artifact declares. */
    method CheckDecision(current: Envelope) returns (reason: Option<Reason>)
      requires Valid() && Accounted(Some(current)) && Loaded(current)
      modifies this
      ensures reason.Some? ==> Refuted() && (overBudget || AtFault(codec, rows, root.binding, current, reason.value))
      ensures reason.None? ==> PassedDecision(current) && Progress(old(loaded), old(pending)) && old(loaded).Keys <= loaded.Keys
    {
      if current.artifact.Prepared? && current.artifact.sequence > 0 {
        var ok := CheckPrepared(current);
        return if ok then None else Some(OrderReason);
      }
      if current.artifact.Settled? {
        reason := CheckSettled(current);
        return;
      }
      reason := None;
    }

    method CheckNext() returns (reason: Option<Reason>)
      requires Valid() && Accounted(None) && |pending| > 0
      modifies this
      ensures reason.Some? ==> Refuted() && (overBudget || Blames(codec, rows, root, reason.value))
      ensures reason.None? ==>
                && Valid() && Accounted(None)
                && ((loaded == old(loaded) && |pending| < |old(pending)|) || |rows.Keys - loaded.Keys| < |rows.Keys - old(loaded).Keys|)
    {
      var current := pending[|pending| - 1];
      assert current in pending;
      LoadedIsInside(codec, rows, root, loaded, current);
      PoppedIsAtHand(codec, rows, root.binding, loaded, pending);
      pending := pending[..|pending| - 1];
      var ok := CheckDependencies(current);
      if !ok { return Some(DependencyReason); }
      ghost var before := loaded;
      reason := CheckDecision(current);
      if reason.None? {
        NowChecked(codec, rows, root.binding, before, loaded, pending, current);
      }
    }

    method FirstMismatch() returns (reason: Option<Reason>)
      requires Valid() && Accounted(None)
      modifies this
      ensures reason.Some? ==> Refuted() && (overBudget || Blames(codec, rows, root, reason.value))
      ensures reason.None? ==> Acceptable(codec, rows, root.binding, root) && !overBudget
    {
      while |pending| > 0
        invariant Valid() && Accounted(None)
        decreases |rows.Keys - loaded.Keys|, |pending|
      {
        reason := CheckNext();
        if reason.Some? { return; }
      }
      assert pending == [];
      DoneMeansAcceptable(codec, rows, root, loaded, bytes);
      reason := None;
    }
  }

  /**
    The walk ends without a mismatch exactly when every artifact the envelope rests on, the implicit
    decision edges included, is present, same-binding, strictly lower in order and hash-matching, and
    their bytes fit the budget. It blames the budget only if all that is stored does not fit, and always
    if no edge is broken; any other reason names a fault that some artifact of the closure has.
   */
  method DependencyMismatch(codec: Codec, rows: Rows, e: Envelope) returns (reason: Option<Reason>)
    requires WellFormed(codec, e)
    ensures reason == None <==> Acceptable(codec, rows, e.binding, e)
    ensures reason.Some? && Sound(codec, rows, e.binding, e) ==> reason == Some(BudgetReason)
    ensures reason.Some? && reason != Some(BudgetReason) ==> Blames(codec, rows, e, reason.value)
    ensures reason == Some(BudgetReason) ==> codec.bytes(e) + Total(Weights(codec, rows), rows.Keys - {e.logicalKey}) > BUDGET
  {
    var walk := new Walk(codec, rows, e);
    reason := walk.FirstMismatch();
    if walk.overBudget { reason := Some(BudgetReason); }
  }
}

/**
  What an installation may do on one repository (src/agentWork/githubCapabilityRepository.ts): an
  observation with a generation, and per head the two CI sources that follow it.
 */
module Capabilities {
  import opened Wrappers

  datatype Access = Available | Denied | Unknown

  datatype Source = Checks | Statuses

  type Operation = string

  type Head = string

  type Capabilities = map<Operation, Access>

  datatype Observation = Observation(generation: nat, capabilities: Capabilities)

  datatype SourceRow = SourceRow(generation: nat, access: Access, listingRequired: bool, unknownReads: nat)

  datatype SourceKey = SourceKey(head: Head, source: Source)

  datatype HeadState = HeadState(version: nat, repairPending: bool)

  type Sources = map<SourceKey, SourceRow>

  datatype State = State(observation: Option<Observation>, heads: map<Head, HeadState>, sources: Sources)

  const SOURCES: seq<Source> := [Checks, Statuses]
  const FANOUT_BATCH_SIZE: nat := 100

  function ReadOperation(source: Source): Operation { if source == Checks then "checksRead" else "statusesRead" }

  /** A missing capability counts as unknown. */
  function AccessTo(capabilities: Capabilities, op: Operation): Access {
    if op in capabilities then capabilities[op] else Unknown
  }

  function GenerationOf(observation: Option<Observation>): nat { if observation.Some? then observation.value.generation else 0 }

  function Desired(observation: Option<Observation>, source: Source): Access {
    if observation.Some? then AccessTo(observation.value.capabilities, ReadOperation(source)) else Unknown
  }

  // ----- The observation -----

  /** The upsert: prior denials survive unless the new observation knows better. */
  function Merged(prior: Capabilities, next: Capabilities): Capabilities {
    map op | op in prior.Keys + next.Keys && (op in next || prior[op] == Denied) ::
      if op in prior && prior[op] == Denied && AccessTo(next, op) == Unknown then Denied else next[op]
  }

  predicate Saves(observation: Option<Observation>, next: Observation) {
    observation.Some? ==> observation.value.generation < next.generation
  }

  function SavedObservation(observation: Option<Observation>, next: Observation): Observation {
    if observation.None? then next
    else if Saves(observation, next) then Observation(next.generation, Merged(observation.value.capabilities, next.capabilities))
    else observation.value
  }

  predicate Denies(observation: Option<Observation>, generation: nat, op: Operation) {
    observation.Some? && observation.value.generation == generation && AccessTo(observation.value.capabilities, op) != Denied
  }

  function DeniedObservation(observation: Option<Observation>, generation: nat, op: Operation): Option<Observation> {
    if Denies(observation, generation, op)
    then Some(observation.value.(capabilities := observation.value.capabilities[op := Denied]))
    else observation
  }

  // ----- One source row follows the observation -----

  function RowAt(sources: Sources, key: SourceKey): Option<SourceRow> { if key in sources then Some(sources[key]) else None }

  predicate SyncWrites(row: Option<SourceRow>, generation: nat, access: Access) {
    row.None? || row.value.generation < generation
    || (row.value.generation == generation && access == Denied && row.value.access != Denied)
  }

  function SyncedRow(row: Option<SourceRow>, generation: nat, access: Access): SourceRow {
    if row.None? then SourceRow(generation, access, true, 0)
    else if SyncWrites(row, generation, access) then
      SourceRow(generation, access, row.value.access != access || row.value.listingRequired, 0)
    else row.value
  }

  predicate SyncChanges(row: Option<SourceRow>, generation: nat, access: Access) {
    SyncWrites(row, generation, access) && (row.Some? ==> row.value.access != access)
  }

  predicate SyncReopens(row: Option<SourceRow>, generation: nat, access: Access) {
    SyncWrites(row, generation, access) && row.Some? && row.value.access == Unknown && row.value.unknownReads > 0
  }

  function NewRow(s: State, head: Head, source: Source): SourceRow {
    SyncedRow(RowAt(s.sources, SourceKey(head, source)), GenerationOf(s.observation), Desired(s.observation, source))
  }

  predicate Changes(s: State, head: Head, source: Source) {
    SyncChanges(RowAt(s.sources, SourceKey(head, source)), GenerationOf(s.observation), Desired(s.observation, source))
  }

  predicate Reopens(s: State, head: Head, source: Source) {
    SyncReopens(RowAt(s.sources, SourceKey(head, source)), GenerationOf(s.observation), Desired(s.observation, source))
  }

  /** Both rows of a head, and its version: bumped when an access changed, repaired also when one reopened. */
  function Synced(s: State, head: Head): State {
    var changed := Changes(s, head, Checks) || Changes(s, head, Statuses);
    var reopened := Reopens(s, head, Checks) || Reopens(s, head, Statuses);
    s.(sources := s.sources[SourceKey(head, Checks) := NewRow(s, head, Checks)][SourceKey(head, Statuses) := NewRow(s, head, Statuses)],
       heads := if head in s.heads && (changed || reopened)
                then s.heads[head := HeadState(s.heads[head].version + (if changed then 1 else 0), true)]
                else s.heads)
  }

  function SyncedHeads(s: State, heads: seq<Head>): State
    decreases |heads|
  {
    if heads == [] then s else SyncedHeads(Synced(s, heads[0]), heads[1..])
  }

  /** Heads of the repository that already have source rows. */
  predicate Fans(s: State, head: Head) {
    head in s.heads && (SourceKey(head, Checks) in s.sources || SourceKey(head, Statuses) in s.sources)
  }

  // ----- Reads -----

  predicate ReadWrites(row: Option<SourceRow>, generation: nat, access: Access, complete: bool) {
    && row.Some? && row.value.generation == generation
    && !(row.value.access == Denied && access != Denied)
    && (row.value.access != access || row.value.listingRequired != !(access == Available && complete) || access == Unknown)
  }

  predicate ReadChanges(row: Option<SourceRow>, generation: nat, access: Access, complete: bool) {
    && ReadWrites(row, generation, access, complete)
    && (row.value.access != access || row.value.listingRequired != !(access == Available && complete))
  }

  function ReadRow(row: SourceRow, access: Access, complete: bool): SourceRow {
    row.(access := access, listingRequired := !(access == Available && complete),
         unknownReads := if access == Unknown then row.unknownReads + 1 else 0)
  }

  function Recorded(s: State, head: Head, source: Source, generation: nat, access: Access, complete: bool): State {
    var synced := Synced(s, head);
    var key := SourceKey(head, source);
    var row := RowAt(synced.sources, key);
    if ReadWrites(row, generation, access, complete) then
      synced.(sources := synced.sources[key := ReadRow(row.value, access, complete)],
              heads := if head in synced.heads && ReadChanges(row, generation, access, complete)
                       then synced.heads[head := synced.heads[head].(version := synced.heads[head].version + 1)]
                       else synced.heads)
    else synced
  }

  datatype SourceState = SourceState(access: Access, listingRequired: bool, unknownReads: nat)

  datatype Availability = Availability(checks: SourceState, statuses: SourceState, generation: nat)

  /** A source without a row follows the observation, and its listing is required. */
  function Reported(s: State, head: Head, source: Source): SourceState {
    match RowAt(s.sources, SourceKey(head, source))
    case Some(row) => SourceState(row.access, row.listingRequired, row.unknownReads)
    case None => SourceState(Desired(s.observation, source), true, 0)
  }

  // ----- The repository object -----

  class Repository {
    var state: State

    constructor ()
      ensures state == State(None, map[], map[])
    {
      state := State(None, map[], map[]);
    }

    method SyncSources(head: Head)
      requires head in state.heads
      modifies this
      ensures state == Synced(old(state), head)
    {
      var generation := GenerationOf(state.observation);
      var changed, reopened := false, false;
      var sources := state.sources;
      var i := 0;
      while i < |SOURCES|
        invariant 0 <= i <= |SOURCES|
        invariant sources == if i == 0 then state.sources
                             else if i == 1 then state.sources[SourceKey(head, Checks) := NewRow(state, head, Checks)]
                             else Synced(state, head).sources
        invariant changed <==> (i >= 1 && Changes(state, head, Checks)) || (i >= 2 && Changes(state, head, Statuses))
        invariant reopened <==> (i >= 1 && Reopens(state, head, Checks)) || (i >= 2 && Reopens(state, head, Statuses))
      {
        var key := SourceKey(head, SOURCES[i]);
        var access, row := Desired(state.observation, SOURCES[i]), RowAt(sources, key);
        changed := changed || SyncChanges(row, generation, access);
        reopened := reopened || SyncReopens(row, generation, access);
        sources := sources[key := SyncedRow(row, generation, access)];
        i := i + 1;
      }
      var heads := state.heads;
      if changed || reopened {
        heads := heads[head := HeadState(heads[head].version + (if changed then 1 else 0), true)];
      }
      state := state.(sources := sources, heads := heads);
    }

    /** `batch` is the first hundred heads with source rows, in some order. */
    method Fanout(batch: seq<Head>)
      requires |batch| <= FANOUT_BATCH_SIZE && forall h :: h in batch ==> Fans(state, h)
      modifies this
      ensures state == SyncedHeads(old(state), batch)
    {
      var i := 0;
      while i < |batch|
        invariant 0 <= i <= |batch|
        invariant SyncedHeads(state, batch[i..]) == SyncedHeads(old(state), batch)
        invariant forall h :: h in batch ==> h in state.heads
      {
        assert batch[i..][0] == batch[i] && batch[i..][1..] == batch[i + 1..];
        SyncSources(batch[i]);
        i := i + 1;
      }
    }

    /** A negative generation is refused before anything is read. */
    method SaveObservation(generation: int, capabilities: Capabilities, batch: seq<Head>) returns (saved: Option<bool>)
      requires |batch| <= FANOUT_BATCH_SIZE && forall h :: h in batch ==> Fans(state, h)
      modifies this
      ensures saved.None? <==> generation < 0
      ensures saved != Some(true) ==> state == old(state)
      ensures saved.Some? ==> (saved.value <==> Saves(old(state.observation), Observation(generation, capabilities)))
      ensures saved == Some(true) ==>
                state == SyncedHeads(old(state).(observation := Some(SavedObservation(old(state.observation), Observation(generation, capabilities)))), batch)
    {
      if generation < 0 { return None; }
      var next := Observation(generation, capabilities);
      if !Saves(state.observation, next) { return Some(false); }
      state := state.(observation := Some(SavedObservation(state.observation, next)));
      Fanout(batch);
      saved := Some(true);
    }

    method RecordDenial(generation: nat, op: Operation, batch: seq<Head>) returns (recorded: bool)
      requires |batch| <= FANOUT_BATCH_SIZE && forall h :: h in batch ==> Fans(state, h)
      modifies this
      ensures recorded <==> Denies(old(state.observation), generation, op)
      ensures state == if recorded then SyncedHeads(old(state).(observation := DeniedObservation(old(state.observation), generation, op)), batch) else old(state)
    {
      recorded := Denies(state.observation, generation, op);
      if recorded {
        state := state.(observation := DeniedObservation(state.observation, generation, op));
        Fanout(batch);
      }
    }

    method Load(head: Head) returns (r: Availability)
      modifies this
      ensures state == if head in old(state.heads) then Synced(old(state), head) else old(state)
      ensures r == Availability(Reported(state, head, Checks), Reported(state, head, Statuses), GenerationOf(state.observation))
    {
      if head in state.heads { SyncSources(head); }
      r := Availability(Reported(state, head, Checks), Reported(state, head, Statuses), GenerationOf(state.observation));
    }

    /** Without a head row the insert of its sources violates their foreign key and everything is rolled back. */
    method RecordRead(head: Head, source: Source, generation: nat, access: Access, complete: bool) returns (changed: Option<bool>)
      modifies this
      ensures changed.None? <==> head !in old(state.heads)
      ensures state == if changed.Some? then Recorded(old(state), head, source, generation, access, complete) else old(state)
    {
      if head !in state.heads { return None; }
      SyncSources(head);
      var key := SourceKey(head, source);
      var row := RowAt(state.sources, key);
      if !ReadWrites(row, generation, access, complete) { return Some(false); }
      var bump := ReadChanges(row, generation, access, complete);
      var heads := state.heads;
      if bump { heads := heads[head := heads[head].(version := heads[head].version + 1)]; }
      state := state.(sources := state.sources[key := ReadRow(row.value, access, complete)], heads := heads);
      changed := Some(bump);
    }
  }
}

/** Generations and denials over whole runs. */
module CapabilityRuns {
  import opened Wrappers
  import opened Capabilities

  datatype Step =
    | SaveStep(next: Observation, batch: seq<Head>)
    | DenyStep(generation: nat, op: Operation, batch: seq<Head>)
    | LoadStep(head: Head)
    | ReadStep(head: Head, source: Source, generation: nat, access: Access, complete: bool)
    | NewHead(head: Head)
    | TouchHead(head: Head, bump: bool)    // other writers of a head's version

  predicate Enabled(s: State, step: Step) {
    match step
    case SaveStep(_, batch) => forall h :: h in batch ==> h in s.heads
    case DenyStep(_, _, batch) => forall h :: h in batch ==> h in s.heads
    case ReadStep(head, _, _, _, _) => head in s.heads
    case _ => true
  }

  function Apply(s: State, step: Step): State {
    match step
    case SaveStep(next, batch) =>
      if Saves(s.observation, next) then SyncedHeads(s.(observation := Some(SavedObservation(s.observation, next))), batch) else s
    case DenyStep(generation, op, batch) =>
      if Denies(s.observation, generation, op) then SyncedHeads(s.(observation := DeniedObservation(s.observation, generation, op)), batch) else s
    case LoadStep(head) => if head in s.heads then Synced(s, head) else s
    case ReadStep(head, source, generation, access, complete) => Recorded(s, head, source, generation, access, complete)
    case NewHead(head) => if head in s.heads then s else s.(heads := s.heads[head := HeadState(0, false)])
    case TouchHead(head, bump) =>
      if head in s.heads then s.(heads := s.heads[head := HeadState(s.heads[head].version + (if bump then 1 else 0), false)]) else s
  }

  predicate IsRun(s: State, steps: seq<Step>)
    decreases |steps|
  {
    steps == [] || (Enabled(s, steps[0]) && IsRun(Apply(s, steps[0]), steps[1..]))
  }

  function Run(s: State, steps: seq<Step>): State
    decreases |steps|
  {
    if steps == [] then s else Run(Apply(s, steps[0]), steps[1..])
  }

  /** Sources never run ahead of the observation, and belong to known heads. */
  predicate Follows(s: State) {
    forall key :: key in s.sources ==> s.sources[key].generation <= GenerationOf(s.observation) && key.head in s.heads
  }

  /** What a step may do to one source row. */
  predicate RowSucceeds(r: SourceRow, r': SourceRow) {
    r.generation <= r'.generation && (r.access == Denied && r'.generation == r.generation ==> r'.access == Denied)
  }

  predicate SourcesSucceed(s: State, s': State) {
    forall key :: key in s.sources ==> key in s'.sources && RowSucceeds(s.sources[key], s'.sources[key])
  }

  lemma SyncFollows(s: State, head: Head)
    requires Follows(s) && head in s.heads
    ensures Follows(Synced(s, head)) && SourcesSucceed(s, Synced(s, head))
    ensures Synced(s, head).observation == s.observation && Synced(s, head).heads.Keys == s.heads.Keys
  {
  }

  lemma {:induction false} FanoutFollows(s: State, batch: seq<Head>)
    requires Follows(s) && forall h :: h in batch ==> h in s.heads
    ensures Follows(SyncedHeads(s, batch)) && SourcesSucceed(s, SyncedHeads(s, batch))
    ensures SyncedHeads(s, batch).observation == s.observation
    decreases |batch|
  {
    if batch != [] {
      SyncFollows(s, batch[0]);
      FanoutFollows(Synced(s, batch[0]), batch[1..]);
      RowsCompose(s, Synced(s, batch[0]), SyncedHeads(s, batch));
    }
  }

  lemma RowsCompose(s: State, t: State, u: State)
    requires SourcesSucceed(s, t) && SourcesSucceed(t, u)
    ensures SourcesSucceed(s, u)
  {
    forall key | key in s.sources ensures key in u.sources && RowSucceeds(s.sources[key], u.sources[key]) {
      assert RowSucceeds(s.sources[key], t.sources[key]) && RowSucceeds(t.sources[key], u.sources[key]);
    }
  }

  lemma StepFollows(s: State, step: Step)
    requires Follows(s) && Enabled(s, step)
    ensures Follows(Apply(s, step)) && SourcesSucceed(s, Apply(s, step))
    ensures GenerationOf(s.observation) <= GenerationOf(Apply(s, step).observation) && (s.observation.Some? ==> Apply(s, step).observation.Some?)
  {
    match step
    case SaveStep(next, batch) =>
      if Saves(s.observation, next) { FanoutFollows(s.(observation := Some(SavedObservation(s.observation, next))), batch); }
    case DenyStep(generation, op, batch) =>
      if Denies(s.observation, generation, op) { FanoutFollows(s.(observation := DeniedObservation(s.observation, generation, op)), batch); }
    case LoadStep(head) => if head in s.heads { SyncFollows(s, head); }
    case ReadStep(head, _, _, _, _) => SyncFollows(s, head);
    case _ =>
  }

  /**
    Generations never decrease, of the repository and of each source; and within one generation a denied
    source stays denied.
   */
  lemma {:induction false} GenerationsGrow(s: State, steps: seq<Step>)
    requires Follows(s) && IsRun(s, steps)
    ensures Follows(Run(s, steps)) && SourcesSucceed(s, Run(s, steps))
    ensures GenerationOf(s.observation) <= GenerationOf(Run(s, steps).observation)
    decreases |steps|
  {
    if steps != [] {
      StepFollows(s, steps[0]);
      GenerationsGrow(Apply(s, steps[0]), steps[1..]);
      RowsCompose(s, Apply(s, steps[0]), Run(s, steps));
    }
  }

  // ----- Denied operations -----

  predicate DeniedOp(s: State, op: Operation) { s.observation.Some? && AccessTo(s.observation.value.capabilities, op) == Denied }

  /** A strictly newer observation that reports the operation available. */
  predicate Restores(s: State, step: Step, op: Operation) {
    step.SaveStep? && Saves(s.observation, step.next) && AccessTo(step.next.capabilities, op) == Available
  }

  lemma {:induction false} FanoutKeepsObservation(s: State, batch: seq<Head>)
    ensures SyncedHeads(s, batch).observation == s.observation
    decreases |batch|
  {
    if batch != [] { FanoutKeepsObservation(Synced(s, batch[0]), batch[1..]); }
  }

  /** A step makes a denied operation not denied exactly when it is such an observation. */
  lemma DenialsEndExactly(s: State, step: Step, op: Operation)
    requires DeniedOp(s, op)
    ensures DeniedOp(Apply(s, step), op) <==> !Restores(s, step, op)
  {
    match step
    case SaveStep(next, batch) =>
      FanoutKeepsObservation(s.(observation := Some(SavedObservation(s.observation, next))), batch);
    case DenyStep(generation, denied, batch) =>
      FanoutKeepsObservation(s.(observation := DeniedObservation(s.observation, generation, denied)), batch);
    case _ =>
  }

  predicate NeverRestored(s: State, steps: seq<Step>, op: Operation)
    decreases |steps|
  {
    steps == [] || (!Restores(s, steps[0], op) && NeverRestored(Apply(s, steps[0]), steps[1..], op))
  }

  lemma {:induction false} DenialsStick(s: State, steps: seq<Step>, op: Operation)
    requires DeniedOp(s, op) && NeverRestored(s, steps, op)
    ensures DeniedOp(Run(s, steps), op)
    decreases |steps|
  {
    if steps != [] {
      DenialsEndExactly(s, steps[0], op);
      DenialsStick(Apply(s, steps[0]), steps[1..], op);
    }
  }

  // ----- Loads -----

  /**
    Whatever was saved, denied, read and loaded before, a load of an existing head reports a source denied
    whenever the stored observation denies it.
   */
  lemma LoadsRespectDenials(steps: seq<Step>, head: Head, source: Source)
    requires IsRun(State(None, map[], map[]), steps)
    requires var s := Run(State(None, map[], map[]), steps); head in s.heads && Desired(s.observation, source) == Denied
    ensures var s := Run(State(None, map[], map[]), steps); Reported(Apply(s, LoadStep(head)), head, source).access == Denied
  {
    GenerationsGrow(State(None, map[], map[]), steps);
  }

  /** A read reported under a denial, or under a generation that is no longer current, does not count. */
  lemma StaleReadsDoNotCount(steps: seq<Step>, head: Head, source: Source, generation: nat, access: Access, complete: bool)
    requires IsRun(State(None, map[], map[]), steps) && access != Denied
    requires var s := Run(State(None, map[], map[]), steps);
             head in s.heads && (Desired(s.observation, source) == Denied || generation != GenerationOf(s.observation))
    ensures var s := Run(State(None, map[], map[]), steps);
            Recorded(s, head, source, generation, access, complete) == Synced(s, head)
  {
    GenerationsGrow(State(None, map[], map[]), steps);
  }

  // ----- Listings and versions -----

  /** A listing is dispensable only where a complete one was available; unknown reads are counted only while unknown. */
  predicate Tidy(r: SourceRow) {
    (!r.listingRequired ==> r.access == Available) && (r.unknownReads > 0 ==> r.access == Unknown)
  }

  /** Versions never go back, and one that stayed means that no access of the head moved. */
  predicate Versioned(s: State, s': State) {
    forall head :: head in s.heads ==>
      && head in s'.heads && s.heads[head].version <= s'.heads[head].version
      && (s.heads[head].version == s'.heads[head].version ==>
            forall source :: SourceKey(head, source) in s'.sources ==>
              SourceKey(head, source) in s.sources && s'.sources[SourceKey(head, source)].access == s.sources[SourceKey(head, source)].access)
  }

  predicate AllTidy(s: State) { forall key :: key in s.sources ==> Tidy(s.sources[key]) }

  lemma SyncIsVersioned(s: State, head: Head)
    requires head in s.heads && AllTidy(s)
    ensures Versioned(s, Synced(s, head)) && AllTidy(Synced(s, head))
  {
  }

  lemma VersionsCompose(s: State, t: State, u: State)
    requires Versioned(s, t) && Versioned(t, u)
    ensures Versioned(s, u)
  {
  }

  lemma {:induction false} FanoutIsVersioned(s: State, batch: seq<Head>)
    requires AllTidy(s) && forall h :: h in batch ==> h in s.heads
    ensures Versioned(s, SyncedHeads(s, batch)) && AllTidy(SyncedHeads(s, batch))
    decreases |batch|
  {
    if batch != [] {
      SyncIsVersioned(s, batch[0]);
      FanoutIsVersioned(Synced(s, batch[0]), batch[1..]);
      VersionsCompose(s, Synced(s, batch[0]), SyncedHeads(s, batch));
    }
  }

  lemma ReadIsVersioned(s: State, head: Head, source: Source, generation: nat, access: Access, complete: bool)
    requires AllTidy(s) && head in s.heads
    ensures var s' := Recorded(s, head, source, generation, access, complete); Versioned(s, s') && AllTidy(s')
  {
    SyncIsVersioned(s, head);
  }

  lemma StepIsVersioned(s: State, step: Step)
    requires Enabled(s, step) && AllTidy(s)
    ensures Versioned(s, Apply(s, step)) && AllTidy(Apply(s, step))
  {
    match step
    case SaveStep(next, batch) =>
      if Saves(s.observation, next) { FanoutIsVersioned(s.(observation := Some(SavedObservation(s.observation, next))), batch); }
    case DenyStep(generation, op, batch) =>
      if Denies(s.observation, generation, op) { FanoutIsVersioned(s.(observation := DeniedObservation(s.observation, generation, op)), batch); }
    case LoadStep(head) => if head in s.heads { SyncIsVersioned(s, head); }
    case ReadStep(head, source, generation, access, complete) => ReadIsVersioned(s, head, source, generation, access, complete);
    case _ =>
  }

  /**
    A head whose version did not change over a run has the sources it had: none was added and none changed
    its access. And a listing is skipped only where the last read was available and complete.
   */
  lemma {:induction false} SameVersionSameSources(s: State, steps: seq<Step>)
    requires AllTidy(s) && IsRun(s, steps)
    ensures Versioned(s, Run(s, steps)) && AllTidy(Run(s, steps))
    decreases |steps|
  {
    if steps != [] {
      StepIsVersioned(s, steps[0]);
      SameVersionSameSources(Apply(s, steps[0]), steps[1..]);
      VersionsCompose(s, Apply(s, steps[0]), Run(s, steps));
    }
  }

  // ----- What loads and reads report, from the stored rows and the observation -----

  /** The two operations by name; what an observation does not mention is unknown. */
  function ObservedAccess(o: Option<Observation>, source: Source): Access {
    match o
    case None => Unknown
    case Some(seen) =>
      match source
      case Checks => if "checksRead" in seen.capabilities then seen.capabilities["checksRead"] else Unknown
      case Statuses => if "statusesRead" in seen.capabilities then seen.capabilities["statusesRead"] else Unknown
  }

  /** What a row becomes once the observation was compared with it. */
  function Followed(row: Option<SourceRow>, generation: nat, access: Access): SourceState {
    match row
    case None => SourceState(access, true, 0)
    case Some(r) =>
      if r.generation < generation then SourceState(access, r.listingRequired || r.access != access, 0)
      else if access == Denied && r.access != Denied then SourceState(Denied, true, 0)
      else SourceState(r.access, r.listingRequired, r.unknownReads)
  }

  function CurrentGeneration(s: State): nat {
    match s.observation
    case None => 0
    case Some(o) => o.generation
  }

  /**
    A load of a known head: a new source and one of an older generation report the observation, a current
    one keeps what was read unless the observation denies it. The version moves with the access.
   */
  lemma LoadsReportExactly(steps: seq<Step>, head: Head, source: Source)
    requires IsRun(State(None, map[], map[]), steps) && head in Run(State(None, map[], map[]), steps).heads
    ensures var s := Run(State(None, map[], map[]), steps);
            var after := Apply(s, LoadStep(head));
            Reported(after, head, source) == Followed(RowAt(s.sources, SourceKey(head, source)), CurrentGeneration(s), ObservedAccess(s.observation, source))
  {
    GenerationsGrow(State(None, map[], map[]), steps);
  }

  /** A source whose access a sync changes, or that is new. */
  predicate Moves(s: State, after: State, head: Head, source: Source) {
    var row := RowAt(s.sources, SourceKey(head, source));
    row.None? || Reported(after, head, source).access != row.value.access
  }

  /** A source of an older generation whose last reads could not tell. */
  predicate Stuck(s: State, head: Head, source: Source) {
    var row := RowAt(s.sources, SourceKey(head, source));
    row.Some? && row.value.generation < CurrentGeneration(s) && row.value.access == Unknown && row.value.unknownReads > 0
  }

  /** A load bumps the version by one exactly if an access moved, and then, or if reads were stuck, asks for a repair. */
  lemma LoadsBumpExactly(steps: seq<Step>, head: Head)
    requires IsRun(State(None, map[], map[]), steps) && head in Run(State(None, map[], map[]), steps).heads
    ensures var s := Run(State(None, map[], map[]), steps);
            var after := Apply(s, LoadStep(head));
            var moved := Moves(s, after, head, Checks) || Moves(s, after, head, Statuses);
            && head in after.heads && after.heads[head].version == s.heads[head].version + (if moved then 1 else 0)
            && (after.heads[head].repairPending <==>
                  s.heads[head].repairPending || moved || Stuck(s, head, Checks) || Stuck(s, head, Statuses))
            && forall other :: other in s.heads && other != head ==> other in after.heads && after.heads[other] == s.heads[other]
  {
    GenerationsGrow(State(None, map[], map[]), steps);
  }

  lemma {:induction false} FanoutReaches(s: State, batch: seq<Head>, head: Head, source: Source)
    ensures var key := SourceKey(head, source);
            RowAt(SyncedHeads(s, batch).sources, key) == if head in batch then RowAt(Synced(s, head).sources, key) else RowAt(s.sources, key)
    decreases |batch|
  {
    if batch != [] { FanoutReaches(Synced(s, batch[0]), batch[1..], head, source); }
  }

  /** Where the new observation is fanned out, both sources follow it at once, as a load would make them. */
  lemma FanoutFollowsAtOnce(steps: seq<Step>, next: Observation, batch: seq<Head>, head: Head, source: Source)
    requires IsRun(State(None, map[], map[]), steps) && Enabled(Run(State(None, map[], map[]), steps), SaveStep(next, batch)) && head in batch
    ensures var s := Run(State(None, map[], map[]), steps);
            var after := Apply(s, SaveStep(next, batch));
            after.observation != s.observation ==>
              Reported(after, head, source) == Followed(RowAt(s.sources, SourceKey(head, source)), next.generation, ObservedAccess(after.observation, source))
  {
    GenerationsGrow(State(None, map[], map[]), steps);
    var s := Run(State(None, map[], map[]), steps);
    if Saves(s.observation, next) {
      var saved := s.(observation := Some(SavedObservation(s.observation, next)));
      FanoutReaches(saved, batch, head, source);
      FanoutKeepsObservation(saved, batch);
    }
  }

  /** An unknown head has no sources, and a load reports the observation without storing anything. */
  lemma UnknownHeadsReport(steps: seq<Step>, head: Head, source: Source)
    requires IsRun(State(None, map[], map[]), steps) && head !in Run(State(None, map[], map[]), steps).heads
    ensures var s := Run(State(None, map[], map[]), steps);
            && Apply(s, LoadStep(head)) == s
            && Reported(s, head, source) == SourceState(ObservedAccess(s.observation, source), true, 0)
  {
    GenerationsGrow(State(None, map[], map[]), steps);
  }

  /** A read counts exactly under the current generation, unless it contradicts a denial; then its report is stored. */
  function AfterRead(loaded: SourceState, current: bool, access: Access, complete: bool): SourceState {
    if current && (loaded.access == Denied ==> access == Denied)
    then SourceState(access, !(access == Available && complete), if access == Unknown then loaded.unknownReads + 1 else 0)
    else loaded
  }

  function AsState(r: SourceRow): SourceState { SourceState(r.access, r.listingRequired, r.unknownReads) }

  lemma ReadOfRow(row: SourceRow, generation: nat, access: Access, complete: bool)
    requires Tidy(row)
    ensures var written := ReadWrites(Some(row), generation, access, complete);
            var next := if written then ReadRow(row, access, complete) else row;
            && AsState(next) == AfterRead(AsState(row), row.generation == generation, access, complete)
            && (ReadChanges(Some(row), generation, access, complete) <==> next.access != row.access || next.listingRequired != row.listingRequired)
  {
  }

  lemma SyncedIsCurrent(s: State, head: Head, source: Source)
    requires Follows(s) && AllTidy(s)
    ensures var row := RowAt(Synced(s, head).sources, SourceKey(head, source)); row.Some? && row.value.generation == GenerationOf(s.observation) && Tidy(row.value)
  {
  }

  lemma ReadOfSynced(s: State, head: Head, source: Source, generation: nat, access: Access, complete: bool)
    requires Follows(s) && AllTidy(s) && head in s.heads
    ensures var loaded, after := Synced(s, head), Recorded(s, head, source, generation, access, complete);
            var l, r := Reported(loaded, head, source), Reported(after, head, source);
            && r == AfterRead(l, generation == GenerationOf(s.observation), access, complete)
            && (forall other :: other != source ==> Reported(after, head, other) == Reported(loaded, head, other))
            && head in after.heads && head in loaded.heads
            && after.heads[head].version == loaded.heads[head].version
                 + (if r.access != l.access || r.listingRequired != l.listingRequired then 1 else 0)
  {
    SyncedIsCurrent(s, head, source);
    ReadOfRow(RowAt(Synced(s, head).sources, SourceKey(head, source)).value, generation, access, complete);
  }

  lemma ReadsReportExactly(steps: seq<Step>, head: Head, source: Source, generation: nat, access: Access, complete: bool)
    requires IsRun(State(None, map[], map[]), steps) && head in Run(State(None, map[], map[]), steps).heads
    ensures var s := Run(State(None, map[], map[]), steps);
            var loaded, after := Apply(s, LoadStep(head)), Apply(s, ReadStep(head, source, generation, access, complete));
            var l, r := Reported(loaded, head, source), Reported(after, head, source);
            && r == AfterRead(l, generation == CurrentGeneration(s), access, complete)
            && (forall other :: other != source ==> Reported(after, head, other) == Reported(loaded, head, other))
            && head in after.heads && head in loaded.heads
            && after.heads[head].version == loaded.heads[head].version
                 + (if r.access != l.access || r.listingRequired != l.listingRequired then 1 else 0)
  {
    GenerationsGrow(State(None, map[], map[]), steps);
    SameVersionSameSources(State(None, map[], map[]), steps);
    ReadOfSynced(Run(State(None, map[], map[]), steps), head, source, generation, access, complete);
  }

  /** A strictly newer observation is stored as reported, but for denials that it knows nothing about. */
  lemma SavesExactly(s: State, next: Observation, batch: seq<Head>, op: Operation)
    ensures var after := Apply(s, SaveStep(next, batch)).observation;
            if s.observation.None? then after == Some(next)
            else if s.observation.value.generation >= next.generation then after == s.observation
            else
              && after.Some? && after.value.generation == next.generation
              && AccessTo(after.value.capabilities, op) ==
                   if AccessTo(s.observation.value.capabilities, op) == Denied && AccessTo(next.capabilities, op) == Unknown
                   then Denied else AccessTo(next.capabilities, op)
  {
    FanoutKeepsObservation(s.(observation := Some(SavedObservation(s.observation, next))), batch);
  }

  /** A denial is recorded exactly under the stored generation, for that operation alone. */
  lemma DenialsRecordExactly(s: State, generation: nat, op: Operation, batch: seq<Head>, other: Operation)
    ensures var after := Apply(s, DenyStep(generation, op, batch)).observation;
            var counts := s.observation.Some? && s.observation.value.generation == generation;
            && (after.Some? <==> s.observation.Some?)
            && (after.Some? ==>
                  && after.value.generation == s.observation.value.generation
                  && AccessTo(after.value.capabilities, other) ==
                       (if counts && other == op then Denied else AccessTo(s.observation.value.capabilities, other)))
  {
    FanoutKeepsObservation(s.(observation := DeniedObservation(s.observation, generation, op)), batch);
  }

  /** And it reaches the sources of the heads it is fanned out to at once. */
  lemma DenialsReachAtOnce(steps: seq<Step>, generation: nat, batch: seq<Head>, head: Head, source: Source)
    requires IsRun(State(None, map[], map[]), steps) && head in batch
    requires var s := Run(State(None, map[], map[]), steps);
             Enabled(s, DenyStep(generation, "", batch)) && s.observation.Some? && s.observation.value.generation == generation
             && ObservedAccess(s.observation, source) != Denied
    ensures var op := (match source case Checks => "checksRead" case Statuses => "statusesRead");
            Reported(Apply(Run(State(None, map[], map[]), steps), DenyStep(generation, op, batch)), head, source).access == Denied
  {
    GenerationsGrow(State(None, map[], map[]), steps);
    var s, op := Run(State(None, map[], map[]), steps), ReadOperation(source);
    FanoutReaches(s.(observation := DeniedObservation(s.observation, generation, op)), batch, head, source);
  }
}

/**
  One verdict per review: the mapping from outcomes to surfaces (reviewVerdict.ts), and the check-run
  record whose guarded updates keep the first selection (publishRecordRepository.ts).
 */
module OwnVerdicts {
  import opened Wrappers

  // ----- Outcomes and surfaces -----

  datatype Conclusion = Success | Failure | Neutral | CancelledRun | ActionRequired

  datatype FindingConclusion = FoundFailure | FoundNeutral | FoundSuccess

  datatype CommitState = StatusSuccess | StatusFailure | StatusError

  datatype Ending = EndCancelled | EndSuperseded | EndStaleHead | EndCrashed | EndNotPublished

  /** Texts: a finding count, the two fixed notes, a default by ending, or one that came from outside. */
  datatype Text = Findings(count: nat) | InventoryUnavailable | PartialCoverage | DefaultFor(ending: Ending) | Custom(text: string)

  datatype Outcome =
    | Published(conclusion: FindingConclusion, blockingCount: nat, summary: Option<Text>)
    | Partial(note: Text)
    | Ended(ending: Ending, summary: Option<Text>)

  datatype Surfaces = Surfaces(checkRun: Conclusion, commitStatus: CommitState, summary: Text)

  function AsConclusion(c: FindingConclusion): Conclusion {
    match c case FoundFailure => Failure case FoundNeutral => Neutral case FoundSuccess => Success
  }

  /** PUBLISHED_COMMIT_STATUS. */
  function PublishedStatus(c: FindingConclusion): CommitState {
    match c case FoundFailure => StatusFailure case FoundNeutral => StatusError case FoundSuccess => StatusSuccess
  }

  function SurfacesOf(outcome: Outcome): Surfaces {
    match outcome
    case Published(c, count, summary) =>
      Surfaces(AsConclusion(c), PublishedStatus(c), summary.GetOr(if c == FoundNeutral then InventoryUnavailable else Findings(count)))
    case Partial(note) => Surfaces(Neutral, StatusError, note)
    case Ended(ending, summary) =>
      Surfaces(if ending == EndCrashed || ending == EndNotPublished then ActionRequired else CancelledRun, StatusError, summary.GetOr(DefaultFor(ending)))
  }

  /** The status state that a conclusion dictates, publishRecordRepository.ts:497-502. */
  function Dictated(c: Conclusion): CommitState {
    match c case Failure => StatusFailure case Success => StatusSuccess case _ => StatusError
  }

  /** Every outcome's two surfaces agree. */
  lemma SurfacesAgree(outcome: Outcome)
    ensures SurfacesOf(outcome).commitStatus == Dictated(SurfacesOf(outcome).checkRun)
  {
  }

  /**
    What a review that ended without a verdict shows: cancelled, if it was stopped or overtaken, and a call
    for action if it broke. A verdict shows itself, and a partial review is neutral.
   */
  lemma EndingsShow(outcome: Outcome)
    ensures var shown := SurfacesOf(outcome);
            match outcome
            case Published(c, count, summary) =>
              && (c == FoundSuccess <==> shown.checkRun == Success) && (c == FoundFailure <==> shown.checkRun == Failure)
              && (c == FoundNeutral <==> shown.checkRun == Neutral)
              && shown.summary == (if summary.Some? then summary.value else if c == FoundNeutral then InventoryUnavailable else Findings(count))
            case Partial(note) => shown.checkRun == Neutral && shown.summary == note
            case Ended(ending, summary) =>
              && shown.commitStatus == StatusError
              && (shown.checkRun == CancelledRun <==> ending == EndCancelled || ending == EndSuperseded || ending == EndStaleHead)
              && (shown.checkRun == ActionRequired <==> ending == EndCrashed || ending == EndNotPublished)
              && shown.summary == (if summary.Some? then summary.value else DefaultFor(ending))
  {
  }

  // ----- What the summary remembers for a later close -----

  datatype Coverage = FullCoverage | PartialReview(note: Text) | NoCoverage

  datatype FindingCheck = FindingCheck(conclusion: FindingConclusion, blockingCount: nat)

  datatype Meta = Meta(partialKind: bool, note: Option<Text>, partialReason: bool, failing: bool, incomplete: bool, blockingCount: Option<nat>)

  function CloseOutcome(coverage: Coverage, check: Option<FindingCheck>): Outcome {
    match coverage
    case PartialReview(note) =>
      if check.Some? && check.value.conclusion == FoundFailure then Published(FoundFailure, check.value.blockingCount, None) else Partial(note)
    case _ =>
      if check.Some? then Published(check.value.conclusion, check.value.blockingCount, None) else Ended(EndNotPublished, None)
  }

  /** What publishSummaryOnly.ts:377-384 stores with the summary comment. An empty note is not stored. */
  function SummaryMeta(coverage: Coverage, check: FindingCheck): Meta {
    var outcome := CloseOutcome(coverage, Some(check));
    Meta(outcome.Partial?, if outcome.Partial? && outcome.note != Custom("") then Some(outcome.note) else None, coverage.PartialReview?,
         check.conclusion == FoundFailure, check.conclusion == FoundNeutral, Some(check.blockingCount))
  }

  function OutcomeOfMeta(detail: Option<Meta>): Outcome {
    match detail
    case None => Ended(EndNotPublished, None)
    case Some(m) =>
      if m.partialReason && m.failing then Published(FoundFailure, m.blockingCount.GetOr(1), None)
      else if m.partialKind then Partial(m.note.GetOr(PartialCoverage))
      else if m.failing then Published(FoundFailure, m.blockingCount.GetOr(1), None)
      else if m.incomplete then Published(FoundNeutral, 0, None)
      else Published(FoundSuccess, 0, None)
  }

  /** What a live close decides: the check's own conclusion, but a partial review only when that fails. */
  lemma LiveCloses(coverage: Coverage, check: Option<FindingCheck>)
    ensures var outcome := CloseOutcome(coverage, check);
            && (outcome.Ended? <==> check.None? && !coverage.PartialReview?)
            && (outcome.Ended? ==> outcome.ending == EndNotPublished && outcome.summary.None?)
            && (outcome.Partial? <==> coverage.PartialReview? && !(check.Some? && check.value.conclusion == FoundFailure))
            && (outcome.Partial? ==> outcome.note == coverage.note)
            && (outcome.Published? ==> outcome == Published(check.value.conclusion, check.value.blockingCount, None))
  {
  }

  /** What the stored summary says of a partial review and of its check. */
  lemma SummaryRemembers(coverage: Coverage, check: FindingCheck)
    ensures var m := SummaryMeta(coverage, check);
            && (m.partialReason <==> coverage.PartialReview?)
            && (m.partialKind <==> coverage.PartialReview? && check.conclusion != FoundFailure)
            && (m.failing <==> check.conclusion == FoundFailure) && (m.incomplete <==> check.conclusion == FoundNeutral)
            && m.blockingCount == Some(check.blockingCount)
            && m.note == (if m.partialKind && coverage.note != Custom("") then Some(coverage.note) else None)
  {
  }

  /**
    What a stored summary stands for, whatever it is made of: nothing without one; a failure when the check
    failed, unless only a partial review was kept and not why; a missing count is one, a missing note the
    default.
   */
  lemma StoredVerdicts(detail: Option<Meta>)
    ensures var outcome := OutcomeOfMeta(detail);
            match detail
            case None => outcome == Ended(EndNotPublished, None)
            case Some(m) =>
              var fails := m.failing && (m.partialReason || !m.partialKind);
              && (outcome.Published? && outcome.conclusion == FoundFailure <==> fails)
              && (fails ==> outcome.blockingCount == (if m.blockingCount.Some? then m.blockingCount.value else 1))
              && (outcome.Partial? <==> m.partialKind && !fails)
              && (outcome.Partial? ==> outcome.note == (if m.note.Some? then m.note.value else PartialCoverage))
              && (outcome.Published? && outcome.conclusion == FoundNeutral <==> !fails && !m.partialKind && m.incomplete)
              && (outcome.Published? ==> outcome.summary.None? && (!fails ==> outcome.blockingCount == 0))
              && !outcome.Ended?
  {
  }

  /**
    A close that runs only after a crash, from the stored summary, decides the same surfaces as the live
    close would have, exactly when a successful check has no blocking finding and a partial review that is
    not failing has a note.
   */
  lemma LateCloseAgrees(coverage: Coverage, check: FindingCheck)
    ensures SurfacesOf(OutcomeOfMeta(Some(SummaryMeta(coverage, check)))) == SurfacesOf(CloseOutcome(coverage, Some(check)))
            <==> if coverage.PartialReview? then check.conclusion == FoundFailure || coverage.note != Custom("")
                 else check.conclusion == FoundSuccess ==> check.blockingCount == 0
  {
  }

  // ----- The check-run record -----

  datatype StatusSelection = StatusSelection(headSha: string, enabled: bool, state: CommitState)

  datatype Selected = Selected(conclusion: Conclusion, summary: Text, detailsUrl: Option<string>, status: Option<StatusSelection>)

  datatype SurfaceState = Applied | Skipped | Blocked | Unresolved

  datatype Progress = Starting | InProgress | Done

  datatype Detail = Detail(
    selected: Option<Selected>,
    status: Option<Progress>,
    conclusion: Option<Conclusion>,
    checkApplied: bool,
    checkState: Option<SurfaceState>,
    statusApplied: bool,
    statusState: Option<SurfaceState>)

  datatype Record = Record(resource: string, completed: bool, githubId: Option<nat>, leaseEpoch: Option<nat>, detail: Detail)

  datatype Surface = CheckSurface | StatusSurface

  const DEFERRED_HEAD_SHA: string := "deferred-to-worker"

  predicate StatusApplicable(selected: Selected) {
    && selected.status.Some? && selected.status.value.enabled
    && selected.status.value.headSha != "" && selected.status.value.headSha != DEFERRED_HEAD_SHA
  }

  predicate Selects(r: Option<Record>, resource: string, selected: Selected) {
    r.Some? && r.value.resource == resource && r.value.detail.selected == Some(selected)
  }

  function WithDetail(r: Option<Record>, d: Detail): Option<Record>
    requires r.Some?
  {
    Some(r.value.(detail := d))
  }

  // The statements. `allowed` is the eligibility and lease condition of the WHERE clause.

  const EMPTY_DETAIL: Detail := Detail(None, None, None, false, None, false, None)

  function SelectStmt(r: Option<Record>, resource: string, epoch: Option<nat>, selected: Selected, allowed: bool): Option<Record> {
    if !allowed then r
    else match r
      case None => Some(Record(resource, false, None, epoch, EMPTY_DETAIL.(selected := Some(selected))))
      case Some(row) =>
        if row.resource == resource && row.detail.selected.None? && row.detail.conclusion.None?
        then WithDetail(r, row.detail.(selected := Some(selected)))
        else r
  }

  function Enriched(before: Selected, status: StatusSelection): Selected {
    before.(status := Some(status.(state := Dictated(before.conclusion))))
  }

  /** Compare-and-set on the selection that was read. */
  function EnrichStmt(r: Option<Record>, resource: string, before: Selected, status: StatusSelection, statusApplied: bool, allowed: bool): Option<Record> {
    if allowed && Selects(r, resource, before) then
      var selected := Enriched(before, status);
      WithDetail(r, r.value.detail.(selected := Some(selected),
                                   status := if StatusApplicable(selected) && !statusApplied then Some(InProgress) else r.value.detail.status))
    else r
  }

  function StateOf(d: Detail, surface: Surface): Option<SurfaceState> {
    if surface == CheckSurface then d.checkState else d.statusState
  }

  predicate MaySkip(r: Record, surface: Surface, accepted: bool) {
    !accepted && (surface == CheckSurface ==> r.githubId.None? && r.detail.status != Some(Starting))
  }

  /** recordOwnVerdictSurfaceState. `accepted`: some intent of the surface may have been accepted. */
  function SurfaceStateStmt(r: Option<Record>, resource: string, selected: Selected, surface: Surface, state: SurfaceState, accepted: bool, allowed: bool): Option<Record> {
    if allowed && Selects(r, resource, selected)
       && StateOf(r.value.detail, surface) != Some(Applied) && StateOf(r.value.detail, surface) != Some(Skipped)
       && (state == Skipped ==> MaySkip(r.value, surface, accepted))
    then
      var d := r.value.detail;
      WithDetail(r, if surface == CheckSurface then d.(checkState := Some(state)) else d.(statusState := Some(state)))
    else r
  }

  predicate CheckResolved(d: Detail) { d.checkApplied || d.checkState == Some(Skipped) }

  predicate StatusResolved(d: Detail) { d.statusApplied || d.statusState == Some(Skipped) }

  predicate AppliesTo(r: Option<Record>, resource: string, selected: Selected, surface: Surface, allowed: bool) {
    allowed && Selects(r, resource, selected) && StateOf(r.value.detail, surface) != Some(Skipped)
    && (surface == CheckSurface ==> r.value.githubId.Some?)
  }

  function SurfaceAppliedStmt(r: Option<Record>, resource: string, selected: Selected, surface: Surface, allowed: bool): Option<Record> {
    if AppliesTo(r, resource, selected, surface, allowed) then
      var d := r.value.detail;
      var done := if (surface == CheckSurface || CheckResolved(d)) && (!StatusApplicable(selected) || surface == StatusSurface || StatusResolved(d))
                  then Done else InProgress;
      WithDetail(r, if surface == CheckSurface
                    then d.(checkApplied := true, checkState := Some(Applied), conclusion := Some(selected.conclusion), status := Some(done))
                    else d.(statusApplied := true, statusState := Some(Applied), status := Some(done)))
    else r
  }

  function OrKeep(preferred: Option<nat>, fallback: Option<nat>): Option<nat> { if preferred.Some? then preferred else fallback }

  function ReserveStmt(r: Option<Record>, resource: string, epoch: Option<nat>, allowed: bool): Option<Record> {
    if !allowed then r
    else match r
      case None => Some(Record(resource, false, None, epoch, EMPTY_DETAIL.(status := Some(Starting))))
      case Some(row) =>
        if row.resource == resource && !row.completed && row.githubId.None? && row.detail.selected.Some?
           && row.detail.checkState != Some(Skipped) && row.detail.status != Some(Starting)
        then Some(row.(leaseEpoch := OrKeep(epoch, row.leaseEpoch), detail := row.detail.(status := Some(Starting))))
        else r
  }

  function RecordCheckStmt(r: Option<Record>, resource: string, epoch: Option<nat>, githubId: nat, allowed: bool): Option<Record> {
    if !allowed then r
    else match r
      case None => Some(Record(resource, true, Some(githubId), epoch, EMPTY_DETAIL.(status := Some(InProgress))))
      case Some(row) =>
        Some(row.(resource := resource, completed := true, githubId := Some(githubId), leaseEpoch := OrKeep(epoch, row.leaseEpoch),
                  detail := row.detail.(status := Some(InProgress))))
  }

  /** A reservation is given back: a selected record keeps its selection, an ordinary one is deleted. */
  function ReleaseStmt(r: Option<Record>, resource: string, allowed: bool): Option<Record> {
    if !allowed || r.None? || r.value.resource != resource || r.value.completed || r.value.githubId.Some? then r
    else if r.value.detail.selected.None? then None
    else if r.value.detail.status == Some(Starting) then WithDetail(r, r.value.detail.(status := None))
    else r
  }

  /** isOwnCheckOpen on a record without terminal close intents. */
  predicate Open(d: Detail) {
    if d.selected.Some? then !CheckResolved(d) || (StatusApplicable(d.selected.value) && !StatusResolved(d))
    else d.status == Some(InProgress) || d.conclusion.None?
  }

  // ----- The record as an object -----

  datatype ClaimResult = Refused | Current(record: Option<Record>) | LeaseLost

  /**
    What the lease tests of a claim find, each at its own moment: the checks that throw, and the `rowHeld`
    conditions inside the statements, which ask for a lease row of the epoch and not for its expiry.
   */
  datatype Fences = Fences(entry: bool, saved: bool, check: bool, checkRowHeld: bool, checkAgain: bool,
                           selectRowHeld: bool, selectAgain: bool, enrichRowHeld: bool)

  const ALL_OPEN: Fences := Fences(true, true, true, true, true, true, true, true)

  /** The selecting statement finds a row to write. */
  predicate SelectWrites(r: Option<Record>, resource: string, allowed: bool) {
    allowed && (r.Some? ==> r.value.resource == resource && r.value.detail.selected.None? && r.value.detail.conclusion.None?)
  }

  function Seen(r: Option<Record>, resource: string): Option<Record> {
    if r.Some? && r.value.resource == resource then r else None
  }

  predicate LacksStatus(r: Option<Record>) {
    r.Some? && r.value.detail.selected.Some? && r.value.detail.selected.value.status.None?
  }

  /** The row of this resource that an ordinary close finds: no selection yet, and no conclusion of an older close. */
  predicate Unselected(r: Option<Record>, resource: string) {
    r.Some? && r.value.resource == resource && r.value.detail.selected.None? && r.value.detail.conclusion.None?
  }

  /**
    The earlier selection got this head and switch, with the state of its own conclusion. If the status
    surface is now to be written and was not, the record is in progress again.
   */
  predicate GivenStatus(before: Record, after: Option<Record>, status: StatusSelection)
    requires before.detail.selected.Some?
  {
    var d, chosen := before.detail, before.detail.selected.value;
    var state := if chosen.conclusion == Failure then StatusFailure else if chosen.conclusion == Success then StatusSuccess else StatusError;
    var reopened := status.enabled && status.headSha != "" && status.headSha != DEFERRED_HEAD_SHA && !d.statusApplied;
    after == Some(before.(detail := d.(selected := Some(chosen.(status := Some(StatusSelection(status.headSha, status.enabled, state)))),
                                       status := if reopened then Some(InProgress) else d.status)))
  }

  class CheckRunRecord {
    var record: Option<Record>

    constructor ()
      ensures record == None
    {
      record := None;
    }

    /** recordReviewCheckRun: a check in front, and another where nothing was written. */
    method RecordCheck(resource: string, epoch: Option<nat>, githubId: nat, fences: Fences) returns (lost: bool)
      modifies this
      ensures record == RecordCheckStmt(old(record), resource, epoch, githubId, epoch.Some? ==> fences.check && fences.checkRowHeld)
      ensures lost <==> epoch.Some? && (!fences.check || (!fences.checkRowHeld && !fences.checkAgain))
    {
      if epoch.Some? && !fences.check { return true; }
      var allowed := epoch.None? || fences.checkRowHeld;
      record := RecordCheckStmt(record, resource, epoch, githubId, allowed);
      lost := !allowed && !fences.checkAgain;
    }

    /** A selection that was read without a status gets the one at hand, if nobody else changed it since. */
    method Enrich(resource: string, current: Option<Record>, status: Option<StatusSelection>, allowed: bool)
      requires current == Seen(record, resource)
      modifies this
      ensures record == if LacksStatus(current) && status.Some?
                        then EnrichStmt(old(record), resource, current.value.detail.selected.value, status.value, current.value.detail.statusApplied, allowed)
                        else old(record)
    {
      if LacksStatus(current) && status.Some? {
        record := EnrichStmt(record, resource, current.value.detail.selected.value, status.value, current.value.detail.statusApplied, allowed);
      }
    }

    /** reconcileSavedOwnVerdictAcceptance, as far as the record is concerned. */
    method RecordSaved(resource: string, epoch: Option<nat>, saved: Option<nat>, fences: Fences) returns (lost: bool)
      modifies this
      ensures lost ==> epoch.Some? && fences != ALL_OPEN
      ensures epoch.Some? && !fences.saved ==> lost && record == old(record)
      ensures record == old(record) || (saved.Some? && record == RecordCheckStmt(old(record), resource, epoch, saved.value, true))
      ensures epoch.None? || fences == ALL_OPEN ==>
                record == if saved.Some? && (old(record).None? || old(record).value.githubId.None?)
                          then RecordCheckStmt(old(record), resource, epoch, saved.value, true) else old(record)
    {
      if epoch.Some? && !fences.saved { return true; }
      lost := false;
      if saved.Some? && (record.None? || record.value.githubId.None?) {
        lost := RecordCheck(resource, epoch, saved.value, fences);
      }
    }

    /** The selecting statement, and the status for a selection that lacks one. */
    method SelectVerdict(resource: string, epoch: Option<nat>, selected: Selected, fences: Fences) returns (r: ClaimResult)
      modifies this
      ensures !r.Refused? && (r.LeaseLost? ==> epoch.Some? && !fences.selectAgain && record == old(record))
      ensures r.Current? ==> r.record == Seen(record, resource)
      ensures old(record).Some? && old(record).value.detail.selected.Some? ==>
                record.Some? && KeepsSelection(old(record).value.detail.selected.value, record.value.detail.selected)
      ensures (epoch.None? || fences.enrichRowHeld) && r.Current? && selected.status.Some? ==> !LacksStatus(r.record)
      ensures (epoch.None? || fences.selectRowHeld) && old(record).None? ==>
                r.Current? && record == Some(Record(resource, false, None, epoch, Detail(Some(selected), None, None, false, None, false, None)))
      ensures (epoch.None? || fences.selectRowHeld) && Unselected(old(record), resource) ==>
                r.Current? && record == Some(old(record).value.(detail := old(record).value.detail.(selected := Some(selected))))
      ensures (epoch.None? || fences == ALL_OPEN) && LacksStatus(Seen(old(record), resource)) && selected.status.Some? ==>
                r.Current? && GivenStatus(old(record).value, record, selected.status.value)
    {
      var allowed := epoch.None? || fences.selectRowHeld;
      if !SelectWrites(record, resource, allowed) && epoch.Some? && !fences.selectAgain { return LeaseLost; }
      record := SelectStmt(record, resource, epoch, selected, allowed);
      Enrich(resource, Seen(record, resource), selected.status, epoch.None? || fences.enrichRowHeld);
      r := Current(Seen(record, resource));
    }

    /**
      claimOwnVerdict, statement by statement. `saved` is the check run of a stashed start result that was
      never recorded; `legacy` says that an older close may already have completed the check. Where the
      lease is found lost, no selection was made; at most the saved check run was recorded before.
     */
    method Claim(resource: string, epoch: Option<nat>, selected: Selected, eligible: bool, saved: Option<nat>, legacy: bool, fences: Fences)
      returns (r: ClaimResult)
      modifies this
      ensures epoch.Some? && !fences.entry ==> r == LeaseLost && record == old(record)
      ensures (epoch.Some? ==> fences.entry) && !eligible ==> r == Refused && record == old(record)
      ensures epoch.Some? && fences.entry && eligible && !fences.saved ==> r == LeaseLost && record == old(record)
      ensures epoch.None? || fences == ALL_OPEN ==> !r.LeaseLost?
      ensures !r.Current? ==>
                record == old(record) || (saved.Some? && record == RecordCheckStmt(old(record), resource, epoch, saved.value, true))
      ensures r.Current? ==> r.record == Seen(record, resource)
      ensures old(record).Some? && old(record).value.detail.selected.Some? ==>
                record.Some? && KeepsSelection(old(record).value.detail.selected.value, record.value.detail.selected)
      ensures (epoch.None? || fences.enrichRowHeld) && r.Current? && selected.status.Some? ==> !LacksStatus(r.record)
      ensures (epoch.None? || fences == ALL_OPEN) && eligible && !legacy && old(record).None? && saved.None? ==>
                r.Current? && record == Some(Record(resource, false, None, epoch, Detail(Some(selected), None, None, false, None, false, None)))
      ensures (epoch.None? || fences == ALL_OPEN) && eligible && !legacy && old(record).None? && saved.Some? ==>
                r.Current? && record == Some(Record(resource, true, saved, epoch, Detail(Some(selected), Some(InProgress), None, false, None, false, None)))
      ensures (epoch.None? || fences == ALL_OPEN) && eligible && !legacy && Unselected(old(record), resource)
              && (saved.None? || old(record).value.githubId.Some?) ==>
                r.Current? && record == Some(old(record).value.(detail := old(record).value.detail.(selected := Some(selected))))
      ensures (epoch.None? || fences == ALL_OPEN) && eligible && !legacy && Unselected(old(record), resource)
              && saved.Some? && old(record).value.githubId.None? ==>
                r.Current? && record == Some(old(record).value.(completed := true, githubId := saved,
                                                               leaseEpoch := if epoch.Some? then epoch else old(record).value.leaseEpoch,
                                                               detail := old(record).value.detail.(selected := Some(selected), status := Some(InProgress))))
      ensures (epoch.None? || fences == ALL_OPEN) && eligible && LacksStatus(Seen(old(record), resource)) && selected.status.Some?
              && (saved.None? || old(record).value.githubId.Some?) ==>
                r.Current? && GivenStatus(old(record).value, record, selected.status.value)
    {
      if epoch.Some? && !fences.entry { return LeaseLost; }
      if !eligible { return Refused; }
      var lost := RecordSaved(resource, epoch, saved, fences);
      if lost { return LeaseLost; }
      var existing := Seen(record, resource);
      if (existing.None? || existing.value.detail.selected.None?) && legacy { return Refused; }
      r := SelectVerdict(resource, epoch, selected, fences);
    }

    /** recordOwnVerdictSurfaceApplied: the receipt is refused when it does not match the selection. */
    method RecordApplied(resource: string, selected: Selected, surface: Surface, allowed: bool) returns (accepted: bool)
      modifies this
      ensures record == SurfaceAppliedStmt(old(record), resource, selected, surface, allowed)
      ensures accepted <==> AppliesTo(old(record), resource, selected, surface, allowed)
      ensures accepted ==> record.Some? && StateOf(record.value.detail, surface) == Some(Applied)
      ensures accepted ==> (record.value.detail.status == Some(Done) <==> !Open(record.value.detail))
    {
      accepted := AppliesTo(record, resource, selected, surface, allowed);
      record := SurfaceAppliedStmt(record, resource, selected, surface, allowed);
    }
  }

  /** The selection that won: nothing of it changes, except that a missing status may be added once. */
  predicate KeepsSelection(before: Selected, after: Option<Selected>) {
    && after.Some?
    && after.value.conclusion == before.conclusion && after.value.summary == before.summary && after.value.detailsUrl == before.detailsUrl
    && (before.status.Some? ==> after.value.status == before.status)
  }
}

/** The verdict over whole runs of concurrent closes, repairs, reservations, releases and receipts. */
module OwnVerdictRuns {
  import opened Wrappers
  import opened OwnVerdicts

  datatype Step =
    | SelectStep(resource: string, epoch: Option<nat>, selected: Selected, allowed: bool)
    | EnrichStep(resource: string, before: Selected, status: StatusSelection, allowed: bool)
    | SurfaceStateStep(resource: string, selected: Selected, surface: Surface, state: SurfaceState, accepted: bool, allowed: bool)
    | AppliedStep(resource: string, selected: Selected, surface: Surface, allowed: bool)
    | ReserveStep(resource: string, epoch: Option<nat>, allowed: bool)
    | RecordCheckStep(resource: string, epoch: Option<nat>, githubId: nat, allowed: bool)
    | ReleaseStep(resource: string, allowed: bool)

  /**
    Closes select surfaces of one outcome, so their status agrees with their conclusion; they enrich only a
    selection they read without a status, and touch the status surface only where it applies.
   */
  predicate Legal(step: Step) {
    match step
    case SelectStep(_, _, selected, _) => selected.status.Some? ==> selected.status.value.state == Dictated(selected.conclusion)
    case EnrichStep(_, before, _, _) => before.status.None?
    case SurfaceStateStep(_, selected, surface, state, _, _) => state != Applied && (surface == StatusSurface ==> StatusApplicable(selected))
    case AppliedStep(_, selected, surface, _) => surface == StatusSurface ==> StatusApplicable(selected)
    case _ => true
  }

  function Apply(r: Option<Record>, step: Step): Option<Record> {
    match step
    case SelectStep(resource, epoch, selected, allowed) => SelectStmt(r, resource, epoch, selected, allowed)
    case EnrichStep(resource, before, status, allowed) =>
      EnrichStmt(r, resource, before, status, r.Some? && r.value.detail.statusApplied, allowed)
    case SurfaceStateStep(resource, selected, surface, state, accepted, allowed) => SurfaceStateStmt(r, resource, selected, surface, state, accepted, allowed)
    case AppliedStep(resource, selected, surface, allowed) => SurfaceAppliedStmt(r, resource, selected, surface, allowed)
    case ReserveStep(resource, epoch, allowed) => ReserveStmt(r, resource, epoch, allowed)
    case RecordCheckStep(resource, epoch, githubId, allowed) => RecordCheckStmt(r, resource, epoch, githubId, allowed)
    case ReleaseStep(resource, allowed) => ReleaseStmt(r, resource, allowed)
  }

  predicate AllLegal(steps: seq<Step>) { forall i :: 0 <= i < |steps| ==> Legal(steps[i]) }

  function Run(r: Option<Record>, steps: seq<Step>): Option<Record>
    decreases |steps|
  {
    if steps == [] then r else Run(Apply(r, steps[0]), steps[1..])
  }

  // ----- What every step keeps -----

  predicate Consistent(r: Option<Record>) {
    r.Some? ==>
      var d := r.value.detail;
      && (d.checkApplied <==> d.checkState == Some(Applied))
      && (d.statusApplied <==> d.statusState == Some(Applied))
      && (d.statusState.Some? ==> d.selected.Some? && d.selected.value.status.Some?)
      && (d.checkState.Some? ==> d.selected.Some?)
      && (d.selected.Some? && d.selected.value.status.Some? ==> d.selected.value.status.value.state == Dictated(d.selected.value.conclusion))
      && (d.checkApplied ==> d.conclusion == Some(d.selected.value.conclusion) && r.value.githubId.Some?)
      && (d.status == Some(Done) ==> d.selected.Some? && !Open(d))
  }

  /** What a record with a selection passes on to its successor. */
  predicate Inherits(r: Record, r': Option<Record>) {
    && r'.Some?
    && KeepsSelection(r.detail.selected.GetOr(Selected(Neutral, PartialCoverage, None, None)), r'.value.detail.selected)
    && (forall surface :: StateOf(r.detail, surface) == Some(Applied) ==> StateOf(r'.value.detail, surface) == Some(Applied))
    && (forall surface :: StateOf(r.detail, surface) == Some(Skipped) ==> StateOf(r'.value.detail, surface) == Some(Skipped))
  }

  lemma StepKeepsConsistent(r: Option<Record>, step: Step)
    requires Consistent(r) && Legal(step)
    ensures Consistent(Apply(r, step))
  {
  }

  lemma StepInherits(r: Record, step: Step)
    requires Consistent(Some(r)) && Legal(step) && r.detail.selected.Some?
    ensures Inherits(r, Apply(Some(r), step))
  {
  }

  lemma {:induction false} RunKeepsConsistent(r: Option<Record>, steps: seq<Step>)
    requires Consistent(r) && AllLegal(steps)
    ensures Consistent(Run(r, steps))
    decreases |steps|
  {
    if steps != [] {
      StepKeepsConsistent(r, steps[0]);
      RunKeepsConsistent(Apply(r, steps[0]), steps[1..]);
    }
  }

  /**
    The first verdict wins. Once selected, conclusion, summary and link never change, a status once there
    never changes and is added at most once, applied stays applied and skipped stays skipped, under any
    interleaving of closes, repairs, reservations, releases and receipts.
   */
  lemma {:induction false} FirstVerdictWins(r: Record, steps: seq<Step>)
    requires Consistent(Some(r)) && AllLegal(steps) && r.detail.selected.Some?
    ensures Inherits(r, Run(Some(r), steps))
    decreases |steps|
  {
    if steps != [] {
      StepKeepsConsistent(Some(r), steps[0]);
      StepInherits(r, steps[0]);
      FirstVerdictWins(Apply(Some(r), steps[0]).value, steps[1..]);
    }
  }

  /**
    In every reachable record the status agrees with the conclusion, a surface is never both applied and
    skipped, the recorded conclusion is the selected one, and a record marked completed has nothing open.
   */
  lemma ReachableRecords(steps: seq<Step>)
    requires AllLegal(steps)
    ensures var r := Run(None, steps);
            r.Some? ==>
              var d := r.value.detail;
              && (d.selected.Some? && d.selected.value.status.Some? ==> d.selected.value.status.value.state == Dictated(d.selected.value.conclusion))
              && !(d.checkApplied && d.checkState == Some(Skipped)) && !(d.statusApplied && d.statusState == Some(Skipped))
              && (d.checkApplied ==> d.selected.Some? && d.conclusion == Some(d.selected.value.conclusion) && r.value.githubId.Some?)
              && (d.status == Some(Done) ==> !Open(d))
  {
    RunKeepsConsistent(None, steps);
  }

  // ----- Which statement moves which field -----

  function SelectionOf(r: Option<Record>): Option<Selected> { if r.Some? then r.value.detail.selected else None }

  /** The record is of this resource and its selection is still this one. */
  predicate Stores(r: Option<Record>, resource: string, selected: Selected) {
    r.Some? && r.value.resource == resource && r.value.detail.selected == Some(selected)
  }

  /** A selection appears only where there is none and no older close concluded; only its missing parts are added later. */
  lemma SelectionMovesExactly(r: Option<Record>, step: Step)
    ensures SelectionOf(Apply(r, step)) ==
            match step
            case SelectStep(resource, _, selected, allowed) =>
              if allowed && (r.None? || Unselected(r, resource)) then Some(selected) else SelectionOf(r)
            case EnrichStep(resource, before, status, allowed) =>
              if allowed && Stores(r, resource, before)
              then Some(before.(status := Some(status.(state := if before.conclusion == Failure then StatusFailure
                                                                else if before.conclusion == Success then StatusSuccess else StatusError))))
              else SelectionOf(r)
            case _ => SelectionOf(r)
  {
  }

  /** A surface is applied for the stored selection unless it was skipped, and skipped only if nothing can have been accepted. */
  lemma SurfacesMoveExactly(r: Record, step: Step, surface: Surface)
    ensures var after := Apply(Some(r), step);
            var was := if surface == CheckSurface then r.detail.checkState else r.detail.statusState;
            after.Some? ==>
              (if surface == CheckSurface then after.value.detail.checkState else after.value.detail.statusState) ==
              match step
              case AppliedStep(resource, selected, moved, allowed) =>
                if moved == surface && allowed && Stores(Some(r), resource, selected) && was != Some(Skipped) && (surface == CheckSurface ==> r.githubId.Some?)
                then Some(Applied) else was
              case SurfaceStateStep(resource, selected, moved, state, accepted, allowed) =>
                var mayMove := was != Some(Applied) && was != Some(Skipped);
                var maySkip := !accepted && (surface == CheckSurface ==> r.githubId.None? && r.detail.status != Some(Starting));
                if moved == surface && allowed && Stores(Some(r), resource, selected) && mayMove && (state == Skipped ==> maySkip)
                then Some(state) else was
              case _ => was
  {
  }

  /** Who creates a record and who removes it: a reservation given back before anything was selected or started. */
  lemma RecordsLiveExactly(r: Option<Record>, step: Step)
    ensures Apply(r, step).Some? <==>
            match step
            case SelectStep(_, _, _, allowed) => r.Some? || allowed
            case ReserveStep(_, _, allowed) => r.Some? || allowed
            case RecordCheckStep(_, _, _, allowed) => r.Some? || allowed
            case ReleaseStep(resource, allowed) =>
              r.Some? && !(allowed && r.value.resource == resource && !r.value.completed && r.value.githubId.None? && r.value.detail.selected.None?)
            case _ => r.Some?
  {
  }

  /** The check run's id, and the flags and epoch that go with it, come from recording it alone; a reservation refreshes the epoch. */
  lemma CheckRunsAreRecordedExactly(r: Record, step: Step)
    ensures var after := Apply(Some(r), step);
            after.Some? ==>
              var recorded := step.RecordCheckStep? && step.allowed;
              && after.value.githubId == (if recorded then Some(step.githubId) else r.githubId)
              && after.value.completed == (recorded || r.completed)
              && after.value.resource == (if recorded then step.resource else r.resource)
              && after.value.leaseEpoch == (if (recorded || Reserves(r, step)) && step.epoch.Some? then step.epoch else r.leaseEpoch)
  {
  }

  /** An existing record is reserved again only for a selected check that was neither started nor skipped. */
  predicate Reserves(r: Record, step: Step) {
    && step.ReserveStep? && step.allowed && r.resource == step.resource && !r.completed && r.githubId.None?
    && r.detail.selected.Some? && r.detail.checkState != Some(Skipped) && r.detail.status != Some(Starting)
  }

  /** Nothing of the selection is left to be shown once this surface is applied too. */
  predicate Closes(d: Detail, selected: Selected, surface: Surface) {
    && (surface == CheckSurface || d.checkApplied || d.checkState == Some(Skipped))
    && (surface == StatusSurface || !StatusApplicable(selected) || d.statusApplied || d.statusState == Some(Skipped))
  }

  /** The progress of a record, step by step. */
  lemma ProgressMovesExactly(r: Record, step: Step)
    ensures var after, d := Apply(Some(r), step), r.detail;
            after.Some? ==>
              after.value.detail.status ==
              match step
              case EnrichStep(resource, before, status, allowed) =>
                if && allowed && Stores(Some(r), resource, before) && !d.statusApplied
                   && status.enabled && status.headSha != "" && status.headSha != DEFERRED_HEAD_SHA
                then Some(InProgress) else d.status
              case AppliedStep(resource, selected, surface, allowed) =>
                if StateOf(after.value.detail, surface) == Some(Applied) && allowed && Stores(Some(r), resource, selected)
                   && StateOf(d, surface) != Some(Skipped) && (surface == CheckSurface ==> r.githubId.Some?)
                then Some(if Closes(d, selected, surface) then Done else InProgress) else d.status
              case ReserveStep(_, _, _) => if Reserves(r, step) then Some(Starting) else d.status
              case RecordCheckStep(_, _, _, allowed) => if allowed then Some(InProgress) else d.status
              case ReleaseStep(resource, allowed) =>
                if allowed && r.resource == resource && !r.completed && r.githubId.None? && d.status == Some(Starting) then None else d.status
              case _ => d.status
  {
  }

  /** New records: an empty one with a selection, a reservation, or a check run that was started. */
  lemma NewRecordsAre(step: Step)
    ensures var after := Apply(None, step);
            after.Some? ==>
              && after.value.detail.conclusion.None? && !after.value.detail.checkApplied && !after.value.detail.statusApplied
              && after.value.detail.checkState.None? && after.value.detail.statusState.None?
              && match step
                 case SelectStep(resource, epoch, selected, _) =>
                   after.value.(detail := after.value.detail.(selected := None)) == Record(resource, false, None, epoch, EMPTY_DETAIL)
                 case ReserveStep(resource, epoch, _) => after.value.githubId.None? && !after.value.completed && after.value.detail.status == Some(Starting) && after.value.leaseEpoch == epoch && after.value.resource == resource
                 case RecordCheckStep(resource, epoch, githubId, _) => after.value.githubId == Some(githubId) && after.value.completed && after.value.detail.status == Some(InProgress) && after.value.leaseEpoch == epoch && after.value.resource == resource
                 case _ => false
  {
  }
}

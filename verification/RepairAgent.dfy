/**
 The Agent's side of enrollment repair as values: its settings file, its journal, and one function
 per decision the executor takes between two durable writes.  Hashes are injective, so a journal
 holds the file contents where the source stores their digests.
 */
module RepairAgent {
  import opened Outcomes
  import opened RepairRows

  /** A settings file: absent, not a JSON object, or an object plus how it was laid out in bytes. */
  datatype SettingsFile = Missing | Garbage(tag: nat) | Json(fields: map<string, string>, layout: nat)

  datatype Payload =
    | Malformed(request: RequestId, tag: nat)
    | Dispatch(request: RequestId, target: Machine, ticket: string, expiresAt: Time, controllerUrl: string,
               siteId: string, siteName: string, controllerId: string)

  datatype AgentState = Accepted | RedemptionAttempted | Applying | JournalComplete | JournalNeverApplied | JournalNeedsReview

  datatype JournalOutcome = NoOutcome | Unknown | AcceptedOutcome

  /** `origin` is the one the attempt in progress resolved, also when it resumes an earlier attempt: staging writes that one. */
  datatype Journal = Journal(
    request: RequestId, digest: Payload, expiresAt: Time, origin: string, address: string,
    preimage: SettingsFile, staged: Option<SettingsFile>,
    state: AgentState, outcome: JournalOutcome, ticket: Option<string>, claim: Option<Claim>,
    identity: Option<Identity>, error: Option<string>)

  /** What the executor answers to `/apply` and `/status`. */
  datatype Report = Report(request: RequestId, state: AgentState, error: Option<string>, identity: Option<Identity>)

  predicate UnresolvedJournal(st: AgentState) {
    st.Accepted? || st.RedemptionAttempted? || st.Applying?
  }

  /** The shape check `_load_journal` makes before it trusts a journal. */
  predicate WellShaped(j: Journal) {
    match j.state
    case RedemptionAttempted => j.outcome == Unknown && j.ticket.Some? && j.claim.None?
    case Accepted => j.outcome == AcceptedOutcome && j.claim.Some? && j.ticket.None?
    case Applying => j.outcome == AcceptedOutcome && j.claim.Some? && j.ticket.None?
    case _ => j.ticket.None? && j.claim.None?
  }

  function ResultOf(j: Journal): Report {
    Report(j.request, j.state, j.error, if j.state.JournalComplete? then j.identity else None)
  }

  function ReviewReport(request: RequestId, code: string): Report {
    Report(request, JournalNeedsReview, Some(code), None)
  }

  /** An attempt whose deadline passed without an accepted claim ends as never applied. */
  function Expire(j: Journal, clock: Time): Journal {
    if (j.state.Accepted? || j.state.RedemptionAttempted?) && j.outcome != AcceptedOutcome && clock >= j.expiresAt
    then j.(state := JournalNeverApplied, outcome := NoOutcome, ticket := None, claim := None)
    else j
  }

  /** The terminal save. */
  function Close(j: Journal, st: AgentState, error: Option<string>, identity: Option<Identity>): Journal {
    j.(state := st, outcome := NoOutcome, ticket := None, claim := None, error := error,
       identity := if identity.Some? then identity else j.identity)
  }

  function Review(j: Journal, code: string): Journal {
    Close(j, JournalNeedsReview, Some(code), None)
  }

  /** The identity keys the claim authorises, written over whatever else the file holds. */
  function IdentityFields(id: Identity, origin: string): map<string, string> {
    map["role" := id.role, "site_id" := id.siteId, "site_name" := id.siteName,
        "controller_id" := id.controllerId, "parent_controller_url" := origin]
  }

  const IDENTITY_KEYS := {"role", "site_id", "site_name", "controller_id", "parent_controller_url"}

  function StagedFile(f: SettingsFile, claim: Claim, origin: string): SettingsFile
    requires f.Json?
  {
    Json(f.fields + IdentityFields(claim.identity, origin), 0)
  }

  /** The five identity values of the file are those of the dispatch, under the origin its Controller was reached at. */
  predicate Enrolled(f: SettingsFile, p: Payload, origin: string)
    requires p.Dispatch?
  {
    && f.Json? && IDENTITY_KEYS <= f.fields.Keys
    && f.fields["role"] == "agent"
    && f.fields["site_id"] == p.siteId
    && f.fields["site_name"] == p.siteName
    && f.fields["controller_id"] == p.target
    && f.fields["parent_controller_url"] == origin
  }

  /** What the file holds besides its identity is what it held before. */
  ghost predicate OthersUntouched(before: SettingsFile, after: SettingsFile)
    requires before.Json?
  {
    && after.Json? && after.fields.Keys == before.fields.Keys + IDENTITY_KEYS
    && forall k | k in before.fields && k !in IDENTITY_KEYS :: after.fields[k] == before.fields[k]
  }

  /** The file says this machine is `id`. */
  predicate HoldsIdentity(f: SettingsFile, id: Identity) {
    && f.Json? && "role" in f.fields && "site_id" in f.fields && "site_name" in f.fields && "controller_id" in f.fields
    && f.fields["role"] == id.role && f.fields["site_id"] == id.siteId
    && f.fields["site_name"] == id.siteName && f.fields["controller_id"] == id.controllerId
  }

  /** Decide from the bytes on disk how an interrupted apply ended. */
  function Classify(j: Journal, f: SettingsFile): Journal {
    if f.Missing? then Review(j, "settings_state_ambiguous")
    else if j.staged == Some(f) then
      var identity := if j.claim.Some? then Some(j.claim.value.identity) else j.identity;
      if identity.None? then Review(j, "settings_state_ambiguous")
      else Close(j, JournalComplete, None, identity)
    else if j.preimage == f then Close(j, JournalNeverApplied, None, None)
    else Review(j, "settings_state_ambiguous")
  }

  datatype OriginResult = Resolved(origin: string, address: string) | TimedOut | Unresolvable

  /** What the executor reads from its surroundings before it commits to an attempt. */
  datatype Env = Env(source: Option<string>, origin: OriginResult, identityLocked: bool, databaseOverride: Option<string>)

  /** Either an answer with no attempt, or the journal of the attempt about to be made. */
  datatype Admission = Reply(saved: Option<Journal>, report: Report) | Attempt(journal: Journal)

  function DatabaseMode(f: SettingsFile, override: Option<string>): string {
    if override.Some? then override.value
    else if f.Json? && "database_mode" in f.fields then f.fields["database_mode"] else "off"
  }

  /** The checks a parsed dispatch must pass, in order; `existing` is an attempt to resume. */
  function Validate(existing: Option<Journal>, saved: Option<Journal>, f: SettingsFile, p: Payload, env: Env, clock: Time): Admission {
    if p.Malformed? then Reply(saved, ReviewReport(p.request, "dispatch_invalid"))
    else if p.expiresAt <= clock then Reply(saved, Report(p.request, JournalNeverApplied, Some("ticket_expired"), None))
    else if env.origin.TimedOut? then Reply(saved, ReviewReport(p.request, "transport_unavailable"))
    else if env.origin.Unresolvable? then Reply(saved, ReviewReport(p.request, "callback_url_invalid"))
    else if env.source != Some(env.origin.address) then Reply(saved, ReviewReport(p.request, "callback_source_mismatch"))
    else if env.identityLocked then Reply(saved, ReviewReport(p.request, "environment_locked"))
    else if !f.Json? then Reply(saved, ReviewReport(p.request, "settings_invalid"))
    else if DatabaseMode(f, env.databaseOverride) != "off" then Reply(saved, ReviewReport(p.request, "database_mode_unsafe"))
    else if existing.Some? then Attempt(existing.value.(origin := env.origin.origin, outcome := Unknown, error := None))
    else Attempt(Journal(p.request, p, p.expiresAt, env.origin.origin, env.origin.address, f, None,
                         RedemptionAttempted, Unknown, Some(p.ticket), None, None, None))
  }

  /** The first half of `_apply`: load, expire, refuse a double dispatch, validate. */
  function Admit(journal: Option<Journal>, f: SettingsFile, p: Payload, env: Env, clock: Time): Admission {
    if journal.None? then Validate(None, None, f, p, env, clock) else
    var j := Expire(journal.value, clock);
    if UnresolvedJournal(j.state) then
      if j.request != p.request || j.digest != p then Reply(Some(j), ReviewReport(p.request, "request_conflict"))
      else if env.source != Some(j.address) then Reply(Some(j), ReviewReport(p.request, "callback_source_mismatch"))
      else if !j.state.RedemptionAttempted? then Reply(Some(j), ResultOf(j))
      else Validate(Some(j), Some(j), f, p, env, clock)
    else if j.request == p.request then Reply(Some(j), ResultOf(j))
    else Validate(None, Some(j), f, p, env, clock)
  }

  function ExpectedClaim(p: Payload): Claim
    requires p.Dispatch?
  {
    Claim(p.request, p.target, Identity("agent", p.siteId, p.siteName, p.target))
  }

  /** How one redemption callback can end, other than with an answered claim. */
  datatype CallbackFailure = NoToken | Transport | Refused | WrongPeer | Redirected | BadClaim

  function AfterFailure(j: Journal, how: CallbackFailure): Journal {
    match how
    case NoToken => j.(error := Some("fleet_token_unavailable"))
    case Transport => j.(error := Some("transport_unavailable"))
    case Refused => j.(error := Some("transport_unavailable"))
    case WrongPeer => Review(j, "callback_source_mismatch")
    case Redirected => Review(j, "callback_url_invalid")
    case BadClaim => Review(j, "claim_invalid")
  }

  function BeginApply(j: Journal, claim: Claim): Journal {
    j.(state := Applying, outcome := AcceptedOutcome, claim := Some(claim), ticket := None, error := None)
  }

  /** The settings writer lock was held elsewhere: the claim is given up. */
  function WriterBusy(j: Journal): Journal {
    j.(state := JournalNeverApplied, outcome := NoOutcome, ticket := None, error := Some("settings_writer_busy"))
  }

  // ---------------------------------------------------------------- what the decisions promise

  /** Staging rewrites the five identity keys, the fifth to the resolved origin, and nothing else. */
  lemma StagedDiffersOnlyInIdentity(f: SettingsFile, claim: Claim, origin: string)
    requires f.Json?
    ensures HoldsIdentity(StagedFile(f, claim, origin), claim.identity)
    ensures OthersUntouched(f, StagedFile(f, claim, origin))
    ensures StagedFile(f, claim, origin).fields["parent_controller_url"] == origin
  {
    var five := IdentityFields(claim.identity, origin);
    assert five.Keys == IDENTITY_KEYS;
  }

  /** Staging for the claim a dispatch stands for enrols the machine as the dispatch says. */
  lemma StagedIsEnrolled(f: SettingsFile, p: Payload, origin: string)
    requires f.Json? && p.Dispatch?
    ensures Enrolled(StagedFile(f, ExpectedClaim(p), origin), p, origin)
    ensures OthersUntouched(f, StagedFile(f, ExpectedClaim(p), origin))
  {
    StagedDiffersOnlyInIdentity(f, ExpectedClaim(p), origin);
  }

  /** A restart never claims more than the bytes on disk show. */
  lemma ClassifyIsTruthful(j: Journal, f: SettingsFile)
    requires WellShaped(j)
    ensures WellShaped(Classify(j, f))
    ensures Classify(j, f).state.JournalComplete? <==> !f.Missing? && j.staged == Some(f) && (j.claim.Some? || j.identity.Some?)
    ensures Classify(j, f).state.JournalNeverApplied? <==> !f.Missing? && j.staged != Some(f) && j.preimage == f
    ensures !UnresolvedJournal(Classify(j, f).state)
  {
  }

  /** Every journal the executor saves passes the shape check it makes on loading. */
  lemma SavedJournalsAreWellShaped(j: Journal, f: SettingsFile, p: Payload, env: Env, clock: Time, how: CallbackFailure, claim: Claim)
    requires WellShaped(j)
    ensures WellShaped(Expire(j, clock))
    ensures match Admit(Some(j), f, p, env, clock)
            case Reply(saved, _) => saved.Some? && WellShaped(saved.value)
            case Attempt(a) => WellShaped(a) && a.state.RedemptionAttempted? && a.request == p.request && a.digest == p
    ensures j.state.RedemptionAttempted? ==>
              WellShaped(AfterFailure(j, how)) && WellShaped(BeginApply(j, claim)) && WellShaped(WriterBusy(j))
  {
  }

  /** An attempt is over: it ended, or it waits for a claim past its deadline. */
  predicate IsOver(j: Journal, clock: Time) {
    || j.state.JournalComplete? || j.state.JournalNeverApplied? || j.state.JournalNeedsReview?
    || (j.state.RedemptionAttempted? && j.expiresAt <= clock)
  }

  /** The conditions on a dispatch itself, in the order they are looked at, each with the answer of its refusal. */
  function DispatchChecks(f: SettingsFile, p: Payload, env: Env, clock: Time): seq<(bool, AgentState, string)> {
    [ (p.Dispatch?, JournalNeedsReview, "dispatch_invalid"),
      (p.Malformed? || clock < p.expiresAt, JournalNeverApplied, "ticket_expired"),
      (!env.origin.TimedOut?, JournalNeedsReview, "transport_unavailable"),
      (!env.origin.Unresolvable?, JournalNeedsReview, "callback_url_invalid"),
      (env.origin.Resolved? && env.source == Some(env.origin.address), JournalNeedsReview, "callback_source_mismatch"),
      (!env.identityLocked, JournalNeedsReview, "environment_locked"),
      (f.Json?, JournalNeedsReview, "settings_invalid"),
      (if env.databaseOverride.Some? then env.databaseOverride == Some("off")
       else f.Json? && ("database_mode" in f.fields ==> f.fields["database_mode"] == "off"), JournalNeedsReview, "database_mode_unsafe") ]
  }

  ghost predicate AllPass(f: SettingsFile, p: Payload, env: Env, clock: Time) {
    && p.Dispatch? && clock < p.expiresAt
    && env.origin.Resolved? && env.source == Some(env.origin.address) && !env.identityLocked && f.Json?
    && (if env.databaseOverride.Some? then env.databaseOverride == Some("off")
        else "database_mode" in f.fields ==> f.fields["database_mode"] == "off")
  }

  /** An earlier attempt lets the dispatch through: it is over and was for another request, or it is this one, still waiting. */
  predicate LetsThrough(j: Journal, p: Payload, env: Env, clock: Time) {
    if IsOver(j, clock) then j.request != p.request
    else j.state.RedemptionAttempted? && j.request == p.request && j.digest == p && env.source == Some(j.address)
  }

  /** An attempt is made exactly for a sound dispatch that no earlier attempt stands in the way of. */
  lemma AttemptIff(journal: Option<Journal>, f: SettingsFile, p: Payload, env: Env, clock: Time)
    requires journal.Some? ==> WellShaped(journal.value)
    ensures Admit(journal, f, p, env, clock).Attempt? <==>
            AllPass(f, p, env, clock) && (journal.Some? ==> LetsThrough(journal.value, p, env, clock))
  {
  }

  /** The attempt journals this dispatch, this origin and the settings it was first admitted with. */
  lemma AttemptIs(journal: Option<Journal>, f: SettingsFile, p: Payload, env: Env, clock: Time)
    requires journal.Some? ==> WellShaped(journal.value)
    requires Admit(journal, f, p, env, clock).Attempt?
    ensures var j := Admit(journal, f, p, env, clock).journal;
            && p.Dispatch? && env.origin.Resolved?
            && j.origin == env.origin.origin
            && j.state.RedemptionAttempted? && j.outcome == Unknown && j.claim.None? && j.error.None?
            && if journal.Some? && !IsOver(journal.value, clock)
               then && j.request == p.request && j.digest == p && j.ticket == journal.value.ticket && j.preimage == journal.value.preimage
                    && j.staged == journal.value.staged && j.expiresAt == journal.value.expiresAt && j.address == journal.value.address
               else && j.request == p.request && j.digest == p && j.ticket == Some(p.ticket) && j.preimage == f
                    && j.staged.None? && j.expiresAt == p.expiresAt && j.address == env.origin.address
  {
    AttemptIff(journal, f, p, env, clock);
  }

  /** With no attempt in the way, a refused dispatch is answered by the first condition it fails, and nothing is journaled. */
  lemma RefusalNamesFirstFailure(journal: Option<Journal>, f: SettingsFile, p: Payload, env: Env, clock: Time, k: nat)
    requires journal.Some? ==> WellShaped(journal.value) && !IsOver(journal.value, clock) && LetsThrough(journal.value, p, env, clock)
    requires k < 8 && !DispatchChecks(f, p, env, clock)[k].0 && forall i | 0 <= i < k :: DispatchChecks(f, p, env, clock)[i].0
    ensures Admit(journal, f, p, env, clock) ==
            Reply(journal, Report(p.request, DispatchChecks(f, p, env, clock)[k].1, Some(DispatchChecks(f, p, env, clock)[k].2), None))
  {
    var checks := DispatchChecks(f, p, env, clock);
    assert 0 < k ==> checks[0].0;
    assert 1 < k ==> checks[1].0;
    assert 2 < k ==> checks[2].0;
    assert 3 < k ==> checks[3].0;
    assert 4 < k ==> checks[4].0;
    assert 5 < k ==> checks[5].0;
    assert 6 < k ==> checks[6].0;
  }

  /** What an attempt in the way is answered with: its own end, or a refusal of the double dispatch. */
  lemma BlockedAnswerIs(j: Journal, f: SettingsFile, p: Payload, env: Env, clock: Time)
    requires WellShaped(j) && !LetsThrough(j, p, env, clock)
    ensures Admit(Some(j), f, p, env, clock).Reply?
    ensures var a := Admit(Some(j), f, p, env, clock);
            if IsOver(j, clock) then
              a.report == Report(j.request,
                                 if j.state.RedemptionAttempted? then JournalNeverApplied else j.state,
                                 j.error, if j.state.JournalComplete? then j.identity else None)
            else
              && a.saved == Some(j)
              && a.report == (if j.request != p.request || j.digest != p then Report(p.request, JournalNeedsReview, Some("request_conflict"), None)
                              else if env.source != Some(j.address) then Report(p.request, JournalNeedsReview, Some("callback_source_mismatch"), None)
                              else Report(j.request, j.state, j.error, None))
  {
  }

  /** A callback that brought no claim leaves the ticket usable exactly when no answer could have come from the wrong peer. */
  lemma FailureKeepsTicketIff(j: Journal, how: CallbackFailure)
    requires WellShaped(j) && j.state.RedemptionAttempted?
    ensures var j' := AfterFailure(j, how);
            && j'.request == j.request && j'.digest == j.digest && j'.preimage == j.preimage && j'.expiresAt == j.expiresAt
            && (how.NoToken? || how.Transport? || how.Refused? <==> j'.state.RedemptionAttempted?)
            && (j'.state.RedemptionAttempted? <==> j'.ticket == j.ticket)
            && (!j'.state.RedemptionAttempted? ==> j'.state.JournalNeedsReview?)
            && j'.error == Some(match how
                                case NoToken => "fleet_token_unavailable"
                                case WrongPeer => "callback_source_mismatch"
                                case Redirected => "callback_url_invalid"
                                case BadClaim => "claim_invalid"
                                case _ => "transport_unavailable")
  {
  }
}

/**
 Enrollment repair as one two-party protocol.  The state is the Controller's table, every Agent's
 disk and process, two kinds of clock, and every message ever sent: a message may be delivered late,
 more than once, or never.  A crash empties an Agent's process; the Controller keeps nothing that is
 not in its table, so its crashes are the runs in which it simply does not take a next step.

 `applied` and `held` only record history: which requests replaced a settings file, and every
 content a file has had.
 */
module RepairProtocol {
  import opened Outcomes
  import opened RepairRows
  import opened RepairAgent

  /** Where an executor is inside `_apply`.  Everything it still needs is in its journal. */
  datatype Process =
    | Idle
    | Ready(d: Payload)
    | Waiting(call: nat, d: Payload)
    | Holding(d: Payload)
    | Marked(d: Payload)
    | Staged(d: Payload)
    | Replaced(d: Payload)

  /** `calls` numbers the connections opened so far; `tampered` records a foreign write since the apply began. */
  datatype Agent = Agent(clock: Time, file: SettingsFile, journal: Option<Journal>, process: Process, calls: nat, tampered: bool)

  datatype Sys = Sys(
    store: Store, clock: Time,
    agents: map<Machine, Agent>, addresses: map<Machine, string>,
    dispatches: set<Payload>,
    calls: map<(Machine, nat), Payload>,
    claims: map<(Machine, nat), Claim>,
    answers: set<(Machine, Report)>,
    applied: seq<RequestId>,
    held: set<(Machine, SettingsFile)>)

  datatype Event =
    | Tick(dt: nat)
    | AgentTick(m: Machine, dt: nat)
    | Transact(op: Op)
    | Issue(id: RequestId, binding: Binding, ticket: string, lifetime: nat, sent: bool)
    | AnswerCall(m: Machine, call: nat, snapshot: Target, controller: Controller, fleet: Digest)
    | Adopt(m: Machine, report: Report)
    | Release(m: Machine, report: Report)
    | Receive(m: Machine, d: Payload, env: Env)
    | Send(m: Machine)
    | Take(m: Machine)
    | Lose(m: Machine, how: CallbackFailure)
    | WriterLocked(m: Machine)
    | Begin(m: Machine)
    | Stage(m: Machine)
    | Replace(m: Machine)
    | Finish(m: Machine)
    | Fault(m: Machine, stagedInMemory: bool)
    | Crash(m: Machine)
    | Recover(m: Machine)
    | Status(m: Machine, request: RequestId, lockFree: bool, source: Option<string>)
    | Foreign(m: Machine, file: SettingsFile)

  // ---------------------------------------------------------------- steps

  function SetAgent(s: Sys, m: Machine, a: Agent): Sys {
    s.(agents := s.agents[m := a], held := s.held + {(m, a.file)})
  }

  /** Save `j`, answer with `r`, and leave `_apply`. */
  function Conclude(s: Sys, m: Machine, j: Option<Journal>, r: Report): Sys
    requires m in s.agents
  {
    SetAgent(s, m, s.agents[m].(journal := j, process := Idle)).(answers := s.answers + {(m, r)})
  }

  function TerminalOf(st: AgentState): Option<Terminal> {
    match st
    case JournalComplete => Some(AgentComplete)
    case JournalNeverApplied => Some(AgentNeverApplied)
    case JournalNeedsReview => Some(AgentNeedsReview)
    case _ => None
  }

  /** Operations whose effect involves no message. */
  predicate Internal(op: Op) {
    !op.OpIssue? && !op.OpRedeem? && !op.OpAdopt? && !op.OpRelease?
  }

  function IssueStep(s: Sys, e: Event): Sys
    requires e.Issue?
  {
    var t := e.binding.target;
    if e.binding.ticket != Sha256(e.ticket) || t.machine !in s.addresses || s.addresses[t.machine] != t.address then s else
    var expires := s.clock + e.lifetime as real;
    var st := IssueTicket(s.store, e.id, e.binding, expires, s.clock);
    if st.result.Err? then s else
    var c := e.binding.controller;
    var d := Dispatch(e.id, t.machine, e.ticket, expires, t.controllerUrl, c.siteId, c.siteName, c.controllerId);
    s.(store := st.store, dispatches := if e.sent then s.dispatches + {d} else s.dispatches)
  }

  function CallOf(s: Sys, m: Machine, d: Payload, e: Event): RedeemCall
    requires e.AnswerCall? && d.Dispatch? && m in s.addresses
  {
    RedeemCall(d.ticket, d.expiresAt, d.target, s.addresses[m], e.snapshot, e.controller, e.fleet)
  }

  function AnswerStep(s: Sys, e: Event): Sys
    requires e.AnswerCall?
  {
    var key := (e.m, e.call);
    if key !in s.calls || !s.calls[key].Dispatch? || e.m !in s.addresses then s else
    var d := s.calls[key];
    var st := Redeem(s.store, d.request, CallOf(s, e.m, d, e), s.clock);
    if st.result.Ok? && st.result.value.Granted?
    then s.(store := st.store, claims := s.claims[key := st.result.value.claim])
    else s.(store := st.store)
  }

  function AdoptStep(s: Sys, m: Machine, r: Report, stopped: bool): Sys {
    if (m, r) !in s.answers || m !in s.addresses || TerminalOf(r.state).None? then s else
    var t := TerminalOf(r.state).value;
    if stopped then s.(store := ReleaseFence(s.store, r.request, t, r.identity, s.clock).store)
    else s.(store := AdoptStatus(s.store, r.request, t, r.identity, r.error, s.addresses[m], s.clock).store)
  }

  function ReceiveStep(s: Sys, m: Machine, d: Payload, env: Env): Sys
    requires m in s.agents
  {
    var a := s.agents[m];
    if d !in s.dispatches || !d.Dispatch? || d.target != m || !a.process.Idle? then s else
    match Admit(a.journal, a.file, d, env, a.clock)
    case Reply(saved, report) => Conclude(s, m, saved, report)
    case Attempt(j) => SetAgent(s, m, a.(journal := Some(j), process := Ready(d)))
  }

  function SendStep(s: Sys, m: Machine): Sys
    requires m in s.agents
  {
    var a := s.agents[m];
    if !a.process.Ready? then s else
    SetAgent(s, m, a.(process := Waiting(a.calls, a.process.d), calls := a.calls + 1))
      .(calls := s.calls[(m, a.calls) := a.process.d])
  }

  /** The one claim reaches the call that is still waiting for it; a wrong claim closes the journal. */
  function TakeStep(s: Sys, m: Machine): Sys
    requires m in s.agents
  {
    var a := s.agents[m];
    if !a.process.Waiting? || (m, a.process.call) !in s.claims || a.journal.None? then s else
    var d := a.process.d;
    if d.Dispatch? && s.claims[(m, a.process.call)] == ExpectedClaim(d)
    then SetAgent(s, m, a.(process := Holding(d)))
    else var j := AfterFailure(a.journal.value, BadClaim); Conclude(s, m, Some(j), ResultOf(j))
  }

  function LoseStep(s: Sys, m: Machine, how: CallbackFailure): Sys
    requires m in s.agents
  {
    var a := s.agents[m];
    if a.journal.None? || !(a.process.Waiting? || (a.process.Ready? && how.NoToken?)) then s else
    var j := AfterFailure(a.journal.value, how);
    Conclude(s, m, Some(j), ResultOf(j))
  }

  function WriterLockedStep(s: Sys, m: Machine): Sys
    requires m in s.agents
  {
    var a := s.agents[m];
    if a.journal.None? || !a.process.Holding? then s else
    var j := WriterBusy(a.journal.value);
    Conclude(s, m, Some(j), ResultOf(j))
  }

  function BeginStep(s: Sys, m: Machine): Sys
    requires m in s.agents
  {
    var a := s.agents[m];
    if a.journal.None? || !a.process.Holding? || !a.process.d.Dispatch? then s else
    var d, j := a.process.d, a.journal.value;
    if !a.file.Json? then Conclude(s, m, a.journal, ReviewReport(d.request, "settings_invalid"))
    else if a.file != j.preimage then
      var r := Review(j, "settings_preimage_changed"); Conclude(s, m, Some(r), ResultOf(r))
    else SetAgent(s, m, a.(journal := Some(BeginApply(j, ExpectedClaim(d))), process := Marked(d), tampered := false))
  }

  /** The staged content, computed from the preimage the apply began with. */
  function StageJournal(j: Journal): Journal {
    if j.preimage.Json? && j.claim.Some? then j.(staged := Some(StagedFile(j.preimage, j.claim.value, j.origin))) else j
  }

  function StageStep(s: Sys, m: Machine): Sys
    requires m in s.agents
  {
    var a := s.agents[m];
    if a.journal.None? || !a.process.Marked? then s else
    SetAgent(s, m, a.(journal := Some(StageJournal(a.journal.value)), process := Staged(a.process.d)))
  }

  function ReplaceStep(s: Sys, m: Machine): Sys
    requires m in s.agents
  {
    var a := s.agents[m];
    if a.journal.None? || !a.process.Staged? || a.journal.value.staged.None? then s else
    var j := a.journal.value;
    if a.file != j.preimage then
      var r := Review(j, "settings_preimage_changed"); Conclude(s, m, Some(r), ResultOf(r))
    else
      SetAgent(s, m, a.(file := j.staged.value, process := Replaced(a.process.d))).(applied := s.applied + [j.request])
  }

  /** Read back and close, after the replacement. */
  function FinishJournal(j: Journal, f: SettingsFile): Journal {
    if j.staged == Some(f) && j.claim.Some? then Close(j, JournalComplete, None, Some(j.claim.value.identity))
    else Review(j, "settings_state_ambiguous")
  }

  function FinishStep(s: Sys, m: Machine): Sys
    requires m in s.agents
  {
    var a := s.agents[m];
    if a.journal.None? || !a.process.Replaced? then s else
    var j := FinishJournal(a.journal.value, a.file);
    Conclude(s, m, Some(j), ResultOf(j))
  }

  /** An exception after 'applying' was saved: classify from the journal in memory. */
  function FaultStep(s: Sys, m: Machine, stagedInMemory: bool): Sys
    requires m in s.agents
  {
    var a := s.agents[m];
    if a.journal.None? || !(a.process.Marked? || a.process.Staged? || a.process.Replaced?) then s else
    var inMemory := if stagedInMemory && a.process.Marked? then StageJournal(a.journal.value) else a.journal.value;
    var j := Classify(inMemory, a.file);
    Conclude(s, m, Some(j), ResultOf(j))
  }

  function RecoverStep(s: Sys, m: Machine): Sys
    requires m in s.agents
  {
    var a := s.agents[m];
    if a.journal.None? || !a.process.Idle? then s else
    var j := a.journal.value;
    var j' := if j.state.Accepted? || j.state.Applying? then Classify(j, a.file) else Expire(j, a.clock);
    Conclude(s, m, Some(j'), ResultOf(j'))
  }

  function StatusStep(s: Sys, m: Machine, request: RequestId, lockFree: bool, source: Option<string>): Sys
    requires m in s.agents
  {
    var a := s.agents[m];
    if a.journal.None? || a.journal.value.request != request then
      s.(answers := s.answers + {(m, ReviewReport(request, "request_not_found"))})
    else if source != Some(a.journal.value.address) then
      s.(answers := s.answers + {(m, ReviewReport(request, "callback_source_mismatch"))})
    else if lockFree && a.process.Idle? then
      var j := Expire(a.journal.value, a.clock); Conclude(s, m, Some(j), ResultOf(j))
    else s.(answers := s.answers + {(m, ResultOf(a.journal.value))})
  }

  predicate OnAgent(e: Event) {
    !e.Tick? && !e.Transact? && !e.Issue? && !e.AnswerCall? && !e.Adopt? && !e.Release?
  }

  function AgentStep(s: Sys, e: Event): Sys
    requires OnAgent(e) && e.m in s.agents
  {
    match e
    case AgentTick(m, dt) => SetAgent(s, m, s.agents[m].(clock := s.agents[m].clock + dt as real))
    case Receive(m, d, env) => ReceiveStep(s, m, d, env)
    case Send(m) => SendStep(s, m)
    case Take(m) => TakeStep(s, m)
    case Lose(m, how) => LoseStep(s, m, how)
    case WriterLocked(m) => WriterLockedStep(s, m)
    case Begin(m) => BeginStep(s, m)
    case Stage(m) => StageStep(s, m)
    case Replace(m) => ReplaceStep(s, m)
    case Finish(m) => FinishStep(s, m)
    case Fault(m, stagedInMemory) => FaultStep(s, m, stagedInMemory)
    case Crash(m) => SetAgent(s, m, s.agents[m].(process := Idle))
    case Recover(m) => RecoverStep(s, m)
    case Status(m, request, lockFree, source) => StatusStep(s, m, request, lockFree, source)
    case Foreign(m, f) => SetAgent(s, m, s.agents[m].(file := f, tampered := true))
  }

  /** One event; an event that is not possible in `s` leaves it unchanged. */
  function Next(s: Sys, e: Event): Sys {
    match e
    case Tick(dt) => s.(clock := s.clock + dt as real)
    case Transact(op) => if Internal(op) then s.(store := Apply(s.store, op, s.clock).store) else s
    case Issue(_, _, _, _, _) => IssueStep(s, e)
    case AnswerCall(_, _, _, _, _) => AnswerStep(s, e)
    case Adopt(m, r) => AdoptStep(s, m, r, false)
    case Release(m, r) => AdoptStep(s, m, r, true)
    case _ => if e.m in s.agents then AgentStep(s, e) else s
  }

  ghost function Run(s: Sys, es: seq<Event>): Sys
    decreases es
  {
    if es == [] then s else Run(Next(s, es[0]), es[1..])
  }

  // ---------------------------------------------------------------- invariant

  /** A claim for `id` that its Agent could still apply. */
  predicate Pending(s: Sys, m: Machine, id: RequestId) {
    m in s.agents &&
    match s.agents[m].process
    case Waiting(n, d) => d.request == id && (m, n) in s.claims
    case Holding(d) => d.request == id
    case Marked(d) => d.request == id
    case Staged(d) => d.request == id
    case _ => false
  }

  predicate Attempting(s: Sys, m: Machine, id: RequestId) {
    m in s.agents &&
    match s.agents[m].process
    case Ready(d) => d.request == id
    case Waiting(_, d) => d.request == id
    case _ => false
  }

  predicate PastDeadline(s: Sys, id: RequestId) {
    id in s.store.rows && s.store.rows[id].target in s.agents && s.store.rows[id].expiresAt.Some?
    && s.agents[s.store.rows[id].target].clock >= s.store.rows[id].expiresAt.value
  }

  /** No later step can replace a settings file for `id`. */
  predicate Closed(s: Sys, id: RequestId) {
    && id in s.store.rows
    && var m := s.store.rows[id].target;
    && !Pending(s, m, id)
    && (MayStillRedeem(s.store.rows[id].state) ==> PastDeadline(s, id) && !Attempting(s, m, id))
  }

  /** A dispatch is exactly what the row it was issued for says. */
  predicate Bound(s: Sys, d: Payload) {
    && d.Dispatch? && d.request in s.store.rows
    && var r := s.store.rows[d.request];
    && r.binding.Some? && r.target == d.target && r.expiresAt == Some(d.expiresAt)
    && r.binding.value.controller.siteId == d.siteId && r.binding.value.controller.siteName == d.siteName
  }

  predicate JournalOk(s: Sys, m: Machine, j: Journal) {
    && j.digest in s.dispatches && Bound(s, j.digest) && j.digest.target == m
    && j.request == j.digest.request && j.expiresAt == j.digest.expiresAt
    && WellShaped(j) && !j.state.Accepted?
    && (j.state.Applying? ==>
          && s.store.rows[j.request].ticket == Spent
          && j.claim == Some(ExpectedClaim(j.digest)) && j.preimage.Json?
          && (j.staged.Some? ==> j.staged.value == StagedFile(j.preimage, j.claim.value, j.origin)))
    && (j.state.RedemptionAttempted? ==> j.staged.None?)
    && (j.state.JournalComplete? ==> j.identity == Some(ExpectedClaim(j.digest).identity))
  }

  /** The ticket of `d`'s request has been redeemed. */
  predicate Spends(s: Sys, d: Payload) {
    d.request in s.store.rows && s.store.rows[d.request].ticket == Spent
  }

  predicate ProcessOk(s: Sys, m: Machine, a: Agent) {
    a.process.Idle? ||
    (&& a.journal.Some? && a.journal.value.digest == a.process.d
     && match a.process
        case Ready(_) => a.journal.value.state.RedemptionAttempted?
        case Waiting(n, d) => a.journal.value.state.RedemptionAttempted? && (m, n) in s.calls && s.calls[(m, n)] == d
        case Holding(d) => a.journal.value.state.RedemptionAttempted? && Spends(s, d)
        case Marked(_) => a.journal.value.state.Applying? && a.journal.value.staged.None?
        case Staged(_) => a.journal.value.state.Applying? && a.journal.value.staged.Some?
        case Replaced(_) => a.journal.value.state.Applying? && a.journal.value.staged.Some?)
  }

  ghost predicate AgentsOk(s: Sys) {
    forall m | m in s.agents ::
      && (s.agents[m].journal.Some? ==> JournalOk(s, m, s.agents[m].journal.value))
      && ProcessOk(s, m, s.agents[m])
      && (m, s.agents[m].file) in s.held
  }

  ghost predicate MessagesOk(s: Sys) {
    && (forall d | d in s.dispatches :: Bound(s, d))
    && (forall k | k in s.calls :: k.0 in s.agents && k.1 < s.agents[k.0].calls && s.calls[k] in s.dispatches && s.calls[k].target == k.0)
    && (forall k | k in s.claims :: k in s.calls && Bound(s, s.calls[k]) && s.store.rows[s.calls[k].request].ticket == Spent)
    && (forall k, l | k in s.claims && l in s.claims && s.calls[k].request == s.calls[l].request :: k == l)
  }

  ghost predicate NetworkOk(s: Sys) {
    && s.agents.Keys == s.addresses.Keys
    && (forall m, n | m in s.addresses && n in s.addresses && s.addresses[m] == s.addresses[n] :: m == n)
    && (forall id | id in s.store.rows && s.store.rows[id].binding.Some? ::
          s.store.rows[id].target in s.addresses && s.addresses[s.store.rows[id].target] == s.store.rows[id].binding.value.target.address)
  }

  /** `id` was answered for as ended: resolved in the table, applied, or reported so by its Agent. */
  predicate Ended(s: Sys, m: Machine, j: Option<Journal>) {
    j.Some? && (j.value.state.JournalNeverApplied? || j.value.state.JournalComplete?)
  }

  ghost predicate EndedIsClosed(s: Sys) {
    && (forall id | id in s.store.rows && (s.store.rows[id].state.Retryable? || s.store.rows[id].state.Complete?) :: Closed(s, id))
    && (forall id | id in s.applied :: Closed(s, id))
    && (forall m | m in s.agents && Ended(s, m, s.agents[m].journal) :: Closed(s, s.agents[m].journal.value.request))
    && (forall x | x in s.answers && (x.1.state.JournalNeverApplied? || x.1.state.JournalComplete?) ::
          Closed(s, x.1.request) && s.store.rows[x.1.request].target == x.0)
  }

  /** The settings file of `id`'s target has held exactly the identity `id` was issued for. */
  ghost predicate Witnessed(s: Sys, id: RequestId) {
    && id in s.store.rows && s.store.rows[id].binding.Some?
    && exists f {:trigger (s.store.rows[id].target, f) in s.held} ::
         (s.store.rows[id].target, f) in s.held && HoldsIdentity(f, ExpectedIdentity(s.store.rows[id]).value)
  }

  ghost predicate CompleteIsWitnessed(s: Sys) {
    && (forall id | id in s.store.rows && s.store.rows[id].state.Complete? :: Witnessed(s, id))
    && (forall m | m in s.agents && s.agents[m].journal.Some? && s.agents[m].journal.value.state.JournalComplete? ::
          Witnessed(s, s.agents[m].journal.value.request))
    && (forall x | x in s.answers && x.1.state.JournalComplete? :: Witnessed(s, x.1.request))
  }

  ghost predicate Inv(s: Sys) {
    && StoreOk(s.store) && NetworkOk(s) && MessagesOk(s) && AgentsOk(s)
    && EndedIsClosed(s) && CompleteIsWitnessed(s) && Distinct(s.applied)
  }

  // ---------------------------------------------------------------- the invariant is kept

  /** The report is not of an ended request, or that request is closed, and witnessed when complete. */
  ghost predicate Truthful(s: Sys, m: Machine, request: RequestId, st: AgentState) {
    && (st.JournalNeverApplied? || st.JournalComplete? ==> Closed(s, request) && s.store.rows[request].target == m)
    && (st.JournalComplete? ==> Witnessed(s, request))
  }

  /** What an Agent event may change. */
  ghost predicate OneAgentMoves(s: Sys, s': Sys, m: Machine) {
    && m in s.agents && m in s'.agents
    && s'.store == s.store && s'.clock == s.clock && s'.addresses == s.addresses && s'.dispatches == s.dispatches && s'.claims == s.claims
    && s'.agents == s.agents[m := s'.agents[m]]
    && s'.agents[m].clock >= s.agents[m].clock
    && s'.held == s.held + {(m, s'.agents[m].file)}
    && ((s'.calls == s.calls && s'.agents[m].calls == s.agents[m].calls)
        || (s'.agents[m].calls == s.agents[m].calls + 1 && s'.agents[m].process.Waiting?
            && s'.agents[m].process.d in s.dispatches && s'.agents[m].process.d.Dispatch?
            && s'.agents[m].process.d.target == m && s'.calls == s.calls[(m, s.agents[m].calls) := s'.agents[m].process.d]))
  }

  /** The process does not gain a claim, and starts no attempt whose deadline has passed. */
  ghost predicate NoNewAuthority(s: Sys, s': Sys, m: Machine) {
    && (forall id :: Pending(s', m, id) ==> Pending(s, m, id))
    && (forall id :: Attempting(s', m, id) && PastDeadline(s', id) && MayStillRedeem(s'.store.rows[id].state) ==> Attempting(s, m, id))
  }

  lemma AgentMoveKeepsClosed(s: Sys, s': Sys, m: Machine, id: RequestId)
    requires OneAgentMoves(s, s', m) && NoNewAuthority(s, s', m) && Closed(s, id)
    ensures Closed(s', id)
  {
  }

  lemma AgentMoveKeepsWitnessed(s: Sys, s': Sys, m: Machine, id: RequestId)
    requires OneAgentMoves(s, s', m) && Witnessed(s, id)
    ensures Witnessed(s', id)
  {
    var f :| (s.store.rows[id].target, f) in s.held && HoldsIdentity(f, ExpectedIdentity(s.store.rows[id]).value);
    assert (s'.store.rows[id].target, f) in s'.held;
  }

  lemma AgentMoveKeepsMessages(s: Sys, s': Sys, m: Machine)
    requires MessagesOk(s) && OneAgentMoves(s, s', m)
    ensures MessagesOk(s')
  {
    forall d | d in s'.dispatches ensures Bound(s', d) { assert Bound(s, d); }
    forall k | k in s.calls ensures k in s'.calls && s'.calls[k] == s.calls[k] && k.1 < s'.agents[k.0].calls { }
    forall k | k in s'.claims
      ensures k in s'.calls && s'.calls[k] == s.calls[k] && Bound(s', s'.calls[k]) && s'.store.rows[s'.calls[k].request].ticket == Spent
    {
      assert k in s.calls && Bound(s, s.calls[k]);
    }
  }

  lemma AgentMoveKeepsAgents(s: Sys, s': Sys, m: Machine)
    requires Inv(s) && OneAgentMoves(s, s', m)
    requires s'.agents[m].journal.Some? ==> JournalOk(s', m, s'.agents[m].journal.value)
    requires ProcessOk(s', m, s'.agents[m])
    ensures AgentsOk(s')
  {
    forall n | n in s'.agents && n != m
      ensures s'.agents[n].journal.Some? ==> JournalOk(s', n, s'.agents[n].journal.value)
      ensures ProcessOk(s', n, s'.agents[n])
      ensures (n, s'.agents[n].file) in s'.held
    {
      assert s'.agents[n] == s.agents[n];
      assert ProcessOk(s, n, s.agents[n]);
    }
  }

  /** The history and the messages an Agent event adds. */
  ghost predicate AddsTruth(s: Sys, s': Sys, m: Machine) {
    && (forall x | x in s'.answers && x !in s.answers :: x.0 == m && Truthful(s', m, x.1.request, x.1.state))
    && (s'.applied == s.applied
        || (|s'.applied| == |s.applied| + 1 && s'.applied[..|s.applied|] == s.applied
            && s'.applied[|s.applied|] !in s.applied && Closed(s', s'.applied[|s.applied|])))
  }

  lemma AgentMoveKeepsEnded(s: Sys, s': Sys, m: Machine)
    requires EndedIsClosed(s) && OneAgentMoves(s, s', m) && NoNewAuthority(s, s', m) && AddsTruth(s, s', m)
    requires s'.agents[m].journal.Some? ==> Truthful(s', m, s'.agents[m].journal.value.request, s'.agents[m].journal.value.state)
    ensures EndedIsClosed(s')
  {
    forall id | Closed(s, id) ensures Closed(s', id) { AgentMoveKeepsClosed(s, s', m, id); }
    forall id | id in s'.applied ensures Closed(s', id) {
      if id !in s.applied { assert id == s'.applied[|s.applied|]; }
    }
  }

  lemma AgentMoveKeepsComplete(s: Sys, s': Sys, m: Machine)
    requires CompleteIsWitnessed(s) && OneAgentMoves(s, s', m) && AddsTruth(s, s', m)
    requires s'.agents[m].journal.Some? ==> Truthful(s', m, s'.agents[m].journal.value.request, s'.agents[m].journal.value.state)
    ensures CompleteIsWitnessed(s')
  {
    forall id | Witnessed(s, id) ensures Witnessed(s', id) { AgentMoveKeepsWitnessed(s, s', m, id); }
  }

  lemma AgentMoveKeepsNetwork(s: Sys, s': Sys, m: Machine)
    requires NetworkOk(s) && OneAgentMoves(s, s', m)
    ensures NetworkOk(s')
  {
    assert s'.agents.Keys == s.agents.Keys;
  }

  lemma AgentMoveKeepsDistinct(s: Sys, s': Sys, m: Machine)
    requires Distinct(s.applied) && AddsTruth(s, s', m)
    ensures Distinct(s'.applied)
  {
    if s'.applied != s.applied {
      assert forall i | 0 <= i < |s.applied| :: s'.applied[i] == s'.applied[..|s.applied|][i];
    }
  }

  /** Everything an Agent event has to establish locally for the global invariant to survive it. */
  lemma AgentMoveKeepsInv(s: Sys, s': Sys, m: Machine)
    requires Inv(s) && OneAgentMoves(s, s', m) && NoNewAuthority(s, s', m) && AddsTruth(s, s', m)
    requires s'.agents[m].journal.Some? ==>
               JournalOk(s', m, s'.agents[m].journal.value)
               && Truthful(s', m, s'.agents[m].journal.value.request, s'.agents[m].journal.value.state)
    requires ProcessOk(s', m, s'.agents[m])
    ensures Inv(s')
  {
    AgentMoveKeepsMessages(s, s', m);
    AgentMoveKeepsAgents(s, s', m);
    AgentMoveKeepsEnded(s, s', m);
    AgentMoveKeepsComplete(s, s', m);
    AgentMoveKeepsNetwork(s, s', m);
    AgentMoveKeepsDistinct(s, s', m);
  }

  // ---------------------------------------------------------------- Agent events

  /** What makes an answer truthful once the process has left `_apply`. */
  ghost predicate Reportable(s: Sys, m: Machine, id: RequestId, st: AgentState) {
    && (st.JournalNeverApplied? || st.JournalComplete? ==>
          && id in s.store.rows && s.store.rows[id].target == m
          && (MayStillRedeem(s.store.rows[id].state) ==> PastDeadline(s, id)))
    && (st.JournalComplete? ==> Witnessed(s, id))
  }

  lemma ReportableIsTruthful(s: Sys, s': Sys, m: Machine, id: RequestId, st: AgentState)
    requires OneAgentMoves(s, s', m) && s'.agents[m].process.Idle? && Reportable(s, m, id, st)
    ensures Truthful(s', m, id, st)
  {
    if st.JournalComplete? { AgentMoveKeepsWitnessed(s, s', m, id); }
  }

  /** What the invariant says about one Agent. */
  lemma InvAt(s: Sys, m: Machine)
    requires Inv(s) && m in s.agents
    ensures ProcessOk(s, m, s.agents[m])
    ensures s.agents[m].journal.Some? ==>
              var j := s.agents[m].journal.value;
              && JournalOk(s, m, j) && RowOk(s.store.rows[j.request])
              && Truthful(s, m, j.request, j.state) && Reportable(s, m, j.request, j.state)
  {
  }

  lemma BoundAt(s: Sys, d: Payload)
    requires Inv(s) && d in s.dispatches
    ensures Bound(s, d)
  {
  }

  lemma ConcludeKeepsInv(s: Sys, m: Machine, j: Option<Journal>, r: Report)
    requires Inv(s) && m in s.agents
    requires j.Some? ==> JournalOk(s, m, j.value) && Reportable(s, m, j.value.request, j.value.state)
    requires Reportable(s, m, r.request, r.state)
    ensures Inv(Conclude(s, m, j, r))
  {
    var s' := Conclude(s, m, j, r);
    if j.Some? { ReportableIsTruthful(s, s', m, j.value.request, j.value.state); }
    ReportableIsTruthful(s, s', m, r.request, r.state);
    AgentMoveKeepsInv(s, s', m);
  }

  lemma ExpireIsReportable(s: Sys, m: Machine, j: Journal, clock: Time)
    requires Inv(s) && m in s.agents && s.agents[m].journal == Some(j) && clock == s.agents[m].clock
    ensures JournalOk(s, m, Expire(j, clock)) && Reportable(s, m, j.request, Expire(j, clock).state)
    ensures Expire(j, clock).request == j.request
  {
    hide Inv;
    InvAt(s, m);
    BoundAt(s, j.digest);
  }

  /** Closing or failing an attempt keeps the journal bound to its dispatch. */
  lemma FailureIsBound(s: Sys, m: Machine, j: Journal, how: CallbackFailure)
    requires JournalOk(s, m, j) && j.state.RedemptionAttempted?
    ensures JournalOk(s, m, AfterFailure(j, how)) && AfterFailure(j, how).request == j.request
    ensures Reportable(s, m, j.request, AfterFailure(j, how).state)
  {
  }

  lemma ReviewIsBound(s: Sys, m: Machine, j: Journal, code: string)
    requires JournalOk(s, m, j)
    ensures JournalOk(s, m, Review(j, code)) && Review(j, code).request == j.request
    ensures Reportable(s, m, j.request, Review(j, code).state)
  {
  }

  lemma AttemptIsBound(s: Sys, m: Machine, saved: Option<Journal>, f: SettingsFile, d: Payload, env: Env, clock: Time)
    requires d in s.dispatches && Bound(s, d) && d.target == m
    requires saved.Some? ==> JournalOk(s, m, saved.value)
    requires Admit(saved, f, d, env, clock).Attempt?
    ensures var j := Admit(saved, f, d, env, clock).journal;
            JournalOk(s, m, j) && j.digest == d && j.state.RedemptionAttempted? && d.expiresAt > clock
  {
  }

  /** What is saved on a refusal is the old journal, expired if it was due; the answer says no more than it does. */
  lemma RefusalIsBound(s: Sys, m: Machine, saved: Option<Journal>, d: Payload, env: Env)
    requires Inv(s) && m in s.agents && d in s.dispatches && d.Dispatch? && d.target == m && saved == s.agents[m].journal
    requires Admit(saved, s.agents[m].file, d, env, s.agents[m].clock).Reply?
    ensures var a := Admit(saved, s.agents[m].file, d, env, s.agents[m].clock);
            && (a.saved.Some? ==> JournalOk(s, m, a.saved.value) && Reportable(s, m, a.saved.value.request, a.saved.value.state))
            && Reportable(s, m, a.report.request, a.report.state)
  {
    hide Inv;
    BoundAt(s, d);
    if saved.Some? { ExpireIsReportable(s, m, saved.value, s.agents[m].clock); }
  }

  lemma ReceiveKeepsInv(s: Sys, m: Machine, d: Payload, env: Env)
    requires Inv(s) && m in s.agents
    ensures Inv(ReceiveStep(s, m, d, env))
  {
    hide Inv;
    var a := s.agents[m];
    if d in s.dispatches && d.Dispatch? && d.target == m && a.process.Idle? {
      match Admit(a.journal, a.file, d, env, a.clock)
      case Reply(saved, report) =>
        RefusalIsBound(s, m, a.journal, d, env);
        ConcludeKeepsInv(s, m, saved, report);
      case Attempt(j) =>
        InvAt(s, m);
        BoundAt(s, d);
        AttemptIsBound(s, m, a.journal, a.file, d, env, a.clock);
        ReadyKeepsInv(s, m, d, j);
    }
  }

  lemma ReadyKeepsInv(s: Sys, m: Machine, d: Payload, j: Journal)
    requires Inv(s) && m in s.agents && s.agents[m].process.Idle? && d in s.dispatches && d.Dispatch?
    requires JournalOk(s, m, j) && j.digest == d && j.state.RedemptionAttempted? && d.expiresAt > s.agents[m].clock
    ensures Inv(SetAgent(s, m, s.agents[m].(journal := Some(j), process := Ready(d))))
  {
    hide Inv;
    var s' := SetAgent(s, m, s.agents[m].(journal := Some(j), process := Ready(d)));
    assert JournalOk(s', m, j);
    AgentMoveKeepsInv(s, s', m);
  }

  lemma FreshCallIsUnanswered(s: Sys, m: Machine)
    requires Inv(s) && m in s.agents
    ensures (m, s.agents[m].calls) !in s.claims
    ensures s.agents[m].process.Ready? ==> s.agents[m].process.d in s.dispatches && Bound(s, s.agents[m].process.d)
                                           && s.agents[m].process.d.target == m
  {
    assert ProcessOk(s, m, s.agents[m]);
  }

  lemma SendKeepsInv(s: Sys, m: Machine)
    requires Inv(s) && m in s.agents
    ensures Inv(SendStep(s, m))
  {
    hide Inv;
    var s' := SendStep(s, m);
    if s' != s {
      FreshCallIsUnanswered(s, m);
      InvAt(s, m);
      SavedStaysTruthful(s, s', m);
      AgentMoveKeepsInv(s, s', m);
    }
  }

  /** A step that keeps the journal and gains no authority keeps the journal's truth. */
  lemma SavedStaysTruthful(s: Sys, s': Sys, m: Machine)
    requires Inv(s) && OneAgentMoves(s, s', m) && NoNewAuthority(s, s', m) && s'.agents[m].journal == s.agents[m].journal
    ensures s'.agents[m].journal.Some? ==>
              JournalOk(s', m, s'.agents[m].journal.value)
              && Truthful(s', m, s'.agents[m].journal.value.request, s'.agents[m].journal.value.state)
  {
    hide Inv;
    if s.agents[m].journal.Some? {
      var j := s.agents[m].journal.value;
      InvAt(s, m);
      if Closed(s, j.request) { AgentMoveKeepsClosed(s, s', m, j.request); }
      if Witnessed(s, j.request) { AgentMoveKeepsWitnessed(s, s', m, j.request); }
    }
  }

  lemma TakenIsSpent(s: Sys, m: Machine)
    requires Inv(s) && m in s.agents && s.agents[m].process.Waiting? && (m, s.agents[m].process.call) in s.claims
    ensures Spends(s, s.agents[m].process.d)
  {
    assert ProcessOk(s, m, s.agents[m]);
  }

  lemma HoldingKeepsInv(s: Sys, m: Machine)
    requires Inv(s) && m in s.agents && s.agents[m].process.Waiting? && (m, s.agents[m].process.call) in s.claims
    ensures Inv(SetAgent(s, m, s.agents[m].(process := Holding(s.agents[m].process.d))))
  {
    hide Inv;
    var s' := SetAgent(s, m, s.agents[m].(process := Holding(s.agents[m].process.d)));
    TakenIsSpent(s, m);
    InvAt(s, m);
    SavedStaysTruthful(s, s', m);
    AgentMoveKeepsInv(s, s', m);
  }

  lemma TakeKeepsInv(s: Sys, m: Machine)
    requires Inv(s) && m in s.agents
    ensures Inv(TakeStep(s, m))
  {
    hide Inv;
    var a := s.agents[m];
    if a.process.Waiting? && (m, a.process.call) in s.claims && a.journal.Some? {
      InvAt(s, m);
      if a.process.d.Dispatch? && s.claims[(m, a.process.call)] == ExpectedClaim(a.process.d) {
        HoldingKeepsInv(s, m);
      } else {
        var j := AfterFailure(a.journal.value, BadClaim);
        FailureIsBound(s, m, a.journal.value, BadClaim);
        ConcludeKeepsInv(s, m, Some(j), ResultOf(j));
      }
    }
  }

  lemma LoseKeepsInv(s: Sys, m: Machine, how: CallbackFailure)
    requires Inv(s) && m in s.agents
    ensures Inv(LoseStep(s, m, how))
  {
    hide Inv;
    var a := s.agents[m];
    if a.journal.Some? && (a.process.Waiting? || (a.process.Ready? && how.NoToken?)) {
      var j := AfterFailure(a.journal.value, how);
      InvAt(s, m);
      FailureIsBound(s, m, a.journal.value, how);
      ConcludeKeepsInv(s, m, Some(j), ResultOf(j));
    }
  }

  lemma WriterLockedKeepsInv(s: Sys, m: Machine)
    requires Inv(s) && m in s.agents
    ensures Inv(WriterLockedStep(s, m))
  {
    hide Inv;
    var a := s.agents[m];
    if a.journal.Some? && a.process.Holding? {
      var j := WriterBusy(a.journal.value);
      InvAt(s, m);
      WriterBusyIsBound(s, m, a.journal.value);
      ConcludeKeepsInv(s, m, Some(j), ResultOf(j));
    }
  }

  lemma WriterBusyIsBound(s: Sys, m: Machine, j: Journal)
    requires JournalOk(s, m, j) && j.state.RedemptionAttempted? && RowOk(s.store.rows[j.request])
    requires s.store.rows[j.request].ticket == Spent
    ensures JournalOk(s, m, WriterBusy(j)) && Reportable(s, m, j.request, WriterBusy(j).state)
  {
  }

  lemma MarkKeepsInv(s: Sys, m: Machine, d: Payload, j: Journal)
    requires Inv(s) && m in s.agents && s.agents[m].process == Holding(d) && s.agents[m].journal == Some(j) && d.Dispatch?
    requires s.agents[m].file == j.preimage && j.preimage.Json?
    ensures Inv(SetAgent(s, m, s.agents[m].(journal := Some(BeginApply(j, ExpectedClaim(d))), process := Marked(d), tampered := false)))
  {
    hide Inv;
    InvAt(s, m);
    var s' := SetAgent(s, m, s.agents[m].(journal := Some(BeginApply(j, ExpectedClaim(d))), process := Marked(d), tampered := false));
    assert JournalOk(s', m, BeginApply(j, ExpectedClaim(d)));
    AgentMoveKeepsInv(s, s', m);
  }

  lemma BeginKeepsInv(s: Sys, m: Machine)
    requires Inv(s) && m in s.agents
    ensures Inv(BeginStep(s, m))
  {
    hide Inv;
    var a := s.agents[m];
    if a.journal.Some? && a.process.Holding? && a.process.d.Dispatch? {
      var j := a.journal.value;
      InvAt(s, m);
      if !a.file.Json? {
        ConcludeKeepsInv(s, m, a.journal, ReviewReport(a.process.d.request, "settings_invalid"));
      } else if a.file != j.preimage {
        var r := Review(j, "settings_preimage_changed");
        ReviewIsBound(s, m, j, "settings_preimage_changed");
        ConcludeKeepsInv(s, m, Some(r), ResultOf(r));
      } else {
        MarkKeepsInv(s, m, a.process.d, j);
      }
    }
  }

  lemma StageKeepsInv(s: Sys, m: Machine)
    requires Inv(s) && m in s.agents
    ensures Inv(StageStep(s, m))
  {
    hide Inv;
    var a := s.agents[m];
    if a.journal.Some? && a.process.Marked? {
      InvAt(s, m);
      StagingIsBound(s, m, a.journal.value);
      AgentMoveKeepsInv(s, StageStep(s, m), m);
    }
  }

  lemma PendingIsNotApplied(s: Sys, m: Machine, id: RequestId)
    requires Inv(s) && Pending(s, m, id) && id in s.store.rows && s.store.rows[id].target == m
    ensures id !in s.applied
  {
    assert !Closed(s, id);
  }

  lemma ReplacementMoves(s: Sys, s': Sys, m: Machine, j: Journal)
    requires Inv(s) && m in s.agents && s.agents[m].journal == Some(j) && s.agents[m].process.Staged? && j.staged.Some?
    requires s' == SetAgent(s, m, s.agents[m].(file := j.staged.value, process := Replaced(s.agents[m].process.d))).(applied := s.applied + [j.request])
    ensures OneAgentMoves(s, s', m) && AddsTruth(s, s', m) && NoNewAuthority(s, s', m)
  {
    hide Inv;
    InvAt(s, m);
    PendingIsNotApplied(s, m, j.request);
    assert JournalOk(s', m, j) && ProcessOk(s', m, s'.agents[m]);
    assert OneAgentMoves(s, s', m);
    assert AddsTruth(s, s', m) by { assert Closed(s', j.request); }
    assert NoNewAuthority(s, s', m);
  }

  /** The one place a settings file is replaced: the request was pending, so it was never applied before. */
  lemma ReplacementKeepsInv(s: Sys, m: Machine, j: Journal)
    requires Inv(s) && m in s.agents && s.agents[m].journal == Some(j) && s.agents[m].process.Staged? && j.staged.Some?
    ensures j.request !in s.applied
    ensures Inv(SetAgent(s, m, s.agents[m].(file := j.staged.value, process := Replaced(s.agents[m].process.d))).(applied := s.applied + [j.request]))
  {
    var s' := SetAgent(s, m, s.agents[m].(file := j.staged.value, process := Replaced(s.agents[m].process.d))).(applied := s.applied + [j.request]);
    hide Inv;
    InvAt(s, m);
    PendingIsNotApplied(s, m, j.request);
    assert OneAgentMoves(s, s', m) && AddsTruth(s, s', m) && NoNewAuthority(s, s', m) by { ReplacementMoves(s, s', m, j); }
    hide OneAgentMoves, AddsTruth, NoNewAuthority, JournalOk, ProcessOk;
    AgentMoveKeepsInv(s, s', m);
  }

  lemma ReplaceKeepsInv(s: Sys, m: Machine)
    requires Inv(s) && m in s.agents
    ensures Inv(ReplaceStep(s, m))
  {
    hide Inv;
    var a := s.agents[m];
    if a.journal.Some? && a.process.Staged? && a.journal.value.staged.Some? {
      var j := a.journal.value;
      if a.file != j.preimage {
        var r := Review(j, "settings_preimage_changed");
        InvAt(s, m);
        ReviewIsBound(s, m, j, "settings_preimage_changed");
        ConcludeKeepsInv(s, m, Some(r), ResultOf(r));
      } else {
        ReplacementKeepsInv(s, m, j);
      }
    }
  }

  lemma StagedFileWitnesses(s: Sys, m: Machine, j: Journal)
    requires Inv(s) && m in s.agents && JournalOk(s, m, j) && j.state.Applying? && j.staged == Some(s.agents[m].file)
    ensures Witnessed(s, j.request)
  {
    var f := s.agents[m].file;
    StagedDiffersOnlyInIdentity(j.preimage, j.claim.value, j.origin);
    assert Bound(s, j.digest) && (m, f) in s.held;
    assert HoldsIdentity(f, ExpectedIdentity(s.store.rows[j.request]).value);
  }

  /** However an applying journal is closed, it stays bound, and its ticket is spent. */
  lemma CloseIsBound(s: Sys, m: Machine, j: Journal, st: AgentState, error: Option<string>)
    requires JournalOk(s, m, j) && j.state.Applying? && RowOk(s.store.rows[j.request]) && !UnresolvedJournal(st)
    requires st.JournalComplete? ==> Witnessed(s, j.request)
    ensures var j' := Close(j, st, error, Some(j.claim.value.identity));
            JournalOk(s, m, j') && j'.request == j.request && Reportable(s, m, j.request, j'.state)
    ensures !st.JournalComplete? ==>
              var j' := Close(j, st, error, None);
              JournalOk(s, m, j') && j'.request == j.request && Reportable(s, m, j.request, j'.state)
  {
  }

  lemma ClassifyIsReportable(s: Sys, m: Machine, j: Journal)
    requires Inv(s) && m in s.agents && JournalOk(s, m, j) && j.state.Applying?
    ensures JournalOk(s, m, Classify(j, s.agents[m].file))
    ensures Classify(j, s.agents[m].file).request == j.request
    ensures Reportable(s, m, j.request, Classify(j, s.agents[m].file).state)
  {
    assert RowOk(s.store.rows[j.request]);
    if j.staged == Some(s.agents[m].file) {
      StagedFileWitnesses(s, m, j);
      CloseIsBound(s, m, j, JournalComplete, None);
    }
    CloseIsBound(s, m, j, JournalNeverApplied, None);
    CloseIsBound(s, m, j, JournalNeedsReview, Some("settings_state_ambiguous"));
  }

  lemma FinishKeepsInv(s: Sys, m: Machine)
    requires Inv(s) && m in s.agents
    ensures Inv(FinishStep(s, m))
  {
    hide Inv;
    var a := s.agents[m];
    if a.journal.Some? && a.process.Replaced? {
      var j := a.journal.value;
      InvAt(s, m);
      var j' := FinishJournal(j, a.file);
      if j.staged == Some(a.file) {
        StagedFileWitnesses(s, m, j);
        CloseIsBound(s, m, j, JournalComplete, None);
      } else {
        CloseIsBound(s, m, j, JournalNeedsReview, Some("settings_state_ambiguous"));
      }
      ConcludeKeepsInv(s, m, Some(j'), ResultOf(j'));
    }
  }

  lemma StagingIsBound(s: Sys, m: Machine, j: Journal)
    requires JournalOk(s, m, j) && j.state.Applying?
    ensures JournalOk(s, m, StageJournal(j)) && StageJournal(j).state.Applying? && StageJournal(j).request == j.request
  {
  }

  lemma FaultKeepsInv(s: Sys, m: Machine, stagedInMemory: bool)
    requires Inv(s) && m in s.agents
    ensures Inv(FaultStep(s, m, stagedInMemory))
  {
    hide Inv;
    var a := s.agents[m];
    if a.journal.Some? && (a.process.Marked? || a.process.Staged? || a.process.Replaced?) {
      InvAt(s, m);
      StagingIsBound(s, m, a.journal.value);
      var inMemory := if stagedInMemory && a.process.Marked? then StageJournal(a.journal.value) else a.journal.value;
      ClassifyIsReportable(s, m, inMemory);
      var j := Classify(inMemory, a.file);
      ConcludeKeepsInv(s, m, Some(j), ResultOf(j));
    }
  }

  lemma RecoverKeepsInv(s: Sys, m: Machine)
    requires Inv(s) && m in s.agents
    ensures Inv(RecoverStep(s, m))
  {
    hide Inv;
    var a := s.agents[m];
    if a.journal.Some? && a.process.Idle? {
      var j := a.journal.value;
      InvAt(s, m);
      if j.state.Applying? { ClassifyIsReportable(s, m, j); } else { ExpireIsReportable(s, m, j, a.clock); }
      var j' := if j.state.Applying? then Classify(j, a.file) else Expire(j, a.clock);
      ConcludeKeepsInv(s, m, Some(j'), ResultOf(j'));
    }
  }

  lemma HeldAt(s: Sys, m: Machine)
    requires Inv(s) && m in s.agents
    ensures (m, s.agents[m].file) in s.held
  {
  }

  /** An answer that changes nothing else. */
  lemma AnswerKeepsInv(s: Sys, m: Machine, r: Report)
    requires Inv(s) && m in s.agents && Truthful(s, m, r.request, r.state)
    ensures Inv(s.(answers := s.answers + {(m, r)}))
  {
    hide Inv;
    var s' := s.(answers := s.answers + {(m, r)});
    InvAt(s, m);
    HeldAt(s, m);
    assert s'.held == s.held + {(m, s.agents[m].file)};
    assert s'.agents == s.agents[m := s.agents[m]];
    SavedStaysTruthful(s, s', m);
    if Witnessed(s, r.request) { AgentMoveKeepsWitnessed(s, s', m, r.request); }
    AgentMoveKeepsInv(s, s', m);
  }

  lemma StatusKeepsInv(s: Sys, m: Machine, request: RequestId, lockFree: bool, source: Option<string>)
    requires Inv(s) && m in s.agents
    ensures Inv(StatusStep(s, m, request, lockFree, source))
  {
    hide Inv;
    var a := s.agents[m];
    if a.journal.None? || a.journal.value.request != request {
      AnswerKeepsInv(s, m, ReviewReport(request, "request_not_found"));
    } else if source != Some(a.journal.value.address) {
      AnswerKeepsInv(s, m, ReviewReport(request, "callback_source_mismatch"));
    } else if lockFree && a.process.Idle? {
      var j := Expire(a.journal.value, a.clock);
      ExpireIsReportable(s, m, a.journal.value, a.clock);
      ConcludeKeepsInv(s, m, Some(j), ResultOf(j));
    } else {
      InvAt(s, m);
      AnswerKeepsInv(s, m, ResultOf(a.journal.value));
    }
  }

  /** A tick, a crash or a foreign write touches only clock, process or file. */
  lemma QuietMoveKeepsInv(s: Sys, m: Machine, a: Agent)
    requires Inv(s) && m in s.agents
    requires a.journal == s.agents[m].journal && a.calls == s.agents[m].calls && a.clock >= s.agents[m].clock
    requires a.process == s.agents[m].process || a.process.Idle?
    ensures Inv(SetAgent(s, m, a))
  {
    hide Inv;
    var s' := SetAgent(s, m, a);
    InvAt(s, m);
    SavedStaysTruthful(s, s', m);
    AgentMoveKeepsInv(s, s', m);
  }

  lemma AgentStepKeepsInv(s: Sys, e: Event)
    requires Inv(s)
    requires OnAgent(e) && e.m in s.agents
    ensures Inv(AgentStep(s, e))
  {
    hide Inv, ReceiveStep, SendStep, TakeStep, LoseStep, WriterLockedStep, BeginStep, StageStep, ReplaceStep, FinishStep, FaultStep, RecoverStep, StatusStep, SetAgent;
    match e
    case AgentTick(m, dt) => QuietMoveKeepsInv(s, m, s.agents[m].(clock := s.agents[m].clock + dt as real));
    case Receive(m, d, env) => ReceiveKeepsInv(s, m, d, env);
    case Send(m) => SendKeepsInv(s, m);
    case Take(m) => TakeKeepsInv(s, m);
    case Lose(m, how) => LoseKeepsInv(s, m, how);
    case WriterLocked(m) => WriterLockedKeepsInv(s, m);
    case Begin(m) => BeginKeepsInv(s, m);
    case Stage(m) => StageKeepsInv(s, m);
    case Replace(m) => ReplaceKeepsInv(s, m);
    case Finish(m) => FinishKeepsInv(s, m);
    case Fault(m, stagedInMemory) => FaultKeepsInv(s, m, stagedInMemory);
    case Crash(m) => QuietMoveKeepsInv(s, m, s.agents[m].(process := Idle));
    case Recover(m) => RecoverKeepsInv(s, m);
    case Status(m, request, lockFree, source) => StatusKeepsInv(s, m, request, lockFree, source);
    case Foreign(m, f) => QuietMoveKeepsInv(s, m, s.agents[m].(file := f, tampered := true));
  }

  // ---------------------------------------------------------------- Controller events

  /** What a Controller event may change. */
  ghost predicate StoreMoves(s: Sys, s': Sys) {
    && s'.agents == s.agents && s'.addresses == s.addresses && s'.calls == s.calls && s'.answers == s.answers
    && s'.applied == s.applied && s'.held == s.held
    && StoreOk(s'.store) && Evolves(s.store, s'.store)
    && s.dispatches <= s'.dispatches
  }

  /** A claim is added only for a call that was made, for a request that could still redeem. */
  ghost predicate ClaimsGrow(s: Sys, s': Sys) {
    s'.claims == s.claims
    || exists k | k in s.calls ::
         && s'.claims.Keys == s.claims.Keys + {k}
         && s.calls[k].request in s.store.rows && s.store.rows[s.calls[k].request].ticket == Issued
         && MayStillRedeem(s.store.rows[s.calls[k].request].state)
         && s.calls[k].request in s'.store.rows && s'.store.rows[s.calls[k].request].ticket == Spent
  }

  lemma PendingIsSpent(s: Sys, m: Machine, id: RequestId)
    requires Inv(s) && Pending(s, m, id)
    ensures id in s.store.rows && s.store.rows[id].ticket == Spent && s.store.rows[id].target == m
  {
    hide Inv;
    InvAt(s, m);
    if s.agents[m].process.Waiting? { TakenIsSpent(s, m); BoundAt(s, s.agents[m].process.d); }
  }

  lemma WaitingCallIsKnown(s: Sys, m: Machine)
    requires Inv(s) && m in s.agents && s.agents[m].process.Waiting?
    ensures (m, s.agents[m].process.call) in s.calls && s.calls[(m, s.agents[m].process.call)] == s.agents[m].process.d
  {
    assert ProcessOk(s, m, s.agents[m]);
  }

  lemma RowAt(s: Sys, id: RequestId)
    requires Inv(s) && id in s.store.rows
    ensures RowOk(s.store.rows[id])
  {
  }

  lemma StoreMoveKeepsClosed(s: Sys, s': Sys, id: RequestId)
    requires Inv(s) && StoreMoves(s, s') && ClaimsGrow(s, s') && Closed(s, id)
    ensures Closed(s', id)
  {
    hide Inv, StoreOk;
    var m := s.store.rows[id].target;
    RowAt(s, id);
    assert RowEvolves(s.store.rows[id], s'.store.rows[id]);
    if m in s.agents && s.agents[m].process.Waiting? { WaitingCallIsKnown(s, m); }
  }

  lemma StoreMoveKeepsBound(s: Sys, s': Sys, d: Payload)
    requires StoreMoves(s, s') && Bound(s, d) && RowOk(s.store.rows[d.request])
    ensures Bound(s', d)
    ensures s.store.rows[d.request].ticket == Spent ==> s'.store.rows[d.request].ticket == Spent
  {
    assert RowEvolves(s.store.rows[d.request], s'.store.rows[d.request]);
  }

  lemma ClaimsAt(s: Sys, k: (Machine, nat))
    requires Inv(s) && k in s.calls
    ensures k.0 in s.agents && k.1 < s.agents[k.0].calls && s.calls[k] in s.dispatches && Bound(s, s.calls[k]) && s.calls[k].target == k.0
    ensures k in s.claims ==> s.store.rows[s.calls[k].request].ticket == Spent
  {
  }

  lemma ClaimsUnique(s: Sys, k: (Machine, nat), l: (Machine, nat))
    requires Inv(s) && k in s.claims && l in s.claims && k in s.calls && l in s.calls && s.calls[k].Dispatch? && s.calls[l].Dispatch?
    requires s.calls[k].request == s.calls[l].request
    ensures k == l
  {
  }

  lemma StoreMoveKeepsClaim(s: Sys, s': Sys, k: (Machine, nat))
    requires Inv(s) && StoreMoves(s, s') && ClaimsGrow(s, s') && k in s'.claims
    ensures k in s.calls && Bound(s, s.calls[k]) && Bound(s', s.calls[k]) && s'.store.rows[s.calls[k].request].ticket == Spent
    ensures k in s.claims ==> s.store.rows[s.calls[k].request].ticket == Spent
  {
    hide Inv, StoreOk;
    if k in s.claims { ClaimIsCalled(s, k); }
    ClaimsAt(s, k);
    RowAt(s, s.calls[k].request);
    StoreMoveKeepsBound(s, s', s.calls[k]);
  }

  lemma ClaimIsCalled(s: Sys, k: (Machine, nat))
    requires Inv(s) && k in s.claims
    ensures k in s.calls
  {
  }

  lemma StoreMoveKeepsUnique(s: Sys, s': Sys, k: (Machine, nat), l: (Machine, nat))
    requires Inv(s) && StoreMoves(s, s') && ClaimsGrow(s, s') && k in s'.claims && l in s'.claims
    requires k in s'.calls && l in s'.calls && s'.calls[k].Dispatch? && s'.calls[l].Dispatch?
    requires s'.calls[k].request == s'.calls[l].request
    ensures k == l
  {
    hide Inv, StoreOk, Evolves;
    StoreMoveKeepsClaim(s, s', k);
    StoreMoveKeepsClaim(s, s', l);
    if k in s.claims && l in s.claims { ClaimsUnique(s, k, l); }
  }

  lemma StoreMoveKeepsMessages(s: Sys, s': Sys)
    requires Inv(s) && StoreMoves(s, s') && ClaimsGrow(s, s')
    requires forall d | d in s'.dispatches && d !in s.dispatches :: Bound(s', d)
    ensures MessagesOk(s')
  {
    hide Inv, StoreOk, Evolves;
    forall d | d in s'.dispatches ensures Bound(s', d) {
      if d in s.dispatches {
        BoundAt(s, d);
        RowAt(s, d.request);
        StoreMoveKeepsBound(s, s', d);
      }
    }
    forall k | k in s'.calls
      ensures k.0 in s'.agents && k.1 < s'.agents[k.0].calls && s'.calls[k] in s'.dispatches && s'.calls[k].target == k.0
    {
      ClaimsAt(s, k);
    }
    forall k | k in s'.claims
      ensures k in s'.calls && Bound(s', s'.calls[k]) && s'.store.rows[s'.calls[k].request].ticket == Spent
    {
      StoreMoveKeepsClaim(s, s', k);
    }
    forall k, l | k in s'.claims && l in s'.claims && s'.calls[k].request == s'.calls[l].request
      ensures k == l
    {
      StoreMoveKeepsUnique(s, s', k, l);
    }
  }

  lemma StoreMoveKeepsAgents(s: Sys, s': Sys)
    requires Inv(s) && StoreMoves(s, s')
    ensures AgentsOk(s')
  {
    forall m | m in s'.agents
      ensures s'.agents[m].journal.Some? ==> JournalOk(s', m, s'.agents[m].journal.value)
      ensures ProcessOk(s', m, s'.agents[m])
      ensures (m, s'.agents[m].file) in s'.held
    {
      hide Inv, StoreOk;
      InvAt(s, m);
      HeldAt(s, m);
      if s.agents[m].journal.Some? {
        StoreMoveKeepsBound(s, s', s.agents[m].journal.value.digest);
      }
    }
  }

  lemma StoreMoveKeepsWitnessed(s: Sys, s': Sys, id: RequestId)
    requires Inv(s) && StoreMoves(s, s') && Witnessed(s, id)
    ensures Witnessed(s', id)
  {
    hide Inv, StoreOk;
    RowAt(s, id);
    assert RowEvolves(s.store.rows[id], s'.store.rows[id]);
    var f :| (s.store.rows[id].target, f) in s.held && HoldsIdentity(f, ExpectedIdentity(s.store.rows[id]).value);
    assert (s'.store.rows[id].target, f) in s'.held;
  }

  /** Rows that become resolved are closed, and rows that become complete are witnessed. */
  ghost predicate ResolvesTruthfully(s: Sys, s': Sys) {
    && (forall id | id in s'.store.rows && (s'.store.rows[id].state.Retryable? || s'.store.rows[id].state.Complete?)
          && !(id in s.store.rows && s.store.rows[id] == s'.store.rows[id]) :: Closed(s', id))
    && (forall id | id in s'.store.rows && s'.store.rows[id].state.Complete?
          && !(id in s.store.rows && s.store.rows[id] == s'.store.rows[id]) :: Witnessed(s', id))
  }

  lemma StoreMoveKeepsEnded(s: Sys, s': Sys)
    requires Inv(s) && StoreMoves(s, s') && ClaimsGrow(s, s') && ResolvesTruthfully(s, s')
    ensures EndedIsClosed(s')
  {
    forall id | Closed(s, id) ensures Closed(s', id) && s'.store.rows[id].target == s.store.rows[id].target {
      StoreMoveKeepsClosed(s, s', id);
      assert RowEvolves(s.store.rows[id], s'.store.rows[id]);
    }
  }

  lemma StoreMoveKeepsComplete(s: Sys, s': Sys)
    requires Inv(s) && StoreMoves(s, s') && ResolvesTruthfully(s, s')
    ensures CompleteIsWitnessed(s')
  {
    forall id | Witnessed(s, id) ensures Witnessed(s', id) { StoreMoveKeepsWitnessed(s, s', id); }
  }

  lemma StoreMoveKeepsInv(s: Sys, s': Sys)
    requires Inv(s) && StoreMoves(s, s') && ClaimsGrow(s, s') && ResolvesTruthfully(s, s') && NetworkOk(s')
    requires forall d | d in s'.dispatches && d !in s.dispatches :: Bound(s', d)
    ensures Inv(s')
  {
    StoreMoveKeepsMessages(s, s');
    StoreMoveKeepsAgents(s, s');
    StoreMoveKeepsEnded(s, s');
    StoreMoveKeepsComplete(s, s');
  }

  // ---------------------------------------------------------------- each Controller event

  /** No binding appears on a row that had none. */
  ghost predicate NoNewBinding(s: Store, s': Store) {
    forall id | id in s'.rows && s'.rows[id].binding.Some? :: id in s.rows && s.rows[id].binding == s'.rows[id].binding
  }

  lemma NetworkSurvives(s: Sys, s': Sys)
    requires NetworkOk(s) && StoreMoves(s, s') && NoNewBinding(s.store, s'.store)
    ensures NetworkOk(s')
  {
    forall id | id in s'.store.rows && s'.store.rows[id].binding.Some?
      ensures s'.store.rows[id].target in s'.addresses && s'.addresses[s'.store.rows[id].target] == s'.store.rows[id].binding.value.target.address
    {
      assert RowEvolves(s.store.rows[id], s'.store.rows[id]);
    }
  }

  /** Rows that change into a resolved state never had their ticket spent, and are not complete. */
  ghost predicate ResolvesUnspent(s: Store, s': Store) {
    forall id | id in s'.rows && (s'.rows[id].state.Retryable? || s'.rows[id].state.Complete?)
                && !(id in s.rows && s.rows[id] == s'.rows[id]) ::
      !s'.rows[id].state.Complete? && s'.rows[id].ticket != Spent
  }

  /** Transactions that involve no message bind no row and resolve only rows whose ticket was never spent. */
  lemma InternalBindsNothing(s: Store, op: Op, now: Time)
    requires StoreOk(s) && Internal(op)
    ensures NoNewBinding(s, Apply(s, op, now).store) && ResolvesUnspent(s, Apply(s, op, now).store)
  {
    match op
    case OpAdd(batch, key, targets, ids) =>
      if Apply(s, op, now).result.Ok? { AddInserts(s, batch, key, targets, ids, now); }
    case OpRecover => RecoveredRows(s, now);
    case OpFail(id, st, error) => if id in s.rows { FailBindsNothing(s, id, st, error, now); }
    case OpExpired(id, moment) => if id in s.rows { assert RowOk(s.rows[id]); ExpiredBindsNothing(s, id, moment); }
    case OpClaim(id) => if id in s.rows { OtherBindsNothing(s, op, now); }
    case OpMark(id) => if id in s.rows { OtherBindsNothing(s, op, now); }
    case OpPark(id, error) => if id in s.rows { OtherBindsNothing(s, op, now); }
    case OpPreclaim(id) => if id in s.rows { OtherBindsNothing(s, op, now); }
  }

  lemma PutBindsNothing(s: Store, id: RequestId, r: Row)
    requires id in s.rows && r.binding == s.rows[id].binding
    requires r.state.Retryable? || r.state.Complete? ==> !r.state.Complete? && r.ticket != Spent
    ensures NoNewBinding(s, Put(s, id, r)) && ResolvesUnspent(s, Put(s, id, r))
  {
  }

  lemma FailBindsNothing(s: Store, id: RequestId, st: RequestState, error: Option<string>, now: Time)
    requires id in s.rows
    ensures var s' := FailBeforeClaim(s, id, st, error, now).store; NoNewBinding(s, s') && ResolvesUnspent(s, s')
  {
    var s' := FailBeforeClaim(s, id, st, error, now).store;
    if s' != s { PutBindsNothing(s, id, s'.rows[id]); }
  }

  lemma ExpiredBindsNothing(s: Store, id: RequestId, moment: Time)
    requires id in s.rows
    ensures var s' := ResolveExpired(s, id, moment).store; NoNewBinding(s, s') && ResolvesUnspent(s, s')
  {
    PutBindsNothing(s, id, s.rows[id].(state := Retryable, error := None, ticket := Expired, updatedAt := moment));
  }

  lemma OtherBindsNothing(s: Store, op: Op, now: Time)
    requires (op.OpClaim? || op.OpMark? || op.OpPark? || op.OpPreclaim?) && op.id in s.rows
    ensures var s' := Apply(s, op, now).store; NoNewBinding(s, s') && ResolvesUnspent(s, s')
  {
  }

  lemma RecoveredRows(s: Store, now: Time)
    requires StoreOk(s)
    ensures NoNewBinding(s, RecoverSlot(s, now).store) && ResolvesUnspent(s, RecoverSlot(s, now).store)
  {
    RecoverAlwaysFreesTheSlot(s, now);
    hide StoreOk;
  }

  lemma UnspentIsClosed(s: Sys, s': Sys, id: RequestId)
    requires Inv(s) && StoreMoves(s, s') && s'.claims == s.claims && id in s'.store.rows && s'.store.rows[id].ticket != Spent
    requires !MayStillRedeem(s'.store.rows[id].state)
    ensures Closed(s', id)
  {
    hide Inv, StoreOk;
    var m := s'.store.rows[id].target;
    if id in s.store.rows { assert RowEvolves(s.store.rows[id], s'.store.rows[id]); }
    if Pending(s, m, id) { PendingIsSpent(s, m, id); }
  }

  lemma TransactKeepsInv(s: Sys, op: Op)
    requires Inv(s) && Internal(op)
    ensures Inv(s.(store := Apply(s.store, op, s.clock).store))
  {
    hide Inv, StoreOk, Apply;
    var s' := s.(store := Apply(s.store, op, s.clock).store);
    InvNetwork(s);
    OpKeepsStore(s.store, op, s.clock);
    InternalBindsNothing(s.store, op, s.clock);
    NetworkSurvives(s, s');
    hide NetworkOk, Evolves, ResolvesUnspent;
    UnspentMoveResolves(s, s');
    StoreMoveKeepsInv(s, s');
  }

  lemma IssueEffect(s: Store, id: RequestId, b: Binding, expiresAt: Time, now: Time)
    requires StoreOk(s) && IssueTicket(s, id, b, expiresAt, now).result.Ok?
    ensures var s' := IssueTicket(s, id, b, expiresAt, now).store;
            && StoreOk(s') && Evolves(s, s') && ResolvesUnspent(s, s')
            && id in s'.rows && s'.rows[id].binding == Some(b) && s'.rows[id].expiresAt == Some(expiresAt)
            && s'.rows[id].target == b.target.machine
            && forall o | o in s'.rows && o != id :: o in s.rows && s'.rows[o] == s.rows[o]
  {
    IssueKeepsStore(s, id, b, expiresAt, now);
  }

  lemma IssueKeepsNetwork(s: Sys, s': Sys, id: RequestId)
    requires NetworkOk(s) && s'.agents == s.agents && s'.addresses == s.addresses
    requires forall o | o in s'.store.rows && o != id :: o in s.store.rows && s'.store.rows[o] == s.store.rows[o]
    requires id in s'.store.rows && s'.store.rows[id].binding.Some? && s'.store.rows[id].target in s.addresses
    requires s'.store.rows[id].binding.value.target.address == s.addresses[s'.store.rows[id].target]
    ensures NetworkOk(s')
  {
  }

  lemma IssueKeepsInv(s: Sys, e: Event)
    requires Inv(s) && e.Issue?
    ensures Inv(IssueStep(s, e))
  {
    hide Inv, StoreOk, NetworkOk, RowEvolves, RowOk, IssueTicket;
    var s' := IssueStep(s, e);
    if s' != s {
      var expires := s.clock + e.lifetime as real;
      InvNetwork(s);
      IssueEffect(s.store, e.id, e.binding, expires, s.clock);
      IssueKeepsNetwork(s, s', e.id);
      hide Evolves;
      UnspentMoveResolves(s, s');
      StoreMoveKeepsInv(s, s');
    }
  }

  lemma UnspentMoveResolves(s: Sys, s': Sys)
    requires Inv(s) && StoreMoves(s, s') && s'.claims == s.claims && ResolvesUnspent(s.store, s'.store)
    ensures ResolvesTruthfully(s, s')
  {
    hide Inv, StoreOk;
    forall id | id in s'.store.rows && (s'.store.rows[id].state.Retryable? || s'.store.rows[id].state.Complete?)
                && !(id in s.store.rows && s.store.rows[id] == s'.store.rows[id])
      ensures Closed(s', id) && !s'.store.rows[id].state.Complete?
    {
      UnspentIsClosed(s, s', id);
    }
  }

  /** A redemption binds and resolves nothing; a granted one spends an issued ticket. */
  ghost predicate RedeemsOnly(s: Store, s': Store, id: RequestId, granted: bool) {
    && (granted ==> id in s.rows && s.rows[id].ticket == Issued && MayStillRedeem(s.rows[id].state)
                    && id in s'.rows && s'.rows[id].ticket == Spent)
    && (s' == s || (id in s.rows && exists r :: s' == Put(s, id, r) && r.binding == s.rows[id].binding
                                               && !r.state.Retryable? && !r.state.Complete?))
  }

  lemma RedeemEffect(s: Store, id: RequestId, c: RedeemCall, now: Time)
    ensures RedeemsOnly(s, Redeem(s, id, c, now).store, id, Redeem(s, id, c, now).result.Ok?)
    ensures Redeem(s, id, c, now).result.Ok? ==> Redeem(s, id, c, now).result.value.Granted?
  {
    var s' := Redeem(s, id, c, now).store;
    if s' != s { assert s' == Put(s, id, s'.rows[id]); }
  }

  lemma AnswerCallKeepsInv(s: Sys, e: Event)
    requires Inv(s) && e.AnswerCall?
    ensures Inv(AnswerStep(s, e))
  {
    hide Inv, StoreOk, NetworkOk;
    var key := (e.m, e.call);
    if key in s.calls && s.calls[key].Dispatch? && e.m in s.addresses {
      var d := s.calls[key];
      var s' := AnswerStep(s, e);
      InvNetwork(s);
      RedeemKeepsStore(s.store, d.request, CallOf(s, e.m, d, e), s.clock);
      RedeemEffect(s.store, d.request, CallOf(s, e.m, d, e), s.clock);
      hide Redeem;
      RedeemedKeepsInv(s, s', key, s'.claims != s.claims);
    }
  }

  lemma RedeemedKeepsInv(s: Sys, s': Sys, key: (Machine, nat), granted: bool)
    requires Inv(s) && key in s.calls && s.calls[key].Dispatch? && StoreMoves(s, s')
    requires s'.dispatches == s.dispatches
    requires if granted then s'.claims.Keys == s.claims.Keys + {key} else s'.claims == s.claims
    requires RedeemsOnly(s.store, s'.store, s.calls[key].request, granted)
    ensures Inv(s')
  {
    hide Inv, StoreOk;
    InvNetwork(s);
    NetworkSurvives(s, s');
    hide NetworkOk, Evolves;
    assert ClaimsGrow(s, s');
    assert ResolvesTruthfully(s, s');
    StoreMoveKeepsInv(s, s');
  }

  lemma InvNetwork(s: Sys)
    requires Inv(s)
    ensures NetworkOk(s) && StoreOk(s.store)
  {
  }

  lemma AnswerAt(s: Sys, m: Machine, r: Report)
    requires Inv(s) && (m, r) in s.answers
    ensures Truthful(s, m, r.request, r.state)
  {
    assert (m, r).1 == r;
  }

  /** Adopting a report changes one row, to the state the report stands for. */
  ghost predicate AdoptsInto(s: Store, s': Store, id: RequestId, t: Terminal) {
    s' == s || (id in s.rows && exists r :: s' == Put(s, id, r) && r.state == TerminalState(t) && r.binding == s.rows[id].binding)
  }

  lemma AdoptEffect(s: Store, id: RequestId, t: Terminal, identity: Option<Identity>, error: Option<string>, source: string, now: Time)
    requires StoreOk(s)
    ensures AdoptsInto(s, AdoptStatus(s, id, t, identity, error, source, now).store, id, t)
    ensures AdoptsInto(s, ReleaseFence(s, id, t, identity, now).store, id, t)
  {
    var a := AdoptStatus(s, id, t, identity, error, source, now).store;
    if a != s { assert a == Put(s, id, a.rows[id]); }
    var b := ReleaseFence(s, id, t, identity, now).store;
    if b != s { assert b == Put(s, id, b.rows[id]); }
  }

  lemma AdoptKeepsInv(s: Sys, m: Machine, r: Report, stopped: bool)
    requires Inv(s)
    ensures Inv(AdoptStep(s, m, r, stopped))
  {
    hide Inv, StoreOk, AdoptStatus, ReleaseFence;
    if (m, r) in s.answers && m in s.addresses && TerminalOf(r.state).Some? {
      var s' := AdoptStep(s, m, r, stopped);
      var t := TerminalOf(r.state).value;
      InvNetwork(s);
      AdoptEffect(s.store, r.request, t, r.identity, r.error, s.addresses[m], s.clock);
      ReleaseKeepsStore(s.store, r.request, t, r.identity, s.clock);
      AdoptKeepsStore(s.store, r.request, t, r.identity, r.error, s.addresses[m], s.clock);
      hide Evolves;
      AdoptedKeepsInv(s, s', m, r, t);
    }
  }

  lemma AdoptedKeepsInv(s: Sys, s': Sys, m: Machine, r: Report, t: Terminal)
    requires Inv(s) && (m, r) in s.answers && TerminalOf(r.state) == Some(t)
    requires s' == s.(store := s'.store) && StoreMoves(s, s') && AdoptsInto(s.store, s'.store, r.request, t)
    ensures Inv(s')
  {
    hide Inv, StoreOk;
    AnswerAt(s, m, r);
    InvNetwork(s);
    assert NoNewBinding(s.store, s'.store);
    NetworkSurvives(s, s');
    AdoptedResolves(s, s', m, r, t);
    hide StoreMoves, AdoptsInto, NetworkOk, ResolvesTruthfully;
    StoreMoveKeepsInv(s, s');
  }

  lemma AdoptedResolves(s: Sys, s': Sys, m: Machine, r: Report, t: Terminal)
    requires Inv(s) && (m, r) in s.answers && TerminalOf(r.state) == Some(t)
    requires s' == s.(store := s'.store) && StoreMoves(s, s') && AdoptsInto(s.store, s'.store, r.request, t)
    ensures ResolvesTruthfully(s, s')
  {
    hide Inv, StoreOk;
    AnswerAt(s, m, r);
    hide Closed, Witnessed, StoreMoves;
    if s'.store != s.store {
      if Closed(s, r.request) { StoreMoveKeepsClosed(s, s', r.request); }
      if Witnessed(s, r.request) { StoreMoveKeepsWitnessed(s, s', r.request); }
    }
  }

  /** Every event keeps the global invariant. */
  lemma NextKeepsInv(s: Sys, e: Event)
    requires Inv(s)
    ensures Inv(Next(s, e))
  {
    hide Inv, AgentStep, IssueStep, AnswerStep, AdoptStep, Apply;
    match e
    case Tick(dt) => TickKeepsInv(s, dt);
    case Transact(op) => if Internal(op) { TransactKeepsInv(s, op); }
    case Issue(_, _, _, _, _) => IssueKeepsInv(s, e);
    case AnswerCall(_, _, _, _, _) => AnswerCallKeepsInv(s, e);
    case Adopt(m, r) => AdoptKeepsInv(s, m, r, false);
    case Release(m, r) => AdoptKeepsInv(s, m, r, true);
    case _ => if e.m in s.agents { AgentStepKeepsInv(s, e); }
  }

  lemma TickKeepsInv(s: Sys, dt: nat)
    requires Inv(s)
    ensures Inv(s.(clock := s.clock + dt as real))
  {
    var s' := s.(clock := s.clock + dt as real);
    hide Inv;
    InvNetwork(s);
    assert Evolves(s.store, s'.store);
    NetworkSurvives(s, s');
    StoreMoveKeepsInv(s, s');
  }

  // ---------------------------------------------------------------- theorems

  ghost predicate Init(s: Sys) {
    && s.store == Store(map[], map[])
    && s.agents.Keys == s.addresses.Keys
    && (forall m, n | m in s.addresses && n in s.addresses && s.addresses[m] == s.addresses[n] :: m == n)
    && s.dispatches == {} && s.calls == map[] && s.claims == map[] && s.answers == {} && s.applied == []
    && (forall m | m in s.agents :: s.agents[m].journal.None? && s.agents[m].process.Idle? && (m, s.agents[m].file) in s.held)
  }

  lemma InitIsInv(s: Sys)
    requires Init(s)
    ensures Inv(s)
  {
  }

  /** The invariant holds in every state every run reaches. */
  lemma {:induction false} RunKeepsInv(s: Sys, es: seq<Event>)
    requires Inv(s)
    ensures Inv(Run(s, es))
    decreases es
  {
    hide Inv, Next;
    if es != [] {
      NextKeepsInv(s, es[0]);
      RunKeepsInv(Next(s, es[0]), es[1..]);
    }
  }

  /** A request that can still lead to a write: an unapplied claim, or a ticket that may yet be redeemed. */
  predicate MayWrite(s: Sys, id: RequestId) {
    id in s.store.rows && (Pending(s, s.store.rows[id].target, id) || MayStillRedeem(s.store.rows[id].state))
  }

  lemma NextEvolves(s: Sys, e: Event)
    requires Inv(s)
    ensures Evolves(s.store, Next(s, e).store)
  {
    InvNetwork(s);
    hide Inv, StoreOk, AgentStep, AnswerStep, AdoptStep, IssueStep, Apply, RowEvolves;
    if OnAgent(e) {
      if e.m in s.agents { AgentStepIsLocal(s, e); }
      NothingEvolves(s.store);
    } else if e.Tick? {
      NothingEvolves(s.store);
    } else {
      hide Evolves;
      ControllerEvolves(s, e);
    }
  }

  lemma NothingEvolves(s: Store)
    ensures Evolves(s, s)
  {
  }

  lemma ControllerEvolves(s: Sys, e: Event)
    requires StoreOk(s.store) && !OnAgent(e) && !e.Tick?
    ensures Evolves(s.store, Next(s, e).store)
  {
    hide StoreOk, AnswerStep, AdoptStep, IssueStep, Apply, Evolves;
    match e
    case Transact(op) =>
      OpKeepsStore(s.store, op, s.clock);
      NothingEvolves(s.store);
    case Issue(_, _, _, _, _) => IssueEvolves(s, e);
    case AnswerCall(_, _, _, _, _) => AnswerEvolves(s, e);
    case Adopt(m, r) => AdoptEvolves(s, m, r, false);
    case Release(m, r) => AdoptEvolves(s, m, r, true);
  }

  lemma AnswerEvolves(s: Sys, e: Event)
    requires StoreOk(s.store) && e.AnswerCall?
    ensures Evolves(s.store, AnswerStep(s, e).store)
  {
    hide StoreOk, Evolves, Redeem;
    NothingEvolves(s.store);
    if (e.m, e.call) in s.calls && s.calls[(e.m, e.call)].Dispatch? && e.m in s.addresses {
      RedeemKeepsStore(s.store, s.calls[(e.m, e.call)].request, CallOf(s, e.m, s.calls[(e.m, e.call)], e), s.clock);
    }
  }

  lemma IssueEvolves(s: Sys, e: Event)
    requires StoreOk(s.store) && e.Issue?
    ensures Evolves(s.store, IssueStep(s, e).store)
  {
    SmallOpKeepsStore(s.store, OpIssue(e.id, e.binding, s.clock + e.lifetime as real), s.clock);
  }

  lemma AdoptEvolves(s: Sys, m: Machine, r: Report, stopped: bool)
    requires StoreOk(s.store)
    ensures Evolves(s.store, AdoptStep(s, m, r, stopped).store)
  {
    hide StoreOk, AdoptStatus, ReleaseFence;
    if (m, r) in s.answers && m in s.addresses && TerminalOf(r.state).Some? {
      var t := TerminalOf(r.state).value;
      ReleaseKeepsStore(s.store, r.request, t, r.identity, s.clock);
      AdoptKeepsStore(s.store, r.request, t, r.identity, r.error, s.addresses[m], s.clock);
    }
  }

  /** Between 'applying' and its terminal save the file is the preimage or the staged bytes. */
  predicate UndisturbedAt(a: Agent) {
    !a.tampered && a.journal.Some? && a.journal.value.state.Applying? ==>
      a.file == a.journal.value.preimage || a.journal.value.staged == Some(a.file)
  }

  /** What every Agent event leaves alone, and the one way the record of applications grows. */
  ghost predicate LocalEffect(s: Sys, s': Sys, m: Machine) {
    && m in s.agents && m in s'.agents
    && s'.store == s.store && s'.claims == s.claims && s'.agents == s.agents[m := s'.agents[m]]
    && (forall id :: Pending(s', m, id) ==> Pending(s, m, id))
    && (UndisturbedAt(s.agents[m]) ==> UndisturbedAt(s'.agents[m]))
    && (s'.applied == s.applied || exists id :: s'.applied == s.applied + [id] && Pending(s, m, id))
  }

  lemma ConcludeEffect(s: Sys, m: Machine, j: Option<Journal>, r: Report)
    requires m in s.agents
    requires j == s.agents[m].journal || (j.Some? && !j.value.state.Applying?)
    ensures LocalEffect(s, Conclude(s, m, j, r), m)
  {
  }

  /** Closing a journal leaves no applying journal behind. */
  lemma ReceiveEffect(s: Sys, m: Machine, d: Payload, env: Env)
    requires m in s.agents
    ensures LocalEffect(s, ReceiveStep(s, m, d, env), m)
  {
    var a := s.agents[m];
    if d in s.dispatches && d.Dispatch? && d.target == m && a.process.Idle? {
      match Admit(a.journal, a.file, d, env, a.clock)
      case Reply(saved, report) => ConcludeEffect(s, m, saved, report);
      case Attempt(j) =>
    }
  }

  lemma SendEffect(s: Sys, m: Machine)
    requires m in s.agents && (m, s.agents[m].calls) !in s.claims && ProcessOk(s, m, s.agents[m])
    ensures LocalEffect(s, SendStep(s, m), m)
  {
  }

  lemma TakeEffect(s: Sys, m: Machine)
    requires m in s.agents && ProcessOk(s, m, s.agents[m])
    ensures LocalEffect(s, TakeStep(s, m), m)
  {
    var a := s.agents[m];
    if a.process.Waiting? && (m, a.process.call) in s.claims && a.journal.Some? {
      if a.process.d.Dispatch? && s.claims[(m, a.process.call)] == ExpectedClaim(a.process.d) {
      } else {
        ConcludeLose(s, m, BadClaim);
      }
    }
  }

  lemma ConcludeLose(s: Sys, m: Machine, how: CallbackFailure)
    requires m in s.agents && ProcessOk(s, m, s.agents[m])
    ensures LocalEffect(s, LoseStep(s, m, how), m)
  {
    var a := s.agents[m];
    if a.journal.Some? && (a.process.Waiting? || (a.process.Ready? && how.NoToken?)) {
      var j := AfterFailure(a.journal.value, how);
      ConcludeEffect(s, m, Some(j), ResultOf(j));
    }
  }

  lemma WriterLockedEffect(s: Sys, m: Machine)
    requires m in s.agents && ProcessOk(s, m, s.agents[m])
    ensures LocalEffect(s, WriterLockedStep(s, m), m)
  {
    var a := s.agents[m];
    if a.journal.Some? && a.process.Holding? { ConcludeEffect(s, m, Some(WriterBusy(a.journal.value)), ResultOf(WriterBusy(a.journal.value))); }
  }

  lemma BeginEffect(s: Sys, m: Machine)
    requires m in s.agents && ProcessOk(s, m, s.agents[m])
    ensures LocalEffect(s, BeginStep(s, m), m)
  {
    var a := s.agents[m];
    if a.journal.Some? && a.process.Holding? && a.process.d.Dispatch? {
      var j := a.journal.value;
      var r := Review(j, "settings_preimage_changed");
      ConcludeEffect(s, m, a.journal, ReviewReport(a.process.d.request, "settings_invalid"));
      ConcludeEffect(s, m, Some(r), ResultOf(r));
    }
  }

  lemma StageEffect(s: Sys, m: Machine)
    requires m in s.agents && ProcessOk(s, m, s.agents[m])
    ensures LocalEffect(s, StageStep(s, m), m)
  {
  }

  lemma ReplaceEffect(s: Sys, m: Machine)
    requires m in s.agents && ProcessOk(s, m, s.agents[m])
    requires s.agents[m].journal.Some? ==> s.agents[m].journal.value.digest.Dispatch?
                                           && s.agents[m].journal.value.digest.request == s.agents[m].journal.value.request
    ensures LocalEffect(s, ReplaceStep(s, m), m)
  {
    var a := s.agents[m];
    if a.journal.Some? && a.process.Staged? && a.journal.value.staged.Some? {
      var j := a.journal.value;
      if a.file != j.preimage {
        ConcludeEffect(s, m, Some(Review(j, "settings_preimage_changed")), ResultOf(Review(j, "settings_preimage_changed")));
      } else {
        assert Pending(s, m, j.request);
        assert ReplaceStep(s, m).applied == s.applied + [j.request];
      }
    }
  }

  lemma FinishEffect(s: Sys, m: Machine)
    requires m in s.agents
    ensures LocalEffect(s, FinishStep(s, m), m)
  {
    var a := s.agents[m];
    if a.journal.Some? {
      var j := FinishJournal(a.journal.value, a.file);
      ConcludeEffect(s, m, Some(j), ResultOf(j));
    }
  }

  lemma FaultEffect(s: Sys, m: Machine, stagedInMemory: bool)
    requires m in s.agents
    ensures LocalEffect(s, FaultStep(s, m, stagedInMemory), m)
  {
    var a := s.agents[m];
    if a.journal.Some? {
      var j := Classify(if stagedInMemory && a.process.Marked? then StageJournal(a.journal.value) else a.journal.value, a.file);
      ConcludeEffect(s, m, Some(j), ResultOf(j));
    }
  }

  lemma RecoverEffect(s: Sys, m: Machine)
    requires m in s.agents
    ensures LocalEffect(s, RecoverStep(s, m), m)
  {
    var a := s.agents[m];
    if a.journal.Some? {
      var j := a.journal.value;
      var j' := if j.state.Accepted? || j.state.Applying? then Classify(j, a.file) else Expire(j, a.clock);
      ConcludeEffect(s, m, Some(j'), ResultOf(j'));
    }
  }

  lemma StatusEffect(s: Sys, m: Machine, request: RequestId, lockFree: bool, source: Option<string>)
    requires m in s.agents
    ensures LocalEffect(s, StatusStep(s, m, request, lockFree, source), m)
  {
    var a := s.agents[m];
    assert s.agents == s.agents[m := a];
    if a.journal.Some? {
      var j := Expire(a.journal.value, a.clock);
      ConcludeEffect(s, m, Some(j), ResultOf(j));
    }
    hide Expire, ResultOf, Conclude;
  }

  lemma AgentStepIsLocal(s: Sys, e: Event)
    requires Inv(s) && OnAgent(e) && e.m in s.agents
    ensures LocalEffect(s, AgentStep(s, e), e.m)
  {
    hide Inv, ReceiveStep, SendStep, TakeStep, LoseStep, WriterLockedStep, BeginStep, StageStep, ReplaceStep, FinishStep, FaultStep, RecoverStep, StatusStep;
    InvAt(s, e.m);
    FreshCallIsUnanswered(s, e.m);
    match e
    case AgentTick(m, dt) =>
    case Receive(m, d, env) => ReceiveEffect(s, m, d, env);
    case Send(m) => SendEffect(s, m);
    case Take(m) => TakeEffect(s, m);
    case Lose(m, how) => ConcludeLose(s, m, how);
    case WriterLocked(m) => WriterLockedEffect(s, m);
    case Begin(m) => BeginEffect(s, m);
    case Stage(m) => StageEffect(s, m);
    case Replace(m) => ReplaceEffect(s, m);
    case Finish(m) => FinishEffect(s, m);
    case Fault(m, stagedInMemory) => FaultEffect(s, m, stagedInMemory);
    case Crash(m) =>
    case Recover(m) => RecoverEffect(s, m);
    case Status(m, request, lockFree, source) => StatusEffect(s, m, request, lockFree, source);
    case Foreign(m, f) =>
  }

  /** A Controller event changes no Agent and records no application. */
  lemma ControllerIsRemote(s: Sys, e: Event)
    requires !OnAgent(e)
    ensures Next(s, e).agents == s.agents && Next(s, e).applied == s.applied
    ensures !e.AnswerCall? ==> Next(s, e).claims == s.claims
  {
    hide Apply, AdoptStatus, ReleaseFence, Redeem, IssueTicket;
  }

  /** Only replacing a settings file extends the record of applications, and only for a pending claim. */
  lemma OnlyPendingIsApplied(s: Sys, e: Event)
    requires Inv(s)
    ensures Next(s, e).applied == s.applied
            || exists id :: Next(s, e).applied == s.applied + [id] && id in s.store.rows && Pending(s, s.store.rows[id].target, id)
  {
    hide Inv, AgentStep;
    if !OnAgent(e) {
      ControllerIsRemote(s, e);
    } else if e.m in s.agents {
      AgentStepIsLocal(s, e);
      if Next(s, e).applied != s.applied {
        var id :| Next(s, e).applied == s.applied + [id] && Pending(s, e.m, id);
        PendingIsSpent(s, e.m, id);
      }
    }
  }

  /** Once a request cannot write, no event gives it back the power to. */
  lemma PowerlessStaysPowerless(s: Sys, e: Event, id: RequestId)
    requires Inv(s) && id in s.store.rows && !MayWrite(s, id)
    ensures id in Next(s, e).store.rows && !MayWrite(Next(s, e), id)
  {
    NextEvolves(s, e);
    var s' := Next(s, e);
    assert RowEvolves(s.store.rows[id], s'.store.rows[id]);
    var m := s.store.rows[id].target;
    hide Inv, Next, Evolves;
    if e.AnswerCall? {
      AnswerGainsNothing(s, e, m, id);
    } else if !OnAgent(e) {
      OtherGainsNothing(s, e, m, id);
    } else {
      AgentGainsNothing(s, e, m, id);
    }
  }

  lemma AnswerGainsNothing(s: Sys, e: Event, m: Machine, id: RequestId)
    requires Inv(s) && e.AnswerCall? && id in s.store.rows && !MayStillRedeem(s.store.rows[id].state) && !Pending(s, m, id)
    ensures !Pending(Next(s, e), m, id)
  {
    hide Inv, AnswerStep;
    AnswerGainsNoClaim(s, e, m, id);
  }

  lemma OtherGainsNothing(s: Sys, e: Event, m: Machine, id: RequestId)
    requires !OnAgent(e) && !e.AnswerCall? && !Pending(s, m, id)
    ensures !Pending(Next(s, e), m, id)
  {
    hide Apply;
    ControllerIsRemote(s, e);
  }

  lemma AgentGainsNothing(s: Sys, e: Event, m: Machine, id: RequestId)
    requires Inv(s) && OnAgent(e) && id in s.store.rows && !Pending(s, m, id)
    ensures !Pending(Next(s, e), m, id)
  {
    hide Inv, AgentStep;
    if e.m in s.agents { AgentStepIsLocal(s, e); }
  }

  lemma AnswerGainsNoClaim(s: Sys, e: Event, m: Machine, id: RequestId)
    requires Inv(s) && e.AnswerCall? && id in s.store.rows && !MayStillRedeem(s.store.rows[id].state) && !Pending(s, m, id)
    ensures !Pending(AnswerStep(s, e), m, id)
  {
    hide Inv;
    var key := (e.m, e.call);
    if m in s.agents && s.agents[m].process.Waiting? { WaitingCallIsKnown(s, m); }
    if key in s.calls && s.calls[key].Dispatch? && e.m in s.addresses {
      RedeemEffect(s.store, s.calls[key].request, CallOf(s, e.m, s.calls[key], e), s.clock);
      hide Redeem;
    }
  }

  /** How often `id` replaced a settings file. */
  function Applications(applied: seq<RequestId>, id: RequestId): nat {
    multiset(applied)[id]
  }

  /** A request that cannot write now is not applied by any later step of any run. */
  lemma PowerlessStepApplies(s: Sys, e: Event, id: RequestId)
    requires Inv(s) && id in s.store.rows && !MayWrite(s, id)
    ensures Applications(Next(s, e).applied, id) == Applications(s.applied, id)
  {
    OnlyPendingIsApplied(s, e);
    hide Inv, Next;
  }

  lemma {:induction false} PowerlessIsNeverApplied(s: Sys, es: seq<Event>, id: RequestId)
    requires Inv(s) && id in s.store.rows && !MayWrite(s, id)
    ensures Applications(Run(s, es).applied, id) == Applications(s.applied, id)
    decreases es
  {
    if es != [] {
      var s' := Next(s, es[0]);
      PowerlessStepApplies(s, es[0], id);
      hide Inv, Next, MayWrite, Applications;
      PowerlessStaysPowerless(s, es[0], id);
      NextKeepsInv(s, es[0]);
      PowerlessIsNeverApplied(s', es[1..], id);
    }
  }

  lemma ResolvedIsPowerless(s: Sys, id: RequestId)
    requires Inv(s) && id in s.store.rows && (s.store.rows[id].state.Retryable? || s.store.rows[id].state.Complete?)
    ensures !MayWrite(s, id)
  {
    assert Closed(s, id);
  }

  /**
   Retryable is safe to reissue: whatever dispatches are still in flight, whichever side crashes and
   whatever else is created for the target, a retryable request is never applied again.
   */
  lemma RetryableIsSafeToReissue(s: Sys, es: seq<Event>, id: RequestId)
    requires Inv(s) && id in s.store.rows && s.store.rows[id].state.Retryable?
    ensures Applications(Run(s, es).applied, id) == Applications(s.applied, id)
  {
    ResolvedIsPowerless(s, id);
    PowerlessIsNeverApplied(s, es, id);
  }

  /** At most one request per target can still write its Agent's identity. */
  lemma OneWriterPerTarget(s: Sys, a: RequestId, b: RequestId)
    requires Inv(s) && MayWrite(s, a) && MayWrite(s, b) && s.store.rows[a].target == s.store.rows[b].target
    ensures a == b
  {
    forall id | id == a || id == b
      ensures Unresolved(s.store.rows[id].state)
    {
      if s.store.rows[id].state.Retryable? || s.store.rows[id].state.Complete? { ResolvedIsPowerless(s, id); }
      if Pending(s, s.store.rows[id].target, id) { PendingIsSpent(s, s.store.rows[id].target, id); RowAt(s, id); }
    }
    InvNetwork(s);
  }

  /** Over every run a request replaces a settings file at most once. */
  lemma AppliedAtMostOnce(s: Sys, es: seq<Event>, id: RequestId)
    requires Inv(s)
    ensures Applications(Run(s, es).applied, id) <= 1
  {
    RunKeepsInv(s, es);
    DistinctCounts(Run(s, es).applied, id);
  }

  lemma {:induction false} DistinctCounts(xs: seq<RequestId>, id: RequestId)
    requires Distinct(xs)
    ensures Applications(xs, id) <= 1
    decreases xs
  {
    if xs != [] {
      assert xs == xs[..|xs| - 1] + [xs[|xs| - 1]];
      DistinctCounts(xs[..|xs| - 1], id);
      if xs[|xs| - 1] == id { assert id !in xs[..|xs| - 1]; }
    }
  }

  /** A complete row means the target's file has held exactly the identity the ticket was issued for. */
  lemma CompleteMeansHeld(s: Sys, es: seq<Event>, id: RequestId)
    requires Inv(s) && id in Run(s, es).store.rows && Run(s, es).store.rows[id].state.Complete?
    ensures Witnessed(Run(s, es), id)
  {
    RunKeepsInv(s, es);
  }

  // ---------------------------------------------------------------- an apply nobody disturbs

  ghost predicate Undisturbed(s: Sys) {
    forall m | m in s.agents :: UndisturbedAt(s.agents[m])
  }

  lemma NextKeepsUndisturbed(s: Sys, e: Event)
    requires Inv(s) && Undisturbed(s)
    ensures Undisturbed(Next(s, e))
  {
    hide Inv, AgentStep, UndisturbedAt;
    if !OnAgent(e) { ControllerIsRemote(s, e); } else if e.m in s.agents { AgentStepIsLocal(s, e); }
  }

  /** With no foreign writer since an apply began, the file is always one of the two, over every run. */
  lemma {:induction false} RunKeepsUndisturbed(s: Sys, es: seq<Event>)
    requires Inv(s) && Undisturbed(s)
    ensures Undisturbed(Run(s, es))
    decreases es
  {
    if es != [] {
      var e := es[0];
      NextKeepsInv(s, e);
      NextKeepsUndisturbed(s, e);
      hide Inv, Next, Undisturbed;
      RunKeepsUndisturbed(Next(s, e), es[1..]);
    }
  }

  /** With no foreign writer, restart recovery always decides, and decides what the file shows. */
  lemma UndisturbedRecoveryDecides(s: Sys, m: Machine)
    requires Inv(s) && Undisturbed(s) && m in s.agents && !s.agents[m].tampered
    requires s.agents[m].journal.Some? && s.agents[m].journal.value.state.Applying?
    ensures var j := s.agents[m].journal.value;
            Classify(j, s.agents[m].file).state == (if j.staged == Some(s.agents[m].file) then JournalComplete else JournalNeverApplied)
  {
    InvAt(s, m);
  }
}

/**
 The Controller's enrollment-repair request table as a value: one row per request, one function per
 store transaction.  A transaction either commits a new table or leaves it as it was, except that a
 redemption that arrives too late commits the expiry and then still reports an error.

 Digests are injective: a digest is the text it was taken from.
 */
module RepairRows {
  import opened Outcomes

  type RequestId = string
  type BatchId = string
  type Machine = string
  type Time = real

  datatype Digest = Sha256(text: string)

  datatype RequestState =
    | Queued | Checking | HubUpdateRequired | UpdatingHub
    | TicketIssued | Dispatched | Redeemed | Verifying
    | ConfirmationPending | Complete | Retryable | NeedsReview

  /** `Spent` is the table's 'redeemed' and `NoTicket` its NULL. */
  datatype TicketStatus = NoTicket | Issued | Spent | Expired

  datatype Controller = Controller(role: string, siteId: string, siteName: string, controllerId: string)
  datatype Target = Target(machine: Machine, host: string, address: string, controllerUrl: string)
  datatype Binding = Binding(target: Target, controller: Controller, fleet: Digest, ticket: Digest)

  datatype Identity = Identity(role: string, siteId: string, siteName: string, controllerId: string)
  datatype Claim = Claim(request: RequestId, target: Machine, identity: Identity)

  /** The terminal states an Agent may report. */
  datatype Terminal = AgentComplete | AgentNeverApplied | AgentNeedsReview

  datatype Row = Row(
    batch: BatchId, ordinal: nat, target: Machine, createdAt: Time,
    state: RequestState, slot: bool,
    ticket: TicketStatus, binding: Option<Binding>, issuedAt: Option<Time>, expiresAt: Option<Time>,
    redeemedAt: Option<Time>, agentTerminal: Option<Terminal>, error: Option<string>, updatedAt: Time)

  /** What the scheduler's ORDER BY reads from a batch. */
  datatype BatchKey = BatchKey(createdAt: Time, rowid: nat)

  datatype Store = Store(rows: map<RequestId, Row>, batches: map<BatchId, BatchKey>)

  /** Everything an Agent's redemption call carries, plus what the Controller re-reads for it. */
  datatype RedeemCall = RedeemCall(
    ticket: string, expiresAt: Time, machine: Machine, source: string,
    snapshot: Target, controller: Controller, fleet: Digest)

  datatype Answer = Nothing | Granted(claim: Claim) | Row_(id: RequestId) | Recovered(count: nat)

  /** The table after a transaction, and what the call returned or raised. */
  datatype Step = Step(store: Store, result: Result<Answer>)

  // ---------------------------------------------------------------- predicates of the schema

  /** Rows the one-unresolved-per-target index covers. */
  predicate Unresolved(st: RequestState) {
    st != Complete && st != Retryable && st != HubUpdateRequired
  }

  /** States from which `redeem` could still return a claim, now or after scheduling. */
  predicate MayStillRedeem(st: RequestState) {
    st.Queued? || st.Checking? || st.TicketIssued? || st.Dispatched?
  }

  predicate Preclaim(st: RequestState) {
    st.Queued? || st.Checking? || st.HubUpdateRequired? || st.UpdatingHub?
  }

  predicate HoldsNoAuthority(r: Row) {
    r.ticket == NoTicket && r.issuedAt.None? && r.redeemedAt.None?
  }

  ghost predicate SlotUnique(s: Store) {
    forall a, b | a in s.rows && b in s.rows && s.rows[a].slot && s.rows[b].slot :: a == b
  }

  ghost predicate TargetUnique(s: Store) {
    forall a, b | a in s.rows && b in s.rows && Unresolved(s.rows[a].state) && Unresolved(s.rows[b].state)
                  && s.rows[a].target == s.rows[b].target :: a == b
  }

  /** How state, ticket and slot of one row fit together. */
  predicate RowOk(r: Row) {
    && (r.ticket == NoTicket <==> r.issuedAt.None?)
    && (r.binding.Some? <==> r.issuedAt.Some?)
    && (r.expiresAt.Some? <==> r.issuedAt.Some?)
    && (r.binding.Some? ==> r.binding.value.target.machine == r.target)
    && (r.ticket == Spent <==> r.redeemedAt.Some?)
    && (match r.ticket
        case NoTicket => r.state.Queued? || r.state.Checking? || r.state.HubUpdateRequired? || r.state.UpdatingHub?
                         || r.state.Retryable? || r.state.NeedsReview?
        case Issued => r.state.TicketIssued? || r.state.Dispatched? || r.state.ConfirmationPending?
        case Spent => r.state.Redeemed? || r.state.Verifying? || r.state.ConfirmationPending? || r.state.Complete?
                      || r.state.Retryable? || r.state.NeedsReview?
        case Expired => r.state.ConfirmationPending? || r.state.Retryable? || r.state.NeedsReview?)
    && (r.slot ==> r.state.Checking? || r.state.TicketIssued? || r.state.Dispatched? || r.state.Redeemed? || r.state.Verifying?)
  }

  ghost predicate StoreOk(s: Store) {
    && (forall id | id in s.rows :: RowOk(s.rows[id]))
    && SlotUnique(s)
    && TargetUnique(s)
  }

  // ---------------------------------------------------------------- transactions

  function Put(s: Store, id: RequestId, r: Row): Store {
    s.(rows := s.rows[id := r])
  }

  function Refuse(s: Store, code: string): Step {
    Step(s, Err(code))
  }

  function NewRow(batch: BatchId, ordinal: nat, target: Machine, now: Time): Row {
    Row(batch, ordinal, target, now, Queued, false, NoTicket, None, None, None, None, None, None, now)
  }

  predicate TargetFree(s: Store, m: Machine) {
    forall id | id in s.rows && s.rows[id].target == m :: !Unresolved(s.rows[id].state)
  }

  function NewRows(batch: BatchId, targets: seq<Machine>, ids: seq<RequestId>, now: Time): map<RequestId, Row>
    requires |targets| == |ids| && Distinct(ids)
  {
    map i | 0 <= i < |ids| :: ids[i] := NewRow(batch, i, targets[i], now)
  }

  /** The INSERTs of `create_or_adopt_batch`; the unique index and primary key refuse the rest. */
  function AddRequests(s: Store, batch: BatchId, key: BatchKey, targets: seq<Machine>, ids: seq<RequestId>, now: Time): Step {
    if |targets| != |ids| || !Distinct(targets) || !Distinct(ids) || batch in s.batches
       || (exists i | 0 <= i < |ids| :: ids[i] in s.rows)
       || (exists i | 0 <= i < |targets| :: !TargetFree(s, targets[i]))
    then Refuse(s, "integrity_error")
    else Step(s.(rows := s.rows + NewRows(batch, targets, ids, now),
                 batches := s.batches[batch := key]),
              Ok(Nothing))
  }

  function IssueTicket(s: Store, id: RequestId, b: Binding, expiresAt: Time, now: Time): Step {
    if id !in s.rows || s.rows[id].target != b.target.machine
       || !(s.rows[id].state.Queued? || s.rows[id].state.Checking?) || s.rows[id].ticket != NoTicket
    then Refuse(s, "request_not_issuable")
    else Step(Put(s, id, s.rows[id].(binding := Some(b), ticket := Issued, issuedAt := Some(now),
                                     expiresAt := Some(expiresAt), state := TicketIssued,
                                     updatedAt := now, error := None)),
              Ok(Nothing))
  }

  predicate SlotHeld(s: Store) {
    exists id | id in s.rows :: s.rows[id].slot
  }

  predicate Claimable(r: Row) {
    r.state == Queued && !r.slot
  }

  /** ORDER BY batch.created_at, batch.rowid, request.ordinal. */
  predicate NotAfter(s: Store, a: Row, b: Row) {
    a.batch in s.batches && b.batch in s.batches &&
    var x, y := s.batches[a.batch], s.batches[b.batch];
    x.createdAt < y.createdAt
    || (x.createdAt == y.createdAt && (x.rowid < y.rowid || (x.rowid == y.rowid && a.ordinal <= b.ordinal)))
  }

  predicate IsNext(s: Store, id: RequestId) {
    && id in s.rows && Claimable(s.rows[id]) && s.rows[id].batch in s.batches
    && forall o | o in s.rows && Claimable(s.rows[o]) && s.rows[o].batch in s.batches :: NotAfter(s, s.rows[id], s.rows[o])
  }

  /** Claim `id` for dispatch; does nothing while the slot is held or `id` is not the first in order. */
  function ClaimNext(s: Store, id: RequestId, now: Time): Step {
    if SlotHeld(s) || !IsNext(s, id) then Step(s, Ok(Nothing))
    else Step(Put(s, id, s.rows[id].(state := Checking, slot := true, updatedAt := now)), Ok(Row_(id)))
  }

  function MarkDispatched(s: Store, id: RequestId, now: Time): Step {
    if id !in s.rows then Refuse(s, "request_not_found")
    else if s.rows[id].state == Dispatched then Step(s, Ok(Nothing))
    else if s.rows[id].state != TicketIssued || s.rows[id].ticket != Issued then Refuse(s, "request_not_dispatchable")
    else Step(Put(s, id, s.rows[id].(state := Dispatched, updatedAt := now)), Ok(Nothing))
  }

  predicate ExactTarget(r: Row, c: RedeemCall) {
    && r.binding.Some?
    && r.target == c.machine == c.snapshot.machine
    && r.binding.value.target.host == c.snapshot.host
    && r.binding.value.target.address == c.snapshot.address == c.source
    && r.binding.value.target.controllerUrl == c.snapshot.controllerUrl
  }

  /** A completion recorded since this ticket was issued, by another request for the same target. */
  predicate CompletedSince(s: Store, id: RequestId) {
    id in s.rows &&
    var from := if s.rows[id].issuedAt.Some? then s.rows[id].issuedAt.value else 0.0;
    exists o | o in s.rows :: o != id && s.rows[o].target == s.rows[id].target
                             && s.rows[o].state == Complete && s.rows[o].updatedAt >= from
  }

  function ClaimFor(id: RequestId, c: RedeemCall): Claim {
    Claim(id, c.machine, Identity("agent", c.controller.siteId, c.controller.siteName, c.machine))
  }

  function Redeem(s: Store, id: RequestId, c: RedeemCall, now: Time): Step {
    if id !in s.rows then Refuse(s, "request_not_found") else
    var r := s.rows[id];
    if r.ticket == Spent then Refuse(s, "ticket_replayed")
    else if r.ticket == Expired then Refuse(s, "ticket_expired")
    else if r.ticket != Issued || !(r.state.TicketIssued? || r.state.Dispatched?) then Refuse(s, "ticket_not_redeemable")
    else if r.expiresAt != Some(c.expiresAt) then Refuse(s, "redemption_expiry_mismatch")
    else if now >= c.expiresAt then
      Step(Put(s, id, r.(ticket := Expired, state := ConfirmationPending, error := Some("ticket_expired"),
                         slot := false, updatedAt := now)),
           Err("ticket_expired"))
    else if r.binding.None? || r.binding.value.ticket != Sha256(c.ticket) then Refuse(s, "ticket_mismatch")
    else if r.binding.value.fleet != c.fleet then Refuse(s, "fleet_token_mismatch")
    else if !ExactTarget(r, c) then Refuse(s, "target_binding_mismatch")
    else if r.binding.value.controller != c.controller then Refuse(s, "controller_snapshot_changed")
    else if CompletedSince(s, id) then Refuse(s, "repair_already_complete")
    else Step(Put(s, id, r.(ticket := Spent, state := Redeemed, redeemedAt := Some(now), updatedAt := now, error := None)),
              Ok(Granted(ClaimFor(id, c))))
  }

  predicate Live(st: RequestState) {
    st.TicketIssued? || st.Dispatched? || st.Redeemed? || st.Verifying? || st.ConfirmationPending?
  }

  function Park(s: Store, id: RequestId, error: Option<string>, now: Time): Step {
    if id !in s.rows then Refuse(s, "request_not_found")
    else if !Live(s.rows[id].state) then Refuse(s, "request_not_parkable")
    else Step(Put(s, id, s.rows[id].(state := ConfirmationPending, error := error, slot := false, updatedAt := now)),
              Ok(Nothing))
  }

  function ExpectedIdentity(r: Row): Option<Identity> {
    if r.binding.Some?
    then Some(Identity("agent", r.binding.value.controller.siteId, r.binding.value.controller.siteName, r.target))
    else None
  }

  function Retire(t: TicketStatus): TicketStatus {
    if t == Issued then Expired else t
  }

  function TerminalState(t: Terminal): RequestState {
    match t
    case AgentComplete => Complete
    case AgentNeverApplied => Retryable
    case AgentNeedsReview => NeedsReview
  }

  /** Adopt an Agent's terminal report; `identity` is the report's identity field. */
  function AdoptStatus(s: Store, id: RequestId, t: Terminal, identity: Option<Identity>, error: Option<string>,
                       source: string, now: Time): Step {
    if id !in s.rows then Refuse(s, "request_not_found") else
    var r := s.rows[id];
    if r.binding.None? || r.binding.value.target.address != source then Refuse(s, "source_host_mismatch")
    else if r.state.Complete? || r.state.Retryable? || r.state.NeedsReview? then
      if r.agentTerminal == Some(t) then Step(s, Ok(Row_(id))) else Refuse(s, "terminal_status_conflict")
    else if !Live(r.state) then Refuse(s, "status_not_adoptable")
    else if t == AgentComplete && (identity != ExpectedIdentity(r) || r.ticket != Spent) then Refuse(s, "status_identity_mismatch")
    else Step(Put(s, id, r.(state := TerminalState(t), ticket := Retire(r.ticket),
                            error := if t == AgentComplete then None else error,
                            agentTerminal := Some(t), slot := false, updatedAt := now)),
              Ok(Row_(id)))
  }

  function FailBeforeClaim(s: Store, id: RequestId, st: RequestState, error: Option<string>, now: Time): Step {
    if !(st.Retryable? || st.NeedsReview? || st.HubUpdateRequired?) then Refuse(s, "invalid preclaim state")
    else if id !in s.rows then Refuse(s, "request_not_found")
    else if !HoldsNoAuthority(s.rows[id]) || !Preclaim(s.rows[id].state)
    then Refuse(s, "request_has_claim_authority")
    else if Unresolved(st) && exists o | o in s.rows :: o != id && s.rows[o].target == s.rows[id].target && Unresolved(s.rows[o].state)
    then Refuse(s, "integrity_error")
    else Step(Put(s, id, s.rows[id].(state := st, error := error, slot := false, updatedAt := now)), Ok(Nothing))
  }

  function ResolvePreclaim(s: Store, id: RequestId, now: Time): Step {
    if id !in s.rows then Refuse(s, "request_not_found")
    else if s.rows[id].state != NeedsReview || !HoldsNoAuthority(s.rows[id]) || s.rows[id].binding.Some?
    then Refuse(s, "review_not_preclaim")
    else Step(Put(s, id, s.rows[id].(state := Retryable, error := None, agentTerminal := None, updatedAt := now)), Ok(Nothing))
  }

  function ResolveExpired(s: Store, id: RequestId, moment: Time): Step {
    if id !in s.rows then Refuse(s, "request_not_found") else
    var r := s.rows[id];
    if r.state != NeedsReview || r.redeemedAt.Some? || r.issuedAt.None? || r.expiresAt.None? || r.expiresAt.value > moment
    then Refuse(s, "review_not_expired")
    else Step(Put(s, id, r.(state := Retryable, error := None, ticket := Expired, updatedAt := moment)), Ok(Nothing))
  }

  /** What restart recovery does to one slot holder, or why it refuses. */
  function RecoverRow(r: Row, now: Time): Result<Row> {
    if r.state.TicketIssued? || r.state.Dispatched? || r.state.Redeemed? || r.state.Verifying? then
      Ok(r.(state := ConfirmationPending, slot := false, error := Some("confirmation_pending"), updatedAt := now))
    else if r.state == Checking && r.ticket == NoTicket then
      Ok(r.(state := Queued, slot := false, updatedAt := now))
    else Err("dispatch_slot_state_invalid")
  }

  function Holders(s: Store): set<RequestId> {
    set id | id in s.rows && s.rows[id].slot
  }

  function RecoverSlot(s: Store, now: Time): Step {
    if exists id | id in s.rows && s.rows[id].slot :: RecoverRow(s.rows[id], now).Err?
    then Refuse(s, "dispatch_slot_state_invalid")
    else Step(s.(rows := map id | id in s.rows :: if s.rows[id].slot then RecoverRow(s.rows[id], now).value else s.rows[id]),
              Ok(Recovered(|Holders(s)|)))
  }

  /** Adopt the classification made while the Agent process was proven stopped. */
  function ReleaseFence(s: Store, id: RequestId, t: Terminal, identity: Option<Identity>, now: Time): Step {
    if id !in s.rows then Refuse(s, "request_not_found") else
    var r := s.rows[id];
    if !(r.state.Redeemed? || r.state.Verifying? || r.state.ConfirmationPending?) || r.ticket != Spent then Refuse(s, "request_has_no_live_claim")
    else if t == AgentComplete && identity != ExpectedIdentity(r) then Refuse(s, "cleanup_classification_unverified")
    else Step(Put(s, id, r.(state := TerminalState(t), slot := false, updatedAt := now,
                            error := match t case AgentComplete => None
                                             case AgentNeverApplied => Some("never_applied")
                                             case AgentNeedsReview => Some("needs_review"))),
              Ok(Row_(id)))
  }

  datatype Op =
    | OpAdd(batch: BatchId, key: BatchKey, targets: seq<Machine>, ids: seq<RequestId>)
    | OpIssue(id: RequestId, binding: Binding, expiresAt: Time)
    | OpClaim(id: RequestId)
    | OpMark(id: RequestId)
    | OpRedeem(id: RequestId, call: RedeemCall)
    | OpPark(id: RequestId, error: Option<string>)
    | OpAdopt(id: RequestId, terminal: Terminal, identity: Option<Identity>, error: Option<string>, source: string)
    | OpFail(id: RequestId, st: RequestState, error: Option<string>)
    | OpPreclaim(id: RequestId)
    | OpExpired(id: RequestId, moment: Time)
    | OpRecover
    | OpRelease(id: RequestId, terminal: Terminal, identity: Option<Identity>)

  /** One store transaction, of any kind. */
  function Apply(s: Store, op: Op, now: Time): Step {
    match op
    case OpAdd(batch, key, targets, ids) => AddRequests(s, batch, key, targets, ids, now)
    case OpIssue(id, b, expiresAt) => IssueTicket(s, id, b, expiresAt, now)
    case OpClaim(id) => ClaimNext(s, id, now)
    case OpMark(id) => MarkDispatched(s, id, now)
    case OpRedeem(id, call) => Redeem(s, id, call, now)
    case OpPark(id, error) => Park(s, id, error, now)
    case OpAdopt(id, t, identity, error, source) => AdoptStatus(s, id, t, identity, error, source, now)
    case OpFail(id, st, error) => FailBeforeClaim(s, id, st, error, now)
    case OpPreclaim(id) => ResolvePreclaim(s, id, now)
    case OpExpired(id, moment) => ResolveExpired(s, id, moment)
    case OpRecover => RecoverSlot(s, now)
    case OpRelease(id, t, identity) => ReleaseFence(s, id, t, identity, now)
  }

  // ---------------------------------------------------------------- what every transaction keeps

  predicate TicketReaches(a: TicketStatus, b: TicketStatus) {
    a == b || a == NoTicket || (a == Issued && (b == Spent || b == Expired))
  }

  /** What may ever happen to one row: tickets only move forward, resolved rows are frozen. */
  predicate RowEvolves(r: Row, r': Row) {
    && r'.batch == r.batch && r'.ordinal == r.ordinal && r'.target == r.target && r'.createdAt == r.createdAt
    && TicketReaches(r.ticket, r'.ticket)
    && (r.issuedAt.Some? ==> r'.issuedAt == r.issuedAt && r'.binding == r.binding && r'.expiresAt == r.expiresAt)
    && (r.redeemedAt.Some? ==> r'.redeemedAt == r.redeemedAt)
    && (r.state == Complete || r.state == Retryable ==> r' == r)
    && (!MayStillRedeem(r.state) ==> !MayStillRedeem(r'.state))
  }

  ghost predicate Evolves(s: Store, s': Store) {
    forall id | id in s.rows :: id in s'.rows && RowEvolves(s.rows[id], s'.rows[id])
  }

  /** A one-row update keeps the table when the row is well formed and takes no slot or target that is in use. */
  lemma PutKeepsStore(s: Store, id: RequestId, r: Row)
    requires StoreOk(s) && id in s.rows && RowOk(r) && RowEvolves(s.rows[id], r)
    requires !r.slot || s.rows[id].slot || !SlotHeld(s)
    requires !Unresolved(r.state) || Unresolved(s.rows[id].state)
             || forall o | o in s.rows && o != id && s.rows[o].target == r.target :: !Unresolved(s.rows[o].state)
    ensures StoreOk(Put(s, id, r)) && Evolves(s, Put(s, id, r))
  {
  }

  /** The rows of a successful insert: the old ones, and fresh queued ones for free targets. */
  ghost predicate Inserted(s: Store, rows: map<RequestId, Row>, batch: BatchId, targets: seq<Machine>, ids: seq<RequestId>, now: Time)
    requires |targets| == |ids|
  {
    && (forall id | id in s.rows :: id in rows && rows[id] == s.rows[id])
    && (forall id | id in rows && id !in s.rows ::
          exists i :: 0 <= i < |ids| && ids[i] == id && rows[id] == NewRow(batch, i, targets[i], now))
  }

  lemma AddInserts(s: Store, batch: BatchId, key: BatchKey, targets: seq<Machine>, ids: seq<RequestId>, now: Time)
    requires AddRequests(s, batch, key, targets, ids, now).result.Ok?
    ensures |targets| == |ids|
    ensures Inserted(s, AddRequests(s, batch, key, targets, ids, now).store.rows, batch, targets, ids, now)
    ensures forall i | 0 <= i < |ids| ::
              ids[i] in AddRequests(s, batch, key, targets, ids, now).store.rows
              && AddRequests(s, batch, key, targets, ids, now).store.rows[ids[i]] == NewRow(batch, i, targets[i], now)
  {
  }

  lemma InsertedTargetUnique(s: Store, rows: map<RequestId, Row>, batch: BatchId, targets: seq<Machine>, ids: seq<RequestId>, now: Time)
    requires StoreOk(s) && |targets| == |ids| && Distinct(targets)
    requires forall i | 0 <= i < |targets| :: TargetFree(s, targets[i])
    requires Inserted(s, rows, batch, targets, ids, now)
    ensures TargetUnique(s.(rows := rows))
  {
    forall a, b | a in rows && b in rows && Unresolved(rows[a].state) && Unresolved(rows[b].state) && rows[a].target == rows[b].target
      ensures a == b
    {
      if a !in s.rows && b !in s.rows {
        var i :| 0 <= i < |ids| && ids[i] == a && rows[a] == NewRow(batch, i, targets[i], now);
        var j :| 0 <= j < |ids| && ids[j] == b && rows[b] == NewRow(batch, j, targets[j], now);
      }
    }
  }

  lemma InsertKeepsStore(s: Store, s': Store, batch: BatchId, targets: seq<Machine>, ids: seq<RequestId>, now: Time)
    requires StoreOk(s) && |targets| == |ids| && Inserted(s, s'.rows, batch, targets, ids, now) && TargetUnique(s')
    ensures StoreOk(s') && Evolves(s, s')
  {
    forall id | id in s'.rows
      ensures RowOk(s'.rows[id]) && (s'.rows[id].slot ==> id in s.rows)
    {
      if id !in s.rows {
        var i :| 0 <= i < |ids| && ids[i] == id && s'.rows[id] == NewRow(batch, i, targets[i], now);
      }
    }
  }

  lemma AddKeepsStore(s: Store, batch: BatchId, key: BatchKey, targets: seq<Machine>, ids: seq<RequestId>, now: Time)
    requires StoreOk(s)
    ensures var s' := AddRequests(s, batch, key, targets, ids, now).store; StoreOk(s') && Evolves(s, s')
  {
    var st := AddRequests(s, batch, key, targets, ids, now);
    if st.result.Ok? {
      AddInserts(s, batch, key, targets, ids, now);
      InsertedTargetUnique(s, st.store.rows, batch, targets, ids, now);
      InsertKeepsStore(s, st.store, batch, targets, ids, now);
    }
  }

  lemma HolderRecovers(r: Row, now: Time)
    requires RowOk(r) && r.slot
    ensures RecoverRow(r, now).Ok?
    ensures var r' := RecoverRow(r, now).value;
            RowOk(r') && RowEvolves(r, r') && !r'.slot && r'.ticket == r.ticket && Unresolved(r'.state) && Unresolved(r.state)
  {
  }

  /** Restart recovery never refuses a well-formed table and leaves no slot held; tickets are untouched. */
  lemma RecoverAlwaysFreesTheSlot(s: Store, now: Time)
    requires StoreOk(s)
    ensures RecoverSlot(s, now).result.Ok?
    ensures var s' := RecoverSlot(s, now).store;
            && StoreOk(s') && Evolves(s, s') && !SlotHeld(s') && s'.rows.Keys == s.rows.Keys
            && forall id | id in s.rows :: s'.rows[id].ticket == s.rows[id].ticket
  {
    forall id | id in s.rows && s.rows[id].slot
      ensures RecoverRow(s.rows[id], now).Ok?
    {
      HolderRecovers(s.rows[id], now);
    }
    var s' := RecoverSlot(s, now).store;
    forall id | id in s.rows
      ensures id in s'.rows && RowOk(s'.rows[id]) && RowEvolves(s.rows[id], s'.rows[id]) && !s'.rows[id].slot
      ensures s'.rows[id].target == s.rows[id].target && Unresolved(s'.rows[id].state) == Unresolved(s.rows[id].state)
      ensures s'.rows[id].ticket == s.rows[id].ticket
    {
      if s.rows[id].slot { HolderRecovers(s.rows[id], now); }
    }
  }

  lemma ClaimKeepsStore(s: Store, id: RequestId, now: Time)
    requires StoreOk(s)
    ensures var s' := ClaimNext(s, id, now).store; StoreOk(s') && Evolves(s, s')
  {
    if !SlotHeld(s) && IsNext(s, id) {
      assert RowOk(s.rows[id]);
      PutKeepsStore(s, id, s.rows[id].(state := Checking, slot := true, updatedAt := now));
    }
  }

  lemma RedeemKeepsStore(s: Store, id: RequestId, c: RedeemCall, now: Time)
    requires StoreOk(s)
    ensures var s' := Redeem(s, id, c, now).store; StoreOk(s') && Evolves(s, s')
  {
    var s' := Redeem(s, id, c, now).store;
    if s' != s {
      assert RowOk(s.rows[id]);
      PutKeepsStore(s, id, s'.rows[id]);
    }
  }

  lemma AdoptKeepsStore(s: Store, id: RequestId, t: Terminal, identity: Option<Identity>, error: Option<string>, source: string, now: Time)
    requires StoreOk(s)
    ensures var s' := AdoptStatus(s, id, t, identity, error, source, now).store; StoreOk(s') && Evolves(s, s')
  {
    var s' := AdoptStatus(s, id, t, identity, error, source, now).store;
    if s' != s {
      assert RowOk(s.rows[id]);
      PutKeepsStore(s, id, s'.rows[id]);
    }
  }

  lemma ReleaseKeepsStore(s: Store, id: RequestId, t: Terminal, identity: Option<Identity>, now: Time)
    requires StoreOk(s)
    ensures var s' := ReleaseFence(s, id, t, identity, now).store; StoreOk(s') && Evolves(s, s')
  {
    var s' := ReleaseFence(s, id, t, identity, now).store;
    if s' != s {
      assert RowOk(s.rows[id]);
      PutKeepsStore(s, id, s'.rows[id]);
    }
  }

  lemma FailKeepsStore(s: Store, id: RequestId, st: RequestState, error: Option<string>, now: Time)
    requires StoreOk(s)
    ensures var s' := FailBeforeClaim(s, id, st, error, now).store; StoreOk(s') && Evolves(s, s')
  {
    var s' := FailBeforeClaim(s, id, st, error, now).store;
    if s' != s {
      assert RowOk(s.rows[id]);
      PutKeepsStore(s, id, s'.rows[id]);
    }
  }

  /** Every mutator keeps the schema invariant, and no row ever moves backwards. */
  lemma OpKeepsStore(s: Store, op: Op, now: Time)
    requires StoreOk(s)
    ensures var s' := Apply(s, op, now).store; StoreOk(s') && Evolves(s, s')
  {
    match op
    case OpAdd(batch, key, targets, ids) => AddKeepsStore(s, batch, key, targets, ids, now);
    case OpRecover => RecoverAlwaysFreesTheSlot(s, now);
    case OpClaim(id) => ClaimKeepsStore(s, id, now);
    case OpRedeem(id, call) => RedeemKeepsStore(s, id, call, now);
    case OpAdopt(id, t, identity, error, source) => AdoptKeepsStore(s, id, t, identity, error, source, now);
    case OpFail(id, st, error) => FailKeepsStore(s, id, st, error, now);
    case OpRelease(id, t, identity) => ReleaseKeepsStore(s, id, t, identity, now);
    case _ => SmallOpKeepsStore(s, op, now);
  }

  /** The transactions that move one row between two states of the same kind. */
  predicate SmallOp(op: Op) {
    op.OpIssue? || op.OpMark? || op.OpPark? || op.OpPreclaim? || op.OpExpired?
  }

  lemma SmallOpKeepsStore(s: Store, op: Op, now: Time)
    requires StoreOk(s) && SmallOp(op)
    ensures var s' := Apply(s, op, now).store; StoreOk(s') && Evolves(s, s')
  {
    hide StoreOk, Evolves, IssueTicket, MarkDispatched, Park, ResolvePreclaim, ResolveExpired;
    match op
    case OpIssue(id, b, expiresAt) => IssueKeepsStore(s, id, b, expiresAt, now);
    case OpMark(id) => MarkKeepsStore(s, id, now);
    case OpPark(id, error) => ParkKeepsStore(s, id, error, now);
    case OpPreclaim(id) => PreclaimKeepsStore(s, id, now);
    case OpExpired(id, moment) => ExpiredKeepsStore(s, id, moment);
  }

  lemma IssueKeepsStore(s: Store, id: RequestId, b: Binding, expiresAt: Time, now: Time)
    requires StoreOk(s)
    ensures var s' := IssueTicket(s, id, b, expiresAt, now).store; StoreOk(s') && Evolves(s, s')
  {
    var s' := IssueTicket(s, id, b, expiresAt, now).store;
    if s' != s {
      assert RowOk(s.rows[id]);
      PutKeepsStore(s, id, s'.rows[id]);
    }
  }

  lemma MarkKeepsStore(s: Store, id: RequestId, now: Time)
    requires StoreOk(s)
    ensures var s' := MarkDispatched(s, id, now).store; StoreOk(s') && Evolves(s, s')
  {
    var s' := MarkDispatched(s, id, now).store;
    if s' != s {
      assert RowOk(s.rows[id]);
      PutKeepsStore(s, id, s'.rows[id]);
    }
  }

  lemma ParkKeepsStore(s: Store, id: RequestId, error: Option<string>, now: Time)
    requires StoreOk(s)
    ensures var s' := Park(s, id, error, now).store; StoreOk(s') && Evolves(s, s')
  {
    var s' := Park(s, id, error, now).store;
    if s' != s {
      assert RowOk(s.rows[id]);
      PutKeepsStore(s, id, s'.rows[id]);
    }
  }

  lemma PreclaimKeepsStore(s: Store, id: RequestId, now: Time)
    requires StoreOk(s)
    ensures var s' := ResolvePreclaim(s, id, now).store; StoreOk(s') && Evolves(s, s')
  {
    var s' := ResolvePreclaim(s, id, now).store;
    if s' != s {
      assert RowOk(s.rows[id]);
      PutKeepsStore(s, id, s'.rows[id]);
    }
  }

  lemma ExpiredKeepsStore(s: Store, id: RequestId, moment: Time)
    requires StoreOk(s)
    ensures var s' := ResolveExpired(s, id, moment).store; StoreOk(s') && Evolves(s, s')
  {
    var s' := ResolveExpired(s, id, moment).store;
    if s' != s {
      assert RowOk(s.rows[id]);
      PutKeepsStore(s, id, s'.rows[id]);
    }
  }

  // ---------------------------------------------------------------- whole runs

  /** The table after a sequence of transactions, each at its own clock reading. */
  ghost function Run(s: Store, ops: seq<(Op, Time)>): Store
    decreases ops
  {
    if ops == [] then s else Run(Apply(s, ops[0].0, ops[0].1).store, ops[1..])
  }

  /** How many of the calls handed out a claim for `id`. */
  ghost function Grants(s: Store, ops: seq<(Op, Time)>, id: RequestId): nat
    decreases ops
  {
    if ops == [] then 0
    else
      var st := Apply(s, ops[0].0, ops[0].1);
      (if st.result.Ok? && st.result.value.Granted? && st.result.value.claim.request == id then 1 else 0)
      + Grants(st.store, ops[1..], id)
  }

  lemma EvolvesTransitive(a: Store, b: Store, c: Store)
    requires Evolves(a, b) && Evolves(b, c)
    ensures Evolves(a, c)
  {
    forall id | id in a.rows
      ensures id in c.rows && RowEvolves(a.rows[id], c.rows[id])
    {
      assert RowEvolves(a.rows[id], b.rows[id]) && RowEvolves(b.rows[id], c.rows[id]);
    }
  }

  /** Over every run: the schema invariant, forward-only tickets, and frozen complete and retryable rows. */
  lemma {:induction false} RunKeepsStore(s: Store, ops: seq<(Op, Time)>)
    requires StoreOk(s)
    ensures StoreOk(Run(s, ops)) && Evolves(s, Run(s, ops))
    decreases ops
  {
    if ops != [] {
      var s' := Apply(s, ops[0].0, ops[0].1).store;
      OpKeepsStore(s, ops[0].0, ops[0].1);
      RunKeepsStore(s', ops[1..]);
      EvolvesTransitive(s, s', Run(s, ops));
    }
  }

  /** Only an unspent ticket yields a claim, and yielding it spends the ticket. */
  lemma GrantSpendsTheTicket(s: Store, op: Op, now: Time)
    requires StoreOk(s)
    requires Apply(s, op, now).result.Ok? && Apply(s, op, now).result.value.Granted?
    ensures op.OpRedeem? && op.id in s.rows && s.rows[op.id].ticket == Issued && MayStillRedeem(s.rows[op.id].state)
    ensures op.id in Apply(s, op, now).store.rows && Apply(s, op, now).store.rows[op.id].ticket == Spent
    ensures Apply(s, op, now).result.value.claim == ClaimFor(op.id, op.call)
  {
  }

  /** Whatever calls are replayed or interleaved, one request is granted a claim at most once. */
  lemma {:induction false} AtMostOneGrant(s: Store, ops: seq<(Op, Time)>, id: RequestId)
    requires StoreOk(s)
    ensures Grants(s, ops, id) <= 1
    ensures id in s.rows && (s.rows[id].ticket == Spent || s.rows[id].ticket == Expired) ==> Grants(s, ops, id) == 0
    decreases ops
  {
    if ops != [] {
      var op, now := ops[0].0, ops[0].1;
      var st := Apply(s, op, now);
      OpKeepsStore(s, op, now);
      AtMostOneGrant(st.store, ops[1..], id);
      if st.result.Ok? && st.result.value.Granted? { GrantSpendsTheTicket(s, op, now); }
    }
  }

  /** A parked or reviewed request, however it got there, is never granted a claim afterwards. */
  lemma {:induction false} ParkedIsNeverGranted(s: Store, ops: seq<(Op, Time)>, id: RequestId)
    requires StoreOk(s) && id in s.rows && !MayStillRedeem(s.rows[id].state)
    ensures Grants(s, ops, id) == 0
    decreases ops
  {
    if ops != [] {
      var op, now := ops[0].0, ops[0].1;
      var st := Apply(s, op, now);
      if st.result.Ok? && st.result.value.Granted? { GrantSpendsTheTicket(s, op, now); }
      assert StoreOk(st.store) && id in st.store.rows && !MayStillRedeem(st.store.rows[id].state) by { OpKeepsStore(s, op, now); }
      ParkedIsNeverGranted(st.store, ops[1..], id);
    }
  }
}

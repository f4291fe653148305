/**
 What each transaction of the request table does to a row, said in columns.  `RepairRows` keeps the
 invariants; here every state a row can move into has the exact calls that move it there.
 */
module RepairCalls {
  import opened Outcomes
  import opened RepairRows

  // ---------------------------------------------------------------- redemption

  /** No other request of the target was completed at or after the moment `since`. */
  ghost predicate NoneCompletedSince(s: Store, id: RequestId, target: Machine, since: Time) {
    forall o | o in s.rows && o != id && s.rows[o].target == target && s.rows[o].state == Complete ::
      s.rows[o].updatedAt < since
  }

  /** A claim is granted exactly to the bound ticket, fleet, Controller and target, in time, and only once. */
  lemma GrantedIff(s: Store, id: RequestId, c: RedeemCall, now: Time)
    ensures Redeem(s, id, c, now).result.Ok? <==>
            && id in s.rows
            && var r := s.rows[id];
            && r.ticket == Issued && (r.state == TicketIssued || r.state == Dispatched)
            && r.expiresAt == Some(c.expiresAt) && now < c.expiresAt
            && r.binding.Some?
            && var b := r.binding.value;
            && b.ticket == Sha256(c.ticket)
            && b.fleet == c.fleet
            && b.controller == c.controller
            && c.machine == r.target && c.snapshot.machine == r.target
            && c.snapshot.host == b.target.host
            && c.snapshot.address == b.target.address && c.source == b.target.address
            && c.snapshot.controllerUrl == b.target.controllerUrl
            && NoneCompletedSince(s, id, r.target, if r.issuedAt.Some? then r.issuedAt.value else 0.0)
  {
    if id in s.rows { CompletedSinceIff(s, id); }
  }

  lemma CompletedSinceIff(s: Store, id: RequestId)
    requires id in s.rows
    ensures CompletedSince(s, id) <==>
            !NoneCompletedSince(s, id, s.rows[id].target, if s.rows[id].issuedAt.Some? then s.rows[id].issuedAt.value else 0.0)
  {
  }

  /** The answer to an accepted call, and the one row it writes. */
  lemma GrantIs(s: Store, id: RequestId, c: RedeemCall, now: Time)
    requires Redeem(s, id, c, now).result.Ok?
    ensures var st := Redeem(s, id, c, now);
            && id in s.rows && id in st.store.rows
            && st.result.value.Granted?
            && var claim := st.result.value.claim;
            && claim.request == id && claim.target == s.rows[id].target
            && claim.identity.role == "agent"
            && claim.identity.siteId == s.rows[id].binding.value.controller.siteId
            && claim.identity.siteName == s.rows[id].binding.value.controller.siteName
            && claim.identity.controllerId == s.rows[id].target
    ensures var s' := Redeem(s, id, c, now).store;
            && s'.rows.Keys == s.rows.Keys && s'.batches == s.batches
            && (forall o | o in s.rows && o != id :: s'.rows[o] == s.rows[o])
            && s'.rows[id].ticket == Spent && s'.rows[id].state == Redeemed
            && s'.rows[id].redeemedAt == Some(now) && s'.rows[id].updatedAt == now && s'.rows[id].error.None?
            && s'.rows[id].slot == s.rows[id].slot && s'.rows[id].binding == s.rows[id].binding
            && s'.rows[id].issuedAt == s.rows[id].issuedAt && s'.rows[id].expiresAt == s.rows[id].expiresAt
  {
  }

  /** The conditions on a redemption in the order they are looked at, each with the code of its refusal. */
  ghost function RedeemChecks(s: Store, id: RequestId, c: RedeemCall, now: Time): seq<(bool, string)>
    requires id in s.rows && s.rows[id].binding.Some?
  {
    var r := s.rows[id];
    var b := r.binding.value;
    [ (r.ticket != Spent, "ticket_replayed"),
      (r.ticket != Expired, "ticket_expired"),
      (r.ticket == Issued && (r.state == TicketIssued || r.state == Dispatched), "ticket_not_redeemable"),
      (r.expiresAt == Some(c.expiresAt), "redemption_expiry_mismatch"),
      (now < c.expiresAt, "ticket_expired"),
      (b.ticket == Sha256(c.ticket), "ticket_mismatch"),
      (b.fleet == c.fleet, "fleet_token_mismatch"),
      (c.machine == r.target && c.snapshot == Target(r.target, b.target.host, b.target.address, b.target.controllerUrl)
       && c.source == b.target.address, "target_binding_mismatch"),
      (b.controller == c.controller, "controller_snapshot_changed"),
      (NoneCompletedSince(s, id, r.target, if r.issuedAt.Some? then r.issuedAt.value else 0.0), "repair_already_complete") ]
  }

  ghost predicate FirstFailing(checks: seq<(bool, string)>, k: nat) {
    k < |checks| && !checks[k].0 && forall j | 0 <= j < k :: checks[j].0
  }

  /** A refused redemption answers with the code of the first condition that fails. */
  lemma RefusalNamesFirstFailure(s: Store, id: RequestId, c: RedeemCall, now: Time, k: nat)
    requires id in s.rows && s.rows[id].binding.Some? && FirstFailing(RedeemChecks(s, id, c, now), k)
    ensures Redeem(s, id, c, now).result == Err(RedeemChecks(s, id, c, now)[k].1)
  {
    CompletedSinceIff(s, id);
    var checks := RedeemChecks(s, id, c, now);
    assert forall j | 0 <= j < |checks| && j < k :: checks[j].0;
    assert 0 < k ==> checks[0].0;
    assert 1 < k ==> checks[1].0;
    assert 2 < k ==> checks[2].0;
    assert 3 < k ==> checks[3].0;
    assert 4 < k ==> checks[4].0;
    assert 5 < k ==> checks[5].0;
    assert 6 < k ==> checks[6].0;
    assert 7 < k ==> checks[7].0;
    assert 8 < k ==> checks[8].0;
  }

  /** The other refusals: an unknown request, and a row no ticket was ever issued for. */
  lemma UnissuedIsRefused(s: Store, id: RequestId, c: RedeemCall, now: Time)
    requires id in s.rows ==> RowOk(s.rows[id]) && s.rows[id].ticket == NoTicket
    ensures Redeem(s, id, c, now) == Step(s, Err(if id in s.rows then "ticket_not_redeemable" else "request_not_found"))
  {
  }

  /** A refusal writes nothing, except that a call at or past the deadline retires the ticket and gives up the slot. */
  lemma RefusalWritesOnlyLateness(s: Store, id: RequestId, c: RedeemCall, now: Time)
    requires Redeem(s, id, c, now).result.Err?
    ensures var s' := Redeem(s, id, c, now).store;
            if id in s.rows && s.rows[id].ticket == Issued && (s.rows[id].state == TicketIssued || s.rows[id].state == Dispatched)
               && s.rows[id].expiresAt == Some(c.expiresAt) && c.expiresAt <= now
            then s' == s.(rows := s.rows[id := s.rows[id].(ticket := Expired, state := ConfirmationPending, slot := false,
                                                           error := Some("ticket_expired"), updatedAt := now)])
            else s' == s
  {
  }

  // ---------------------------------------------------------------- every move of a row

  ghost function After(s: Store, op: Op, now: Time, id: RequestId): Row
    requires StoreOk(s) && id in s.rows
  {
    OpKeepsStore(s, op, now);
    Apply(s, op, now).store.rows[id]
  }

  /** The call names this row. */
  predicate Names(op: Op, id: RequestId) {
    !op.OpAdd? && !op.OpRecover? && op.id == id
  }

  predicate Dispatchable(r: Row) {
    r.state == TicketIssued || r.state == Dispatched
  }

  predicate Claimed(r: Row) {
    r.state == Redeemed || r.state == Verifying || r.state == ConfirmationPending
  }

  /** The agent's terminal report, sent from the bound address, about a request it can still decide. */
  predicate Reported(r: Row, op: Op, t: Terminal) {
    && op.OpAdopt? && op.terminal == t && (Dispatchable(r) || Claimed(r))
    && r.binding.Some? && r.binding.value.target.address == op.source
  }

  /** The classification of a live claim whose Agent process is stopped. */
  predicate Released(r: Row, op: Op, t: Terminal) {
    op.OpRelease? && op.terminal == t && r.ticket == Spent && Claimed(r)
  }

  /** The identity a completed repair leaves on the target. */
  predicate IsRepairedIdentity(r: Row, identity: Option<Identity>) {
    && identity.Some? && r.binding.Some?
    && identity.value.role == "agent" && identity.value.controllerId == r.target
    && identity.value.siteId == r.binding.value.controller.siteId
    && identity.value.siteName == r.binding.value.controller.siteName
  }

  predicate NeverTicketed(r: Row) {
    r.ticket == NoTicket && r.issuedAt.None? && r.redeemedAt.None?
  }

  /** The Controller gives the request up before any ticket was made for it. */
  ghost predicate GivenUp(s: Store, id: RequestId, to: RequestState)
    requires id in s.rows
  {
    && NeverTicketed(s.rows[id])
    && (s.rows[id].state == Queued || s.rows[id].state == Checking || s.rows[id].state == HubUpdateRequired || s.rows[id].state == UpdatingHub)
    && (to == NeedsReview ==>
          forall o | o in s.rows && o != id && s.rows[o].target == s.rows[id].target ::
            s.rows[o].state == Complete || s.rows[o].state == Retryable || s.rows[o].state == HubUpdateRequired)
  }

  /** A redemption by the exact expiry that comes at or past it. */
  predicate CameLate(r: Row, c: RedeemCall, now: Time) {
    r.ticket == Issued && Dispatchable(r) && r.expiresAt == Some(c.expiresAt) && c.expiresAt <= now
  }

  /** Nobody holds the slot, and no queued request of a known batch comes earlier: by batch age, batch row, then place in the batch. */
  ghost predicate FirstInLine(s: Store, id: RequestId)
    requires id in s.rows
  {
    && (forall o | o in s.rows :: !s.rows[o].slot)
    && s.rows[id].state == Queued && s.rows[id].batch in s.batches
    && forall o | o in s.rows && s.rows[o].state == Queued && s.rows[o].batch in s.batches ::
         var a, b := s.batches[s.rows[id].batch], s.batches[s.rows[o].batch];
         && a.createdAt <= b.createdAt
         && (a.createdAt == b.createdAt ==> a.rowid <= b.rowid)
         && (a.createdAt == b.createdAt && a.rowid == b.rowid ==> s.rows[id].ordinal <= s.rows[o].ordinal)
  }

  /** The calls that move a row into the state `to`, each with the columns it looks at. */
  ghost predicate MovedBy(s: Store, op: Op, now: Time, id: RequestId, to: RequestState)
    requires id in s.rows
  {
    var r := s.rows[id];
    match to
    case Queued => op.OpRecover? && r.slot && r.state == Checking
    case Checking => op.OpClaim? && op.id == id && FirstInLine(s, id)
    case HubUpdateRequired => op.OpFail? && op.id == id && op.st == to && GivenUp(s, id, to)
    case UpdatingHub => false
    case Verifying => false
    case TicketIssued => op.OpIssue? && op.id == id && r.ticket == NoTicket && r.target == op.binding.target.machine
                         && (r.state == Queued || r.state == Checking)
    case Dispatched => op.OpMark? && op.id == id && r.ticket == Issued && r.state == TicketIssued
    case Redeemed => op.OpRedeem? && op.id == id && Redeem(s, id, op.call, now).result.Ok?
    case ConfirmationPending => || (op.OpPark? && op.id == id && (Dispatchable(r) || Claimed(r)))
                                || (op.OpRecover? && r.slot && r.state != Checking)
                                || (op.OpRedeem? && op.id == id && CameLate(r, op.call, now))
    case Complete => && Names(op, id) && r.ticket == Spent
                     && (Reported(r, op, AgentComplete) || Released(r, op, AgentComplete)) && IsRepairedIdentity(r, op.identity)
    case Retryable => Names(op, id)
                      && ( || Reported(r, op, AgentNeverApplied)
                           || Released(r, op, AgentNeverApplied)
                           || (op.OpFail? && op.id == id && op.st == to && GivenUp(s, id, to))
                           || (op.OpPreclaim? && r.state == NeedsReview && NeverTicketed(r))
                           || (op.OpExpired? && r.state == NeedsReview && r.redeemedAt.None?
                               && r.expiresAt.Some? && r.expiresAt.value <= op.moment))
    case NeedsReview => Names(op, id) && (Reported(r, op, AgentNeedsReview) || Released(r, op, AgentNeedsReview) || (op.OpFail? && op.id == id && op.st == to && GivenUp(s, id, to)))
  }

  /** Every change of a row's state has exactly one of these causes, and every such call makes it. */
  lemma MovesIff(s: Store, op: Op, now: Time, id: RequestId, to: RequestState)
    requires StoreOk(s) && id in s.rows && s.rows[id].state != to
    ensures After(s, op, now, id).state == to <==> MovedBy(s, op, now, id, to)
  {
    OpKeepsStore(s, op, now);
    if op.OpRecover? { RecoverAlwaysFreesTheSlot(s, now); }
    hide MovedBy, Apply;
    OpMoves(s, op, now, id, Apply(s, op, now), to);
  }

  lemma OpMoves(s: Store, op: Op, now: Time, id: RequestId, st: Step, to: RequestState)
    requires id in s.rows && RowOk(s.rows[id]) && s.rows[id].state != to
    requires st == Apply(s, op, now) && id in st.store.rows && (op.OpRecover? ==> st.result.Ok?)
    ensures st.store.rows[id].state == to <==> MovedBy(s, op, now, id, to)
  {
    var s' := st.store;
    assert s.rows[id].ticket == Spent ==> s.rows[id].binding.Some?;
    hide MovedBy, RowOk;
    hide AddRequests, ClaimNext, RecoverSlot, Redeem, AdoptStatus, FailBeforeClaim, ReleaseFence, IssueTicket, MarkDispatched, Park, ResolvePreclaim, ResolveExpired;
    match op
    case OpAdd(batch, key, targets, ids) => AddMoves(s, op, now, id, s', to);
    case OpClaim(_) => ClaimMoves(s, op, now, id, s', to);
    case OpRecover => RecoverMoves(s, op, now, id, s', to);
    case OpRedeem(_, _) => RedeemMoves(s, op, now, id, s', to);
    case OpAdopt(_, _, _, _, _) => AdoptMoves(s, op, now, id, s', to);
    case OpFail(_, _, _) => FailMoves(s, op, now, id, s', to);
    case OpRelease(_, _, _) => ReleaseMoves(s, op, now, id, s', to);
    case OpIssue(_, _, _) => IssueMoves(s, op, now, id, s', to);
    case OpMark(_) => MarkMoves(s, op, now, id, s', to);
    case OpPark(_, _) => ParkMoves(s, op, now, id, s', to);
    case OpPreclaim(_) => PreclaimMoves(s, op, now, id, s', to);
    case OpExpired(_, _) => ExpiredMoves(s, op, now, id, s', to);
  }

  lemma AddMoves(s: Store, op: Op, now: Time, id: RequestId, s': Store, to: RequestState)
    requires id in s.rows && s.rows[id].state != to && op.OpAdd? && id in s'.rows
    requires s' == AddRequests(s, op.batch, op.key, op.targets, op.ids, now).store
    ensures s'.rows[id].state == to <==> MovedBy(s, op, now, id, to)
  {
    hide FirstInLine, GivenUp, CameLate, IsRepairedIdentity, Redeem;
  }

  lemma ClaimMoves(s: Store, op: Op, now: Time, id: RequestId, s': Store, to: RequestState)
    requires id in s.rows && RowOk(s.rows[id]) && s.rows[id].state != to && op.OpClaim? && id in s'.rows
    requires s' == ClaimNext(s, op.id, now).store
    ensures s'.rows[id].state == to <==> MovedBy(s, op, now, id, to)
  {
    hide GivenUp, CameLate, IsRepairedIdentity, Redeem;
  }

  lemma RecoverMoves(s: Store, op: Op, now: Time, id: RequestId, s': Store, to: RequestState)
    requires id in s.rows && RowOk(s.rows[id]) && s.rows[id].state != to && op.OpRecover? && id in s'.rows
    requires s' == RecoverSlot(s, now).store && RecoverSlot(s, now).result.Ok?
    ensures s'.rows[id].state == to <==> MovedBy(s, op, now, id, to)
  {
    hide FirstInLine, GivenUp, CameLate, IsRepairedIdentity, Redeem;
  }

  lemma RedeemMoves(s: Store, op: Op, now: Time, id: RequestId, s': Store, to: RequestState)
    requires id in s.rows && RowOk(s.rows[id]) && s.rows[id].state != to && op.OpRedeem? && id in s'.rows
    requires s' == Redeem(s, op.id, op.call, now).store
    ensures s'.rows[id].state == to <==> MovedBy(s, op, now, id, to)
  {
    hide FirstInLine, GivenUp, IsRepairedIdentity;
  }

  lemma RepairedIdentityIff(r: Row, identity: Option<Identity>)
    requires r.binding.Some?
    ensures identity == ExpectedIdentity(r) <==> IsRepairedIdentity(r, identity)
  {
  }

  lemma AdoptStateIs(s: Store, op: Op, now: Time, r: Row, s': Store)
    requires op.OpAdopt? && op.id in s.rows && s.rows[op.id] == r && (r.ticket == Spent ==> r.binding.Some?) && op.id in s'.rows
    requires s' == AdoptStatus(s, op.id, op.terminal, op.identity, op.error, op.source, now).store
    ensures s'.rows[op.id].state ==
            if Reported(r, op, op.terminal) && (op.terminal == AgentComplete ==> r.ticket == Spent && IsRepairedIdentity(r, op.identity))
            then TerminalState(op.terminal) else r.state
  {
    hide IsRepairedIdentity, ExpectedIdentity;
    if r.binding.Some? { RepairedIdentityIff(r, op.identity); }
  }

  lemma AdoptMoves(s: Store, op: Op, now: Time, id: RequestId, s': Store, to: RequestState)
    requires id in s.rows && (s.rows[id].ticket == Spent ==> s.rows[id].binding.Some?) && s.rows[id].state != to && op.OpAdopt? && id in s'.rows
    requires s' == AdoptStatus(s, op.id, op.terminal, op.identity, op.error, op.source, now).store
    ensures s'.rows[id].state == to <==> MovedBy(s, op, now, id, to)
  {
    hide FirstInLine, GivenUp, CameLate, Redeem, IsRepairedIdentity;
    if op.id == id {
      AdoptStateIs(s, op, now, s.rows[id], s');
      hide AdoptStatus;
    }
  }

  lemma FailMoves(s: Store, op: Op, now: Time, id: RequestId, s': Store, to: RequestState)
    requires id in s.rows && RowOk(s.rows[id]) && s.rows[id].state != to && op.OpFail? && id in s'.rows
    requires s' == FailBeforeClaim(s, op.id, op.st, op.error, now).store
    ensures s'.rows[id].state == to <==> MovedBy(s, op, now, id, to)
  {
    hide FirstInLine, CameLate, IsRepairedIdentity, Redeem;
  }

  lemma ReleaseStateIs(s: Store, op: Op, now: Time, r: Row, s': Store)
    requires op.OpRelease? && op.id in s.rows && s.rows[op.id] == r && (r.ticket == Spent ==> r.binding.Some?) && op.id in s'.rows
    requires s' == ReleaseFence(s, op.id, op.terminal, op.identity, now).store
    ensures s'.rows[op.id].state ==
            if Released(r, op, op.terminal) && (op.terminal == AgentComplete ==> IsRepairedIdentity(r, op.identity))
            then TerminalState(op.terminal) else r.state
  {
    hide IsRepairedIdentity, ExpectedIdentity;
    if r.binding.Some? { RepairedIdentityIff(r, op.identity); }
  }

  lemma ReleaseMoves(s: Store, op: Op, now: Time, id: RequestId, s': Store, to: RequestState)
    requires id in s.rows && (s.rows[id].ticket == Spent ==> s.rows[id].binding.Some?) && s.rows[id].state != to && op.OpRelease? && id in s'.rows
    requires s' == ReleaseFence(s, op.id, op.terminal, op.identity, now).store
    ensures s'.rows[id].state == to <==> MovedBy(s, op, now, id, to)
  {
    hide FirstInLine, GivenUp, CameLate, Redeem, IsRepairedIdentity;
    if op.id == id {
      ReleaseStateIs(s, op, now, s.rows[id], s');
      hide ReleaseFence;
    }
  }

  lemma IssueMoves(s: Store, op: Op, now: Time, id: RequestId, s': Store, to: RequestState)
    requires id in s.rows && RowOk(s.rows[id]) && s.rows[id].state != to && op.OpIssue? && id in s'.rows
    requires s' == IssueTicket(s, op.id, op.binding, op.expiresAt, now).store
    ensures s'.rows[id].state == to <==> MovedBy(s, op, now, id, to)
  {
    hide FirstInLine, GivenUp, CameLate, IsRepairedIdentity, Redeem;
  }

  lemma MarkMoves(s: Store, op: Op, now: Time, id: RequestId, s': Store, to: RequestState)
    requires id in s.rows && RowOk(s.rows[id]) && s.rows[id].state != to && op.OpMark? && id in s'.rows
    requires s' == MarkDispatched(s, op.id, now).store
    ensures s'.rows[id].state == to <==> MovedBy(s, op, now, id, to)
  {
    hide FirstInLine, GivenUp, CameLate, IsRepairedIdentity, Redeem;
  }

  lemma ParkMoves(s: Store, op: Op, now: Time, id: RequestId, s': Store, to: RequestState)
    requires id in s.rows && RowOk(s.rows[id]) && s.rows[id].state != to && op.OpPark? && id in s'.rows
    requires s' == Park(s, op.id, op.error, now).store
    ensures s'.rows[id].state == to <==> MovedBy(s, op, now, id, to)
  {
    hide FirstInLine, GivenUp, CameLate, IsRepairedIdentity, Redeem;
  }

  lemma PreclaimMoves(s: Store, op: Op, now: Time, id: RequestId, s': Store, to: RequestState)
    requires id in s.rows && RowOk(s.rows[id]) && s.rows[id].state != to && op.OpPreclaim? && id in s'.rows
    requires s' == ResolvePreclaim(s, op.id, now).store
    ensures s'.rows[id].state == to <==> MovedBy(s, op, now, id, to)
  {
    hide FirstInLine, GivenUp, CameLate, IsRepairedIdentity, Redeem;
  }

  lemma ExpiredMoves(s: Store, op: Op, now: Time, id: RequestId, s': Store, to: RequestState)
    requires id in s.rows && RowOk(s.rows[id]) && s.rows[id].state != to && op.OpExpired? && id in s'.rows
    requires s' == ResolveExpired(s, op.id, op.moment).store
    ensures s'.rows[id].state == to <==> MovedBy(s, op, now, id, to)
  {
    hide FirstInLine, GivenUp, CameLate, IsRepairedIdentity, Redeem;
  }

  // ---------------------------------------------------------------- what a move writes

  /** The error a changed row is left with. */
  ghost function ErrorLeft(r: Row, op: Op, to: RequestState): Option<string> {
    match op
    case OpPark(_, error) => error
    case OpFail(_, _, error) => error
    case OpAdopt(_, t, _, error, _) => if t == AgentComplete then None else error
    case OpRelease(_, t, _) => if to == Complete then None else if to == Retryable then Some("never_applied") else Some("needs_review")
    case OpRecover => if to == ConfirmationPending then Some("confirmation_pending") else r.error
    case OpRedeem(_, _) => if to == Redeemed then None else Some("ticket_expired")
    case OpIssue(_, _, _) => None
    case OpPreclaim(_) => None
    case OpExpired(_, _) => None
    case _ => r.error
  }

  /** The slot is taken by the claim for dispatch alone, and kept only on the way to a redeemed ticket. */
  ghost predicate SlotLeft(r: Row, op: Op, to: RequestState) {
    op.OpClaim? || (r.slot && (to == TicketIssued || to == Dispatched || to == Redeemed))
  }

  ghost function TicketLeft(r: Row, op: Op, to: RequestState): TicketStatus {
    if op.OpIssue? then Issued
    else if to == Redeemed then Spent
    else if op.OpRedeem? || op.OpExpired? || (op.OpAdopt? && r.ticket == Issued) then Expired
    else r.ticket
  }

  /** The columns of a row that the call `op` changed from `r` to `r'`. */
  ghost predicate Written(r: Row, op: Op, now: Time, r': Row) {
    && r'.updatedAt == (if op.OpExpired? then op.moment else now)
    && r'.error == ErrorLeft(r, op, r'.state)
    && (r'.slot <==> SlotLeft(r, op, r'.state))
    && r'.ticket == TicketLeft(r, op, r'.state)
    && r'.redeemedAt == (if op.OpRedeem? && r'.state == Redeemed then Some(now) else r.redeemedAt)
    && r'.issuedAt == (if op.OpIssue? then Some(now) else r.issuedAt)
    && r'.expiresAt == (if op.OpIssue? then Some(op.expiresAt) else r.expiresAt)
    && r'.binding == (if op.OpIssue? then Some(op.binding) else r.binding)
    && r'.agentTerminal == (if op.OpAdopt? then Some(op.terminal) else if op.OpPreclaim? then None else r.agentTerminal)
  }

  /** Every column a changed row is left with, besides its state. */
  lemma ChangeWrites(s: Store, op: Op, now: Time, id: RequestId)
    requires StoreOk(s) && id in s.rows && After(s, op, now, id) != s.rows[id]
    ensures Written(s.rows[id], op, now, After(s, op, now, id))
  {
    OpKeepsStore(s, op, now);
    if op.OpRecover? { RecoverAlwaysFreesTheSlot(s, now); }
    hide Written, Apply;
    OpWrites(s, op, now, id, Apply(s, op, now));
  }

  lemma OpWrites(s: Store, op: Op, now: Time, id: RequestId, st: Step)
    requires id in s.rows && RowOk(s.rows[id])
    requires st == Apply(s, op, now) && id in st.store.rows && (op.OpRecover? ==> st.result.Ok?) && st.store.rows[id] != s.rows[id]
    ensures Written(s.rows[id], op, now, st.store.rows[id])
  {
    if op.OpRedeem? || op.OpIssue? || op.OpMark? { TicketOpWrites(s, op, now, id, st); }
    else if op.OpAdopt? || op.OpRelease? { ReportWrites(s, op, now, id, st); }
    else if op.OpRecover? || op.OpClaim? || op.OpAdd? { SlotOpWrites(s, op, now, id, st); }
    else { GivingUpWrites(s, op, now, id, st); }
  }

  lemma TicketOpWrites(s: Store, op: Op, now: Time, id: RequestId, st: Step)
    requires id in s.rows && RowOk(s.rows[id]) && (op.OpRedeem? || op.OpIssue? || op.OpMark?)
    requires st == Apply(s, op, now) && id in st.store.rows && st.store.rows[id] != s.rows[id]
    ensures Written(s.rows[id], op, now, st.store.rows[id])
  {
  }

  lemma ReportWrites(s: Store, op: Op, now: Time, id: RequestId, st: Step)
    requires id in s.rows && RowOk(s.rows[id]) && (op.OpAdopt? || op.OpRelease?)
    requires st == Apply(s, op, now) && id in st.store.rows && st.store.rows[id] != s.rows[id]
    ensures Written(s.rows[id], op, now, st.store.rows[id])
  {
    hide ExpectedIdentity;
  }

  lemma SlotOpWrites(s: Store, op: Op, now: Time, id: RequestId, st: Step)
    requires id in s.rows && RowOk(s.rows[id]) && (op.OpRecover? || op.OpClaim? || op.OpAdd?)
    requires st == Apply(s, op, now) && id in st.store.rows && (op.OpRecover? ==> st.result.Ok?) && st.store.rows[id] != s.rows[id]
    ensures Written(s.rows[id], op, now, st.store.rows[id])
  {
  }

  lemma GivingUpWrites(s: Store, op: Op, now: Time, id: RequestId, st: Step)
    requires id in s.rows && RowOk(s.rows[id]) && (op.OpPark? || op.OpFail? || op.OpPreclaim? || op.OpExpired?)
    requires st == Apply(s, op, now) && id in st.store.rows && st.store.rows[id] != s.rows[id]
    ensures Written(s.rows[id], op, now, st.store.rows[id])
  {
  }

  /** The targets nobody is repairing. */
  ghost predicate AllFree(s: Store, targets: seq<Machine>) {
    forall o | o in s.rows && s.rows[o].target in targets ::
      s.rows[o].state == Complete || s.rows[o].state == Retryable || s.rows[o].state == HubUpdateRequired
  }

  lemma AllFreeIff(s: Store, targets: seq<Machine>)
    ensures AllFree(s, targets) <==> forall i | 0 <= i < |targets| :: TargetFree(s, targets[i])
  {
    if !AllFree(s, targets) {
      var o :| o in s.rows && s.rows[o].target in targets && Unresolved(s.rows[o].state);
      var i :| 0 <= i < |targets| && targets[i] == s.rows[o].target;
      assert !TargetFree(s, targets[i]);
    }
  }

  /** New requests go in together or not at all: only for targets nobody is repairing. */
  lemma AddedIff(s: Store, batch: BatchId, key: BatchKey, targets: seq<Machine>, ids: seq<RequestId>, now: Time)
    requires |targets| == |ids| && Distinct(ids) && batch !in s.batches && (forall i | 0 <= i < |ids| :: ids[i] !in s.rows)
    ensures AddRequests(s, batch, key, targets, ids, now).result.Ok? <==> Distinct(targets) && AllFree(s, targets)
    ensures AddRequests(s, batch, key, targets, ids, now).result.Err? ==> AddRequests(s, batch, key, targets, ids, now).store == s
  {
    AllFreeIff(s, targets);
    hide AllFree, TargetFree;
  }

  /** Accepted requests are queued in the order given, without slot or ticket; no other row is touched. */
  lemma AddedRowsAre(s: Store, batch: BatchId, key: BatchKey, targets: seq<Machine>, ids: seq<RequestId>, now: Time)
    requires AddRequests(s, batch, key, targets, ids, now).result.Ok?
    ensures var s' := AddRequests(s, batch, key, targets, ids, now).store;
            && s'.batches == s.batches[batch := key]
            && (forall o | o in s.rows :: o in s'.rows && s'.rows[o] == s.rows[o])
            && (forall o | o in s'.rows :: o in s.rows || o in ids)
            && |ids| == |targets|
            && forall i | 0 <= i < |ids| ::
                 && ids[i] in s'.rows
                 && var r := s'.rows[ids[i]];
                 && r.batch == batch && r.ordinal == i && r.target == targets[i] && r.state == Queued
                 && !r.slot && NeverTicketed(r) && r.binding.None? && r.error.None? && r.createdAt == now == r.updatedAt
  {
    AddInserts(s, batch, key, targets, ids, now);
    hide TargetFree;
  }

  /** Once a report is adopted it is final: the same report is taken again without a write, any other is refused. */
  lemma AdoptedOnce(s: Store, id: RequestId, t: Terminal, identity: Option<Identity>, error: Option<string>, source: string, now: Time,
                    t2: Terminal, identity2: Option<Identity>, error2: Option<string>, later: Time)
    requires AdoptStatus(s, id, t, identity, error, source, now).result.Ok?
    ensures var s' := AdoptStatus(s, id, t, identity, error, source, now).store;
            AdoptStatus(s', id, t2, identity2, error2, source, later) ==
            Step(s', if t2 == t then Ok(Row_(id)) else Err("terminal_status_conflict"))
  {
  }
}

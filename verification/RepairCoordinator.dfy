/**
 One turn of the Controller's repair scheduler: claim the next request, prepare, issue its ticket,
 deliver it, then adopt the answer or park the request.  The Agent may redeem the ticket before the
 answer to its delivery is back.
 */
module RepairCoordinator {
  import opened Outcomes
  import opened RepairRows
  import opened RepairStore

  /** What can go wrong before a ticket is issued. */
  datatype Trouble = RegistryAmbiguous(code: string) | TransportFailed(code: string) | StoreRefused(code: string) | Cancelled | Unexpected

  /** Everything outside the store that one turn meets. */
  datatype World = World(
    enabled: bool, token: Option<string>, preparation: Option<Trouble>,
    binding: Binding, expiresAt: Time, early: Option<RedeemCall>, answer: Option<Report>, now: Time)

  /** What the Agent answered, as far as adoption reads it. */
  datatype Report = Report(terminal: Option<Terminal>, identity: Option<Identity>, error: Option<string>, source: string)

  const TOKEN_CODES := {"callback_url_invalid", "fleet_token_missing", "fleet_token_mismatch", "host_address_changed"}

  /** The durable outcome of a claimed request that never got a ticket. */
  function PreissuanceFailure(t: Trouble): (r: (RequestState, string))
    ensures r.0.Retryable? || r.0.NeedsReview? || r.0.HubUpdateRequired?
    ensures r.0.HubUpdateRequired? <==> t == StoreRefused("hub_update_required")
  {
    match t
    case RegistryAmbiguous(code) => (NeedsReview, code)
    case TransportFailed(code) => if code == "callback_source_mismatch" then (NeedsReview, code) else (Retryable, "transport_unavailable")
    case StoreRefused(code) =>
      if code == "hub_update_required" then (HubUpdateRequired, code)
      else if code == "fleet_token_changed" then (NeedsReview, "fleet_token_mismatch")
      else if code == "controller_snapshot_invalid" then (Retryable, "controller_snapshot_changed")
      else if code in TOKEN_CODES then (NeedsReview, code)
      else (Retryable, code)
    case Cancelled => (Retryable, "transport_unavailable")
    case Unexpected => (Retryable, "transport_unavailable")
  }

  /** Which trouble needs a person, and under which code each is recorded. */
  lemma PreissuanceFailureIs(t: Trouble)
    ensures PreissuanceFailure(t).0 == NeedsReview <==>
            || t.RegistryAmbiguous?
            || t == TransportFailed("callback_source_mismatch")
            || (t.StoreRefused? && (t.code == "callback_url_invalid" || t.code == "fleet_token_missing" || t.code == "fleet_token_mismatch"
                                    || t.code == "host_address_changed" || t.code == "fleet_token_changed"))
    ensures PreissuanceFailure(t).1 ==
            if t == StoreRefused("fleet_token_changed") then "fleet_token_mismatch"
            else if t == StoreRefused("controller_snapshot_invalid") then "controller_snapshot_changed"
            else if t.StoreRefused? || t.RegistryAmbiguous? then t.code
            else if t == TransportFailed("callback_source_mismatch") then "callback_source_mismatch"
            else "transport_unavailable"
  {
  }

  /** How `dispatch_next` ended: nothing to do, raised, or delivered. */
  datatype Dispatched = NothingToDo | Raised(code: string) | Delivered(id: RequestId)

  // ---------------------------------------------------------------- one row at a time

  /** Nothing but row `id` differs. */
  ghost predicate OnlyRow(s: Store, s': Store, id: RequestId) {
    && s'.batches == s.batches && s'.rows.Keys == s.rows.Keys
    && forall o | o in s.rows && o != id :: s'.rows[o] == s.rows[o]
  }

  /** No row but `id` holds the dispatch slot. */
  ghost predicate OnlyHolder(s: Store, id: RequestId) {
    forall o | o in s.rows && s.rows[o].slot :: o == id
  }

  /** Where a dispatch leaves its request: failed without the slot, or live, holding the slot unless it expired. */
  predicate Carried(row: Row, r: Dispatched) {
    if row.ticket == NoTicket then r.Raised? && !row.slot && !MayStillRedeem(row.state)
    else Live(row.state) && (row.slot || row.state.ConfirmationPending?)
  }

  /**
   How a delivery ends: a binding of another machine fails the request, an unanswered one leaves the ticket out,
   an answered one records the delivery, and neither can be recorded once the Agent has redeemed.
   */
  predicate DeliveredAs(target: Machine, id: RequestId, w: World, row: Row, r: Dispatched) {
    if target != w.binding.target.machine then
      r == Raised("request_not_issuable") && row.state == Retryable && row.error == Some("request_not_issuable")
    else
      && row.binding == Some(w.binding) && row.expiresAt == Some(w.expiresAt) && (r.Delivered? ==> w.answer.Some?)
      && (w.early.None? ==>
            && row.ticket == Issued && row.slot
            && (if w.answer.Some? then r == Delivered(id) && row.state.Dispatched? else r == Raised("transport_unavailable") && row.state.TicketIssued?))
      && (row.ticket == Spent ==>
            row.state.Redeemed? && r == Raised(if w.answer.None? then "transport_unavailable" else "request_not_dispatchable"))
  }

  lemma OnlyHolderStays(s: Store, s': Store, id: RequestId)
    requires OnlyHolder(s, id) && OnlyRow(s, s', id)
    ensures OnlyHolder(s', id)
    ensures id in s'.rows && !s'.rows[id].slot ==> !SlotHeld(s')
  {
  }

  lemma OnlyRowChains(a: Store, b: Store, c: Store, id: RequestId)
    requires OnlyRow(a, b, id) && OnlyRow(b, c, id)
    ensures OnlyRow(a, c, id)
  {
  }

  lemma ClaimTakesOne(s: Store, id: RequestId, now: Time)
    requires StoreOk(s) && !SlotHeld(s) && IsNext(s, id)
    ensures var s' := ClaimNext(s, id, now).store;
            && StoreOk(s') && OnlyRow(s, s', id) && OnlyHolder(s', id)
            && s.rows[id].state.Queued? && id in s'.rows && s'.rows[id].state.Checking? && HoldsNoAuthority(s'.rows[id]) && s'.rows[id].slot
            && s'.rows[id].target == s.rows[id].target
  {
    ClaimKeepsStore(s, id, now);
    assert RowOk(s.rows[id]);
  }

  /** A claimed request without a ticket can always be failed, and gives the slot back. */
  lemma PreclaimFails(s: Store, id: RequestId, st: RequestState, error: Option<string>, now: Time)
    requires StoreOk(s) && id in s.rows && s.rows[id].state.Checking? && HoldsNoAuthority(s.rows[id])
    requires st.Retryable? || st.NeedsReview? || st.HubUpdateRequired?
    ensures FailBeforeClaim(s, id, st, error, now).result.Ok?
    ensures var s' := FailBeforeClaim(s, id, st, error, now).store;
            StoreOk(s') && OnlyRow(s, s', id) && s'.rows[id].state == st && !s'.rows[id].slot && s'.rows[id].ticket == NoTicket
            && s'.rows[id].error == error
  {
    FailKeepsStore(s, id, st, error, now);
  }

  lemma IssueIsLocal(s: Store, id: RequestId, b: Binding, expiresAt: Time, now: Time)
    requires StoreOk(s) && id in s.rows
    ensures var st := IssueTicket(s, id, b, expiresAt, now);
            && StoreOk(st.store) && OnlyRow(s, st.store, id)
            && (st.result.Ok? ==> st.store.rows[id].state.TicketIssued? && st.store.rows[id].ticket == Issued && st.store.rows[id].slot == s.rows[id].slot
                                  && st.store.rows[id].binding == Some(b) && st.store.rows[id].expiresAt == Some(expiresAt))
            && (HoldsNoAuthority(s.rows[id]) && s.rows[id].state.Checking? ==> (st.result.Ok? <==> s.rows[id].target == b.target.machine))
            && (st.result.Err? ==> st.result == Err("request_not_issuable"))
            && (st.result.Err? ==> st.store == s)
  {
    IssueKeepsStore(s, id, b, expiresAt, now);
  }

  /** However an early redemption ends, the request keeps a state that can be parked. */
  lemma EarlyRedeemIsLocal(s: Store, id: RequestId, c: RedeemCall, now: Time)
    requires StoreOk(s) && id in s.rows && s.rows[id].state.TicketIssued? && s.rows[id].slot
    ensures var s' := Redeem(s, id, c, now).store;
            && StoreOk(s') && OnlyRow(s, s', id) && Live(s'.rows[id].state) && (s'.rows[id].slot || s'.rows[id].state.ConfirmationPending?)
            && s'.rows[id].binding == s.rows[id].binding && s'.rows[id].expiresAt == s.rows[id].expiresAt
            && (s'.rows[id].ticket == Spent ==> s.rows[id].ticket == Spent || s'.rows[id].state.Redeemed?)
  {
    RedeemKeepsStore(s, id, c, now);
    RedeemTouchesOne(s, id, c, now);
    hide Redeem, StoreOk;
  }

  lemma RedeemTouchesOne(s: Store, id: RequestId, c: RedeemCall, now: Time)
    requires id in s.rows && s.rows[id].state.TicketIssued? && s.rows[id].slot
    ensures var s' := Redeem(s, id, c, now).store;
            && OnlyRow(s, s', id) && Live(s'.rows[id].state) && (s'.rows[id].slot || s'.rows[id].state.ConfirmationPending?)
            && s'.rows[id].binding == s.rows[id].binding && s'.rows[id].expiresAt == s.rows[id].expiresAt
            && (s'.rows[id].ticket == Spent ==> s.rows[id].ticket == Spent || s'.rows[id].state.Redeemed?)
  {
    hide CompletedSince, ExactTarget, ClaimFor, OnlyRow;
    var s' := Redeem(s, id, c, now).store;
    if s' == s {
      assert Put(s, id, s.rows[id]) == s by { assert s.rows[id := s.rows[id]] == s.rows; }
      PutIsLocal(s, id, s.rows[id]);
    } else {
      assert s' == Put(s, id, s'.rows[id]) && (s'.rows[id].state.ConfirmationPending? || (s'.rows[id].state.Redeemed? && s'.rows[id].slot));
      assert s'.rows[id].binding == s.rows[id].binding && s'.rows[id].expiresAt == s.rows[id].expiresAt;
      assert s'.rows[id].ticket == Spent ==> s'.rows[id].state.Redeemed?;
      hide Redeem;
      PutIsLocal(s, id, s'.rows[id]);
    }
  }

  lemma PutIsLocal(s: Store, id: RequestId, r: Row)
    requires id in s.rows
    ensures OnlyRow(s, Put(s, id, r), id)
  {
  }

  lemma MarkIsLocal(s: Store, id: RequestId, now: Time)
    requires StoreOk(s) && id in s.rows && Live(s.rows[id].state)
    ensures var st := MarkDispatched(s, id, now);
            && StoreOk(st.store) && OnlyRow(s, st.store, id) && Live(st.store.rows[id].state)
            && st.store.rows[id].slot == s.rows[id].slot && (st.result.Err? ==> st.store == s && st.result == Err("request_not_dispatchable"))
            && st.store.rows[id] == s.rows[id].(state := st.store.rows[id].state, updatedAt := st.store.rows[id].updatedAt)
            && (st.result.Ok? <==> s.rows[id].state.Dispatched? || (s.rows[id].state.TicketIssued? && s.rows[id].ticket == Issued))
  {
    MarkKeepsStore(s, id, now);
  }

  lemma ParkFrees(s: Store, id: RequestId, error: Option<string>, now: Time)
    requires StoreOk(s) && id in s.rows && Live(s.rows[id].state)
    ensures Park(s, id, error, now).result.Ok?
    ensures var s' := Park(s, id, error, now).store;
            StoreOk(s') && OnlyRow(s, s', id) && s'.rows[id].state.ConfirmationPending? && !s'.rows[id].slot && s'.rows[id].ticket == s.rows[id].ticket
            && s'.rows[id].error == error
  {
    ParkKeepsStore(s, id, error, now);
  }

  lemma AdoptIsLocal(s: Store, id: RequestId, t: Terminal, r: Report, now: Time)
    requires StoreOk(s) && id in s.rows && Live(s.rows[id].state)
    ensures var st := AdoptStatus(s, id, t, r.identity, r.error, r.source, now);
            && StoreOk(st.store) && OnlyRow(s, st.store, id)
            && (st.result.Ok? ==> !st.store.rows[id].slot && st.store.rows[id].state == TerminalState(t))
            && (st.result.Err? ==> st.store == s)
  {
    hide StoreOk, AdoptStatus, OnlyRow, Evolves;
    AdoptKeepsStore(s, id, t, r.identity, r.error, r.source, now);
    AdoptTouchesOne(s, id, t, r, now);
  }

  lemma AdoptTouchesOne(s: Store, id: RequestId, t: Terminal, r: Report, now: Time)
    requires id in s.rows && Live(s.rows[id].state)
    ensures var st := AdoptStatus(s, id, t, r.identity, r.error, r.source, now);
            && OnlyRow(s, st.store, id)
            && (st.result.Ok? ==> !st.store.rows[id].slot && st.store.rows[id].state == TerminalState(t))
            && (st.result.Err? ==> st.store == s)
  {
    hide OnlyRow, ExpectedIdentity, Retire;
    var st := AdoptStatus(s, id, t, r.identity, r.error, r.source, now);
    if st.result.Ok? {
      assert st.store == Put(s, id, st.store.rows[id]);
      PutIsLocal(s, id, st.store.rows[id]);
    } else {
      assert Put(s, id, s.rows[id]) == s by { assert s.rows[id := s.rows[id]] == s.rows; }
      PutIsLocal(s, id, s.rows[id]);
    }
    hide AdoptStatus;
  }

  /**
   An Agent that redeems before the answer to its delivery is back: the delivery can no longer be recorded,
   but the request can be parked, and its completion is still adopted from there.
   */
  lemma EarlyRedemptionFinishesParked(s: Store, id: RequestId, c: RedeemCall, error: Option<string>, now: Time, later: Time)
    requires Redeem(s, id, c, now).result.Ok?
    ensures var s1 := Redeem(s, id, c, now).store;
            var s2 := Park(s1, id, error, now).store;
            && MarkDispatched(s1, id, now).result == Err("request_not_dispatchable")
            && Park(s1, id, error, now).result.Ok? && id in s2.rows
            && AdoptStatus(s2, id, AgentComplete, ExpectedIdentity(s2.rows[id]), None, c.source, later).result == Ok(Row_(id))
            && AdoptStatus(s2, id, AgentComplete, ExpectedIdentity(s2.rows[id]), None, c.source, later).store.rows[id].state.Complete?
  {
    RedeemedRow(s, id, c, now);
    hide Redeem;
  }

  lemma RedeemedRow(s: Store, id: RequestId, c: RedeemCall, now: Time)
    requires Redeem(s, id, c, now).result.Ok?
    ensures var s1 := Redeem(s, id, c, now).store;
            && id in s1.rows && s1.rows[id].state.Redeemed? && s1.rows[id].ticket == Spent
            && s1.rows[id].binding.Some? && s1.rows[id].binding.value.target.address == c.source
  {
    hide CompletedSince;
  }

  // ---------------------------------------------------------------- the coordinator

  class Coordinator {
    const store: RepairStore

    constructor (s: RepairStore)
      ensures store == s
    {
      store := s;
    }

    /** Mark a claimed request that cannot be dispatched, and free the slot. */
    method GiveUp(id: RequestId, t: Trouble, now: Time)
      requires StoreOk(store.View()) && id in store.rows && store.rows[id].state.Checking? && HoldsNoAuthority(store.rows[id])
      modifies store
      ensures StoreOk(store.View()) && OnlyRow(old(store.View()), store.View(), id)
      ensures store.rows[id].state == PreissuanceFailure(t).0 && !store.rows[id].slot && store.rows[id].ticket == NoTicket
      ensures store.rows[id].error == Some(PreissuanceFailure(t).1)
    {
      var outcome := PreissuanceFailure(t);
      PreclaimFails(store.View(), id, outcome.0, Some(outcome.1), now);
      hide StoreOk, FailBeforeClaim;
      var _ := store.FailBeforeClaim(id, outcome.0, Some(outcome.1), now);
    }

    /**
     Claim one request and carry it up to the answer of its delivery.  Whatever goes wrong before the
     ticket exists releases the slot; after that the ticket is the only authority and stays recorded.
     */
    method DispatchNext(w: World) returns (r: Dispatched, ghost id: RequestId)
      requires StoreOk(store.View()) && forall o | o in store.rows :: store.rows[o].batch in store.batches
      modifies store
      ensures StoreOk(store.View())
      ensures r.NothingToDo? ==> store.View() == old(store.View())
      ensures SlotHeld(old(store.View())) ==> r.NothingToDo?
      ensures r != NothingToDo && store.View() != old(store.View()) ==>
                && IsNext(old(store.View()), id) && OnlyRow(old(store.View()), store.View(), id) && OnlyHolder(store.View(), id)
                && Carried(store.rows[id], r)
      ensures r.Delivered? ==> r.id == id && store.View() != old(store.View()) && id in store.rows && store.rows[id].state.Dispatched?
                               && w.answer.Some? && store.rows[id].binding == Some(w.binding)
      ensures r.NothingToDo? <==> !w.enabled || SlotHeld(old(store.View())) || !exists o | o in old(store.rows) :: Claimable(old(store.rows)[o])
      ensures !r.NothingToDo? && w.token.None? ==> r == Raised("fleet_token_missing") && store.View() == old(store.View())
      ensures !r.NothingToDo? && w.token.Some? ==>
                && IsNext(old(store.View()), id) && store.View() != old(store.View()) && id in store.rows
                && (w.preparation.Some? ==>
                      && store.rows[id].state == PreissuanceFailure(w.preparation.value).0
                      && store.rows[id].error == Some(PreissuanceFailure(w.preparation.value).1)
                      && r == Raised(PreissuanceFailure(w.preparation.value).1))
                && (w.preparation.None? ==> DeliveredAs(old(store.rows)[id].target, id, w, store.rows[id], r))
    {
      hide StoreOk, IsNext, SlotHeld, Claimable, OnlyRow, OnlyHolder, RepairRows.ClaimNext;
      id := "";
      if !w.enabled { return NothingToDo, id; }
      var ready := Dispatchable();
      if !ready { return NothingToDo, id; }
      if w.token.None? { return Raised("fleet_token_missing"), id; }
      var claimed := store.ClaimNext(w.now);
      if claimed.None? { return NothingToDo, id; }
      id := claimed.value;
      ClaimTakesOne(old(store.View()), id, w.now);
      ghost var mine := store.View();
      if w.preparation.Some? {
        GiveUp(claimed.value, w.preparation.value, w.now);
        OnlyHolderStays(mine, store.View(), id);
        OnlyRowChains(old(store.View()), mine, store.View(), id);
        return Raised(PreissuanceFailure(w.preparation.value).1), id;
      }
      r := Deliver(claimed.value, w);
      assert old(store.View()).rows[id].state.Queued?;
      OnlyHolderStays(mine, store.View(), id);
      OnlyRowChains(old(store.View()), mine, store.View(), id);
    }

    /** Whether the slot is free and something is queued. */
    method Dispatchable() returns (ready: bool)
      ensures ready == (!SlotHeld(store.View()) && exists o | o in store.rows :: Claimable(store.rows[o]))
    {
      var taken := store.SlotTaken();
      ready := !taken && exists o | o in store.rows :: Claimable(store.rows[o]);
    }

    /** Issue, send, and record the delivery; an early redemption makes the record refuse. */
    method Deliver(id: RequestId, w: World) returns (r: Dispatched)
      requires StoreOk(store.View()) && id in store.rows && store.rows[id].state.Checking? && HoldsNoAuthority(store.rows[id]) && store.rows[id].slot
      modifies store
      ensures StoreOk(store.View()) && OnlyRow(old(store.View()), store.View(), id) && r != NothingToDo
      ensures Carried(store.rows[id], r)
      ensures r.Delivered? ==> r.id == id && store.rows[id].state.Dispatched?
      ensures DeliveredAs(old(store.rows)[id].target, id, w, store.rows[id], r)
    {
      ghost var s0 := store.View();
      assert PreissuanceFailure(StoreRefused("request_not_issuable")) == (Retryable, "request_not_issuable");
      hide StoreOk, OnlyRow, IssueTicket, PreissuanceFailure, Live;
      IssueIsLocal(s0, id, w.binding, w.expiresAt, w.now);
      var issued := store.IssueTicket(id, w.binding, w.expiresAt, w.now);
      ghost var s1 := store.View();
      if issued.Err? {
        GiveUp(id, StoreRefused(issued.code), w.now);
        return Raised(issued.code);
      }
      r := Send(id, w);
      OnlyRowChains(s0, s1, store.View(), id);
    }

    /** The ticket is out: send it, and record the delivery unless the Agent was faster. */
    method Send(id: RequestId, w: World) returns (r: Dispatched)
      requires StoreOk(store.View()) && id in store.rows && store.rows[id].state.TicketIssued? && store.rows[id].ticket == Issued && store.rows[id].slot
      requires store.rows[id].binding == Some(w.binding) && store.rows[id].expiresAt == Some(w.expiresAt)
      modifies store
      ensures StoreOk(store.View()) && OnlyRow(old(store.View()), store.View(), id) && r != NothingToDo
      ensures Carried(store.rows[id], r) && DeliveredAs(w.binding.target.machine, id, w, store.rows[id], r)
      ensures r.Delivered? ==> r.id == id && store.rows[id].state.Dispatched?
    {
      ghost var s1 := store.View();
      hide StoreOk, Redeem, MarkDispatched;
      if w.early.Some? {
        EarlyRedeemIsLocal(s1, id, w.early.value, w.now);
        var _ := store.Redeem(id, w.early.value, w.now);
      }
      ghost var s2 := store.View();
      TicketIsKept(s1, s2, id);
      if w.answer.None? { return Raised("transport_unavailable"); }
      MarkIsLocal(s2, id, w.now);
      MarkMeans(s2, id, w.now);
      var marked := store.MarkDispatched(id, w.now);
      OnlyRowChains(s1, s2, store.View(), id);
      if marked.Err? { return Raised(marked.code); }
      r := Delivered(id);
    }

    /**
     One whole turn.  It leaves the slot free if it found it free, and does nothing if it did not: a request that got no ticket is failed, one
     that did is adopted or parked, and no other row is touched.
     */
    method Turn(w: World) returns (r: Dispatched)
      requires StoreOk(store.View()) && forall o | o in store.rows :: store.rows[o].batch in store.batches
      modifies store
      ensures StoreOk(store.View())
      ensures if SlotHeld(old(store.View())) then store.View() == old(store.View()) else !SlotHeld(store.View())
      ensures store.View() == old(store.View()) || exists id | IsNext(old(store.View()), id) ::
                && OnlyRow(old(store.View()), store.View(), id)
                && (store.rows[id].ticket == NoTicket ==> !MayStillRedeem(store.rows[id].state))
                && (store.rows[id].ticket != NoTicket ==>
                      store.rows[id].state.ConfirmationPending? || store.rows[id].state.Complete? || store.rows[id].state.Retryable? || store.rows[id].state.NeedsReview?)
      ensures r.Delivered? ==> w.answer.Some? && r.id in store.rows && store.rows[r.id].state == Verdict(w.answer.value, w.binding)
    {
      hide StoreOk, IsNext, Claimable, DeliveredAs, AdoptStatus, PreissuanceFailure, Verdict;
      ghost var id: RequestId;
      r, id := DispatchNext(w);
      if r.NothingToDo? { return; }
      ghost var s1 := store.View();
      if r.Delivered? {
        DeliveredAdopts(s1, r.id, w.binding, w.answer.value, w.now);
        Settle(r.id, w.answer, w.now);
      } else {
        var holder := Holder();
        if holder.Some? { Settle(holder.value, None, w.now); }
      }
      if s1 != old(store.View()) { FinishTurn(old(store.View()), s1, store.View(), id); }
    }

    /** The request that holds the scheduling slot. */
    method Holder() returns (r: Option<RequestId>)
      ensures r.Some? ==> r.value in store.rows && store.rows[r.value].slot
      ensures r.None? ==> !SlotHeld(store.View())
    {
      var todo := store.rows.Keys;
      while todo != {}
        invariant todo <= store.rows.Keys
        invariant forall o | o in store.rows && o !in todo :: !store.rows[o].slot
        decreases todo
      {
        var o :| o in todo;
        if store.rows[o].slot { return Some(o); }
        todo := todo - {o};
      }
      r := None;
    }

    /** Adopt a terminal answer, or park the request; either way its slot is free. */
    method Settle(id: RequestId, answer: Option<Report>, now: Time)
      requires StoreOk(store.View()) && id in store.rows && Live(store.rows[id].state)
      modifies store
      ensures StoreOk(store.View()) && OnlyRow(old(store.View()), store.View(), id) && !store.rows[id].slot
      ensures store.rows[id].state.ConfirmationPending? || store.rows[id].state.Complete? || store.rows[id].state.Retryable? || store.rows[id].state.NeedsReview?
      ensures old(store.rows)[id].ticket != NoTicket ==> store.rows[id].ticket != NoTicket
      ensures if answer.Some? && answer.value.terminal.Some?
                 && AdoptStatus(old(store.View()), id, answer.value.terminal.value, answer.value.identity, answer.value.error, answer.value.source, now).result.Ok?
              then store.View() == AdoptStatus(old(store.View()), id, answer.value.terminal.value, answer.value.identity, answer.value.error, answer.value.source, now).store
              else store.rows[id].state.ConfirmationPending? && store.rows[id].error == Some("confirmation_pending")
    {
      if answer.Some? && answer.value.terminal.Some? {
        var a := answer.value;
        AdoptIsLocal(store.View(), id, a.terminal.value, a, now);
        AdoptKeepsTicket(store.View(), id, a.terminal.value, a, now);
        hide StoreOk, AdoptStatus;
        var adopted := store.AdoptStatus(id, a.terminal.value, a.identity, a.error, a.source, now);
        if adopted.Ok? { return; }
      }
      ParkFrees(store.View(), id, Some("confirmation_pending"), now);
      hide StoreOk, Park;
      var _ := store.Park(id, Some("confirmation_pending"), now);
    }
  }

  lemma TicketIsKept(s: Store, s': Store, id: RequestId)
    requires id in s.rows && s.rows[id].ticket != NoTicket && id in s'.rows && StoreOk(s') && Live(s'.rows[id].state)
    ensures s'.rows[id].ticket != NoTicket
  {
    assert RowOk(s'.rows[id]);
  }

  lemma MarkMeans(s: Store, id: RequestId, now: Time)
    requires id in s.rows && s.rows[id].ticket != NoTicket
    ensures var st := MarkDispatched(s, id, now);
            && id in st.store.rows && st.store.rows[id].ticket == s.rows[id].ticket
            && (st.result.Ok? ==> st.store.rows[id].state.Dispatched?)
  {
  }

  lemma AdoptKeepsTicket(s: Store, id: RequestId, t: Terminal, r: Report, now: Time)
    requires id in s.rows
    ensures var s' := AdoptStatus(s, id, t, r.identity, r.error, r.source, now).store;
            id in s'.rows && (s.rows[id].ticket != NoTicket ==> s'.rows[id].ticket != NoTicket)
  {
  }

  /** Where the answer to a delivery leaves a request whose ticket nobody redeemed: only an end without a claim is believed. */
  function Verdict(a: Report, b: Binding): RequestState {
    if a.source == b.target.address && a.terminal == Some(AgentNeverApplied) then Retryable
    else if a.source == b.target.address && a.terminal == Some(AgentNeedsReview) then NeedsReview
    else ConfirmationPending
  }

  lemma DeliveredAdopts(s: Store, id: RequestId, b: Binding, a: Report, now: Time)
    requires StoreOk(s) && id in s.rows && s.rows[id].state.Dispatched? && s.rows[id].binding == Some(b)
    ensures a.terminal.None? ==> Verdict(a, b) == ConfirmationPending
    ensures a.terminal.Some? ==>
              var st := AdoptStatus(s, id, a.terminal.value, a.identity, a.error, a.source, now);
              && (st.result.Ok? <==> Verdict(a, b) != ConfirmationPending)
              && (st.result.Ok? ==> id in st.store.rows && st.store.rows[id].state == Verdict(a, b))
  {
    assert RowOk(s.rows[id]);
    hide StoreOk;
  }

  lemma FinishTurn(s0: Store, s1: Store, s2: Store, id: RequestId)
    requires IsNext(s0, id) && OnlyRow(s0, s1, id) && OnlyHolder(s1, id) && (s2 == s1 || OnlyRow(s1, s2, id))
    requires id in s2.rows && !s2.rows[id].slot
    requires s2.rows[id].ticket == NoTicket ==> !MayStillRedeem(s2.rows[id].state)
    requires s2.rows[id].ticket != NoTicket ==>
               s2.rows[id].state.ConfirmationPending? || s2.rows[id].state.Complete? || s2.rows[id].state.Retryable? || s2.rows[id].state.NeedsReview?
    ensures !SlotHeld(s2) && OnlyRow(s0, s2, id)
  {
    if s2 != s1 { OnlyRowChains(s0, s1, s2, id); }
  }
}

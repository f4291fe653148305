/**
 The Controller's repair store: the request table as mutable state, one method per transaction.
 Each method is proved to do exactly what the table function of the same name says, so what is proved
 about every run of those functions holds of every sequence of calls on this object.
 */
module RepairStore {
  import opened Outcomes
  import opened R = RepairRows

  /** The machines of a selection that no unresolved request stands for, in order. */
  ghost function FreeOf(s: Store, ms: seq<Machine>): seq<Machine>
    decreases ms
  {
    if ms == [] then []
    else FreeOf(s, ms[..|ms| - 1]) + if TargetFree(s, ms[|ms| - 1]) then [ms[|ms| - 1]] else []
  }

  lemma FreeOfAppend(s: Store, ms: seq<Machine>, m: Machine)
    ensures FreeOf(s, ms + [m]) == FreeOf(s, ms) + if TargetFree(s, m) then [m] else []
  {
    assert (ms + [m])[..|ms|] == ms;
  }

  lemma {:induction false} FreeOfBound(s: Store, ms: seq<Machine>)
    ensures |FreeOf(s, ms)| <= |ms|
    ensures forall m :: m in FreeOf(s, ms) <==> m in ms && TargetFree(s, m)
    decreases ms
  {
    if ms != [] {
      FreeOfBound(s, ms[..|ms| - 1]);
      assert ms == ms[..|ms| - 1] + [ms[|ms| - 1]];
    }
  }

  lemma {:induction false} FreeOfDistinct(s: Store, ms: seq<Machine>)
    requires Distinct(ms)
    ensures Distinct(FreeOf(s, ms)) && forall m | m in FreeOf(s, ms) :: TargetFree(s, m)
    decreases ms
  {
    if ms != [] {
      FreeOfDistinct(s, ms[..|ms| - 1]);
      FreeOfBound(s, ms[..|ms| - 1]);
      FreeOfBound(s, ms);
    }
  }

  lemma AddAccepted(s: Store, batch: BatchId, key: BatchKey, targets: seq<Machine>, ids: seq<RequestId>, now: Time)
    requires |targets| == |ids| && Distinct(ids) && Distinct(targets) && (forall id | id in ids :: id !in s.rows) && batch !in s.batches
    requires forall m | m in targets :: TargetFree(s, m)
    ensures AddRequests(s, batch, key, targets, ids, now)
            == Step(Store(s.rows + NewRows(batch, targets, ids, now), s.batches[batch := key]), Ok(Nothing))
  {
    assert forall i | 0 <= i < |ids| :: ids[i] !in s.rows;
    assert forall i | 0 <= i < |targets| :: TargetFree(s, targets[i]);
  }

  method QueuedRows(batch: BatchId, unclaimed: seq<Machine>, ids: seq<RequestId>, now: Time) returns (added: map<RequestId, Row>)
    requires |ids| == |unclaimed| && Distinct(ids)
    ensures added == NewRows(batch, unclaimed, ids, now)
  {
    added := map[];
    for i := 0 to |unclaimed|
      invariant forall id :: id in added <==> id in ids[..i]
      invariant forall k | 0 <= k < i :: added[ids[k]] == NewRow(batch, k, unclaimed[k], now)
    {
      added := added[ids[i] := NewRow(batch, i, unclaimed[i], now)];
    }
  }

  class RepairStore {
    var rows: map<RequestId, Row>
    var batches: map<BatchId, BatchKey>
    var targets: map<BatchId, seq<Machine>>
    var adoptions: map<BatchId, seq<RequestId>>
    var nextRowid: nat

    ghost function View(): Store
      reads this
    {
      Store(rows, batches)
    }

    constructor ()
      ensures View() == Store(map[], map[]) && StoreOk(View())
    {
      rows, batches, targets, adoptions, nextRowid := map[], map[], map[], map[], 1;
    }

    /** The unresolved request of one machine, if it has one. */
    method FindUnresolved(m: Machine) returns (r: Option<RequestId>)
      ensures r.Some? ==> r.value in rows && rows[r.value].target == m && Unresolved(rows[r.value].state)
      ensures r.None? ==> TargetFree(View(), m)
    {
      var todo := rows.Keys;
      while todo != {}
        invariant todo <= rows.Keys
        invariant forall id | id in rows && id !in todo && rows[id].target == m :: !Unresolved(rows[id].state)
        decreases todo
      {
        var id :| id in todo;
        if rows[id].target == m && Unresolved(rows[id].state) { return Some(id); }
        todo := todo - {id};
      }
      r := None;
    }

    /** Batch `b` was made for `ordered`: its own machines together with those whose requests it adopted. */
    predicate Replays(b: BatchId, existing: seq<RequestId>, ordered: seq<Machine>)
      reads this
    {
      && b in targets && b in adoptions && adoptions[b] != []
      && (forall id | id in adoptions[b] :: id in existing && id in rows)
      && (set m | m in targets[b]) + (set id | id in adoptions[b] :: rows[id].target) == (set m | m in ordered)
    }

    /** Batch `b` is a replay's answer: it was made for `ordered`, alone or with what it adopted. */
    predicate Answers(b: BatchId, existing: seq<RequestId>, ordered: seq<Machine>)
      reads this
    {
      || (b in targets && targets[b] == ordered && forall id | id in existing :: id in rows && rows[id].batch == b)
      || Replays(b, existing, ordered)
    }

    /** One unresolved request per machine of `ordered`. */
    ghost predicate StandFor(existing: seq<RequestId>, ordered: seq<Machine>)
      reads this
    {
      && |existing| == |ordered|
      && (forall id | id in existing :: id in rows && rows[id].target in ordered && Unresolved(rows[id].state))
      && forall m | m in ordered :: exists id | id in existing :: id in rows && rows[id].target == m
    }

    /** What a selection whose machines all have unresolved requests is answered with. */
    ghost predicate Replayed(r: Result<BatchId>, existing: seq<RequestId>, ordered: seq<Machine>)
      reads this
      requires StandFor(existing, ordered)
    {
      if r.Ok? then Answers(r.value, existing, ordered)
      else forall id | id in existing :: !Answers(rows[id].batch, existing, ordered)
    }

    /** Split a selection into the requests that already stand for a machine and the machines without one. */
    method Partition(ordered: seq<Machine>) returns (existing: seq<RequestId>, unclaimed: seq<Machine>)
      ensures unclaimed == FreeOf(View(), ordered)
      ensures forall id | id in existing :: id in rows && rows[id].target in ordered && Unresolved(rows[id].state)
      ensures forall m | m in ordered && m !in unclaimed :: exists id | id in existing :: id in rows && rows[id].target == m
      ensures |existing| + |unclaimed| == |ordered|
    {
      existing, unclaimed := [], [];
      for i := 0 to |ordered|
        invariant |existing| + |unclaimed| == i
        invariant unclaimed == FreeOf(View(), ordered[..i])
        invariant forall id | id in existing :: id in rows && rows[id].target in ordered && Unresolved(rows[id].state)
        invariant forall m | m in ordered[..i] && m !in unclaimed :: exists id | id in existing :: id in rows && rows[id].target == m
      {
        assert ordered[..i + 1] == ordered[..i] + [ordered[i]];
        FreeOfAppend(View(), ordered[..i], ordered[i]);
        var found := FindUnresolved(ordered[i]);
        if found.Some? {
          existing := existing + [found.value];
          assert found.value in existing;
          assert !TargetFree(View(), ordered[i]);
        } else {
          unclaimed := unclaimed + [ordered[i]];
        }
      }
      assert ordered[..|ordered|] == ordered;
    }

    /**
     Create one batch for the machines that have no unresolved request, adopting the requests of the
     others; a replay of an earlier selection returns that batch.  Which batch is returned when several
     match is left open, as it is in the source.
     */
    method CreateOrAdopt(ordered: seq<Machine>, batch: BatchId, ids: seq<RequestId>, now: Time) returns (r: Result<BatchId>)
      requires Distinct(ordered)
      requires |ids| == |ordered| && Distinct(ids) && (forall id | id in ids :: id !in rows) && batch !in batches
      modifies this
      ensures |FreeOf(old(View()), ordered)| <= |ids|
      ensures FreeOf(old(View()), ordered) == [] ==> View() == old(View()) && targets == old(targets) && adoptions == old(adoptions)
      ensures FreeOf(old(View()), ordered) != [] ==>
                var s := AddRequests(old(View()), batch, BatchKey(now, old(nextRowid)), FreeOf(old(View()), ordered),
                                     ids[..|FreeOf(old(View()), ordered)|], now);
                s.result.Ok? && r == Ok(batch) && View() == s.store
      ensures ordered == [] ==> r.Err?
      ensures ordered != [] && FreeOf(old(View()), ordered) == [] ==>
                exists existing :: StandFor(existing, ordered) && Replayed(r, existing, ordered)
      ensures r.Ok? ==> forall m | m in ordered :: exists id | id in rows :: rows[id].target == m && Unresolved(rows[id].state)
    {
      hide AddRequests, TargetFree;
      FreeOfBound(View(), ordered);
      if ordered == [] { return Err("at least one target machine is required"); }
      var existing, unclaimed := Partition(ordered);
      if unclaimed == [] {
        r := Replay(ordered, existing);
        assert StandFor(existing, ordered) && Replayed(r, existing, ordered);
        return;
      }
      var chosen := ids[..|unclaimed|];
      FreeOfDistinct(View(), ordered);
      assert forall id | id in chosen :: id in ids;
      Insert(batch, unclaimed, chosen, existing, now);
      r := Ok(batch);
      forall m | m in ordered
        ensures exists id | id in rows :: rows[id].target == m && Unresolved(rows[id].state)
      {
        if m in unclaimed {
          var i :| 0 <= i < |unclaimed| && unclaimed[i] == m;
          assert chosen[i] in rows && rows[chosen[i]].target == m;
        } else {
          var id :| id in existing && id in old(rows) && old(rows)[id].target == m;
          assert id in rows && rows[id] == old(rows)[id];
        }
      }
    }

    /** The lookup half of `CreateOrAdopt`, when every machine already has an unresolved request. */
    method Replay(ordered: seq<Machine>, existing: seq<RequestId>) returns (r: Result<BatchId>)
      requires existing != [] && forall id | id in existing :: id in rows
      ensures r.Ok? ==> Answers(r.value, existing, ordered)
      ensures r.Err? ==> forall id | id in existing :: !Answers(rows[id].batch, existing, ordered)
    {
      var first := rows[existing[0]].batch;
      if (forall id | id in existing :: rows[id].batch == first) && first in targets && targets[first] == ordered { return Ok(first); }
      for i := 0 to |existing|
        invariant forall k | 0 <= k < i :: !Replays(rows[existing[k]].batch, existing, ordered)
      {
        var b := rows[existing[i]].batch;
        if Replays(b, existing, ordered) { return Ok(b); }
      }
      r := Err("target machines already belong to active repair batches");
    }

    /** The INSERTs: one queued row per unclaimed machine, and the adoption list. */
    method Insert(batch: BatchId, unclaimed: seq<Machine>, ids: seq<RequestId>, existing: seq<RequestId>, now: Time)
      requires |ids| == |unclaimed| && Distinct(ids) && Distinct(unclaimed) && (forall id | id in ids :: id !in rows) && batch !in batches
      requires forall m | m in unclaimed :: TargetFree(View(), m)
      modifies this
      ensures AddRequests(old(View()), batch, BatchKey(now, old(nextRowid)), unclaimed, ids, now).result.Ok?
      ensures View() == AddRequests(old(View()), batch, BatchKey(now, old(nextRowid)), unclaimed, ids, now).store
      ensures targets == old(targets)[batch := unclaimed] && adoptions == old(adoptions)[batch := existing]
      ensures forall id | id in old(rows) :: id in rows && rows[id] == old(rows)[id]
      ensures forall i | 0 <= i < |ids| :: ids[i] in rows && rows[ids[i]] == NewRow(batch, i, unclaimed[i], now)
    {
      AddAccepted(View(), batch, BatchKey(now, nextRowid), unclaimed, ids, now);
      AddInserts(View(), batch, BatchKey(now, nextRowid), unclaimed, ids, now);
      hide AddRequests;
      var added := QueuedRows(batch, unclaimed, ids, now);
      rows := rows + added;
      batches := batches[batch := BatchKey(now, nextRowid)];
      targets := targets[batch := unclaimed];
      adoptions := adoptions[batch := existing];
      nextRowid := nextRowid + 1;
    }

    method IssueTicket(id: RequestId, b: Binding, expiresAt: Time, now: Time) returns (r: Result<Answer>)
      modifies this`rows
      ensures Step(View(), r) == R.IssueTicket(old(View()), id, b, expiresAt, now)
    {
      if id !in rows || rows[id].target != b.target.machine || !(rows[id].state.Queued? || rows[id].state.Checking?)
         || rows[id].ticket != NoTicket
      {
        return Err("request_not_issuable");
      }
      rows := rows[id := rows[id].(binding := Some(b), ticket := Issued, issuedAt := Some(now), expiresAt := Some(expiresAt),
                                   state := TicketIssued, updatedAt := now, error := None)];
      r := Ok(Nothing);
    }

    method SlotTaken() returns (held: bool)
      ensures held == SlotHeld(View())
    {
      held := exists id | id in rows :: rows[id].slot;
    }

    /** The first queued request in batch order, if the sole scheduling slot is free. */
    method ClaimNext(now: Time) returns (r: Option<RequestId>)
      requires forall id | id in rows :: rows[id].batch in batches
      modifies this`rows
      ensures r.None? ==> View() == old(View()) && (SlotHeld(View()) || forall id | id in rows :: !Claimable(rows[id]))
      ensures r.Some? ==> !SlotHeld(old(View())) && IsNext(old(View()), r.value)
                          && View() == R.ClaimNext(old(View()), r.value, now).store
    {
      var held := SlotTaken();
      if held { return None; }
      r := None;
      var todo := rows.Keys;
      while todo != {}
        invariant todo <= rows.Keys
        invariant r.None? ==> forall id | id in rows && id !in todo :: !Claimable(rows[id])
        invariant r.Some? ==> r.value in rows && Claimable(rows[r.value])
        invariant r.Some? ==> forall o | o in rows && o !in todo && Claimable(rows[o]) :: NotAfter(View(), rows[r.value], rows[o])
        decreases todo
      {
        var id :| id in todo;
        if Claimable(rows[id]) && (r.None? || !Before(rows[r.value], rows[id])) { r := Some(id); }
        todo := todo - {id};
      }
      if r.Some? {
        rows := rows[r.value := rows[r.value].(state := Checking, slot := true, updatedAt := now)];
      }
    }

    predicate Before(a: Row, b: Row)
      reads this
    {
      NotAfter(Store(rows, batches), a, b)
    }

    method MarkDispatched(id: RequestId, now: Time) returns (r: Result<Answer>)
      modifies this`rows
      ensures Step(View(), r) == R.MarkDispatched(old(View()), id, now)
    {
      if id !in rows { return Err("request_not_found"); }
      if rows[id].state == Dispatched { return Ok(Nothing); }
      if rows[id].state != TicketIssued || rows[id].ticket != Issued { return Err("request_not_dispatchable"); }
      rows := rows[id := rows[id].(state := Dispatched, updatedAt := now)];
      r := Ok(Nothing);
    }

    /** Consume one exact ticket and return its only claim; a late call retires the ticket instead. */
    method Redeem(id: RequestId, c: RedeemCall, now: Time) returns (r: Result<Answer>)
      modifies this`rows
      ensures Step(View(), r) == R.Redeem(old(View()), id, c, now)
    {
      if id !in rows { return Err("request_not_found"); }
      var row := rows[id];
      if row.ticket == Spent { return Err("ticket_replayed"); }
      if row.ticket == Expired { return Err("ticket_expired"); }
      if row.ticket != Issued || !(row.state.TicketIssued? || row.state.Dispatched?) { return Err("ticket_not_redeemable"); }
      if row.expiresAt != Some(c.expiresAt) { return Err("redemption_expiry_mismatch"); }
      if now >= c.expiresAt {
        rows := rows[id := row.(ticket := Expired, state := ConfirmationPending, error := Some("ticket_expired"),
                                slot := false, updatedAt := now)];
        return Err("ticket_expired");
      }
      if row.binding.None? || row.binding.value.ticket != Sha256(c.ticket) { return Err("ticket_mismatch"); }
      if row.binding.value.fleet != c.fleet { return Err("fleet_token_mismatch"); }
      if !ExactTarget(row, c) { return Err("target_binding_mismatch"); }
      if row.binding.value.controller != c.controller { return Err("controller_snapshot_changed"); }
      var from := if row.issuedAt.Some? then row.issuedAt.value else 0.0;
      if exists o | o in rows :: o != id && rows[o].target == row.target && rows[o].state == Complete && rows[o].updatedAt >= from {
        return Err("repair_already_complete");
      }
      rows := rows[id := row.(ticket := Spent, state := Redeemed, redeemedAt := Some(now), updatedAt := now, error := None)];
      r := Ok(Granted(ClaimFor(id, c)));
    }

    method Park(id: RequestId, error: Option<string>, now: Time) returns (r: Result<Answer>)
      modifies this`rows
      ensures Step(View(), r) == R.Park(old(View()), id, error, now)
    {
      if id !in rows { return Err("request_not_found"); }
      if !Live(rows[id].state) { return Err("request_not_parkable"); }
      rows := rows[id := rows[id].(state := ConfirmationPending, error := error, slot := false, updatedAt := now)];
      r := Ok(Nothing);
    }

    method AdoptStatus(id: RequestId, t: Terminal, identity: Option<Identity>, error: Option<string>, source: string, now: Time)
      returns (r: Result<Answer>)
      modifies this`rows
      ensures Step(View(), r) == R.AdoptStatus(old(View()), id, t, identity, error, source, now)
    {
      if id !in rows { return Err("request_not_found"); }
      var row := rows[id];
      if row.binding.None? || row.binding.value.target.address != source { return Err("source_host_mismatch"); }
      if row.state.Complete? || row.state.Retryable? || row.state.NeedsReview? {
        if row.agentTerminal == Some(t) { return Ok(Row_(id)); }
        return Err("terminal_status_conflict");
      }
      if !Live(row.state) { return Err("status_not_adoptable"); }
      if t == AgentComplete && (identity != ExpectedIdentity(row) || row.ticket != Spent) { return Err("status_identity_mismatch"); }
      rows := rows[id := row.(state := TerminalState(t), ticket := Retire(row.ticket),
                              error := if t == AgentComplete then None else error,
                              agentTerminal := Some(t), slot := false, updatedAt := now)];
      r := Ok(Row_(id));
    }

    method FailBeforeClaim(id: RequestId, st: RequestState, error: Option<string>, now: Time) returns (r: Result<Answer>)
      modifies this`rows
      ensures Step(View(), r) == R.FailBeforeClaim(old(View()), id, st, error, now)
    {
      if !(st.Retryable? || st.NeedsReview? || st.HubUpdateRequired?) { return Err("invalid preclaim state"); }
      if id !in rows { return Err("request_not_found"); }
      if !HoldsNoAuthority(rows[id]) || !Preclaim(rows[id].state) { return Err("request_has_claim_authority"); }
      if Unresolved(st) && exists o | o in rows :: o != id && rows[o].target == rows[id].target && Unresolved(rows[o].state) {
        return Err("integrity_error");
      }
      rows := rows[id := rows[id].(state := st, error := error, slot := false, updatedAt := now)];
      r := Ok(Nothing);
    }

    method ResolvePreclaim(id: RequestId, now: Time) returns (r: Result<Answer>)
      modifies this`rows
      ensures Step(View(), r) == R.ResolvePreclaim(old(View()), id, now)
    {
      if id !in rows { return Err("request_not_found"); }
      if rows[id].state != NeedsReview || !HoldsNoAuthority(rows[id]) || rows[id].binding.Some? { return Err("review_not_preclaim"); }
      rows := rows[id := rows[id].(state := Retryable, error := None, agentTerminal := None, updatedAt := now)];
      r := Ok(Nothing);
    }

    method ResolveExpired(id: RequestId, moment: Time) returns (r: Result<Answer>)
      modifies this`rows
      ensures Step(View(), r) == R.ResolveExpired(old(View()), id, moment)
    {
      if id !in rows { return Err("request_not_found"); }
      var row := rows[id];
      if row.state != NeedsReview || row.redeemedAt.Some? || row.issuedAt.None? || row.expiresAt.None? || row.expiresAt.value > moment {
        return Err("review_not_expired");
      }
      rows := rows[id := row.(state := Retryable, error := None, ticket := Expired, updatedAt := moment)];
      r := Ok(Nothing);
    }

    /** Clear a slot a crash left behind, one holder at a time; a holder in no recoverable state rolls all back. */
    method RecoverSlot(now: Time) returns (r: Result<Answer>)
      modifies this`rows
      ensures Step(View(), r) == R.RecoverSlot(old(View()), now)
    {
      var before := rows;
      var holders := set id | id in rows && rows[id].slot;
      var todo := holders;
      var recovered := 0;
      while todo != {}
        invariant todo <= holders
        invariant rows.Keys == before.Keys
        invariant forall id | id in holders && id !in todo :: RecoverRow(before[id], now).Ok? && rows[id] == RecoverRow(before[id], now).value
        invariant forall id | id in before && (id !in holders || id in todo) :: rows[id] == before[id]
        invariant recovered + |todo| == |holders|
        decreases todo
      {
        var id :| id in todo;
        var next := RecoverRow(rows[id], now);
        if next.Err? {
          rows := before;
          return Err("dispatch_slot_state_invalid");
        }
        rows := rows[id := next.value];
        recovered := recovered + 1;
        todo := todo - {id};
      }
      assert holders == Holders(old(View()));
      r := Ok(Recovered(recovered));
    }

    method ReleaseFence(id: RequestId, t: Terminal, identity: Option<Identity>, now: Time) returns (r: Result<Answer>)
      modifies this`rows
      ensures Step(View(), r) == R.ReleaseFence(old(View()), id, t, identity, now)
    {
      if id !in rows { return Err("request_not_found"); }
      var row := rows[id];
      if !(row.state.Redeemed? || row.state.Verifying? || row.state.ConfirmationPending?) || row.ticket != Spent {
        return Err("request_has_no_live_claim");
      }
      if t == AgentComplete && identity != ExpectedIdentity(row) { return Err("cleanup_classification_unverified"); }
      rows := rows[id := row.(state := TerminalState(t), slot := false, updatedAt := now,
                              error := match t case AgentComplete => None
                                               case AgentNeverApplied => Some("never_applied")
                                               case AgentNeedsReview => Some("needs_review"))];
      r := Ok(Row_(id));
    }
  }
}

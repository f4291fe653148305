/**
 The ticket text over whole runs: of the request table alone, where any call may arrive with any
 text, and of the two-party protocol, where the calls are those the Agents make.
 */
module RepairTickets {
  import opened Outcomes
  import opened RepairRows
  import opened RepairAgent
  import Calls = RepairCalls
  import opened RepairProtocol

  // ---------------------------------------------------------------- the request table

  /** Where a bound ticket came from: its row was bound before, or this very call issued it. */
  lemma BindingComesFrom(s: Store, op: Op, now: Time, id: RequestId)
    requires StoreOk(s) && id in Apply(s, op, now).store.rows && Apply(s, op, now).store.rows[id].binding.Some?
    ensures var r' := Apply(s, op, now).store.rows[id];
            || (id in s.rows && s.rows[id].binding == r'.binding && s.rows[id].expiresAt == r'.expiresAt)
            || (op.OpIssue? && op.id == id && r'.binding == Some(op.binding) && r'.expiresAt == Some(op.expiresAt))
  {
    if id !in s.rows {
      OldRowsOnly(s, op, now, id);
      assert false;
    }
    var r' := Apply(s, op, now).store.rows[id];
    hide StoreOk, Apply;
    if r' != s.rows[id] {
      Calls.ChangeWrites(s, op, now, id);
      if op.OpIssue? && op.id != id { NamesOnly(s, op, now, id); }
    }
  }

  lemma NamesOnly(s: Store, op: Op, now: Time, id: RequestId)
    requires op.OpIssue? && op.id != id && id in s.rows
    ensures id in Apply(s, op, now).store.rows && Apply(s, op, now).store.rows[id] == s.rows[id]
  {
  }

  lemma OldRowsOnly(s: Store, op: Op, now: Time, id: RequestId)
    requires id !in s.rows && id in Apply(s, op, now).store.rows
    ensures Apply(s, op, now).store.rows[id].binding.None?
  {
    if op.OpAdd? {
      AddInserts(s, op.batch, op.key, op.targets, op.ids, now);
      var i :| 0 <= i < |op.ids| && op.ids[i] == id;
    }
  }

  ghost predicate Issues(op: Op, id: RequestId, b: Binding, expiresAt: Time) {
    op.OpIssue? && op.id == id && op.binding == b && op.expiresAt == expiresAt
  }

  /** Every bound ticket was issued, with this binding and deadline, by one of the calls so far. */
  ghost predicate Backed(s: Store, past: seq<(Op, Time)>) {
    forall id | id in s.rows && s.rows[id].binding.Some? && s.rows[id].expiresAt.Some? ::
      exists i :: 0 <= i < |past| && Issues(past[i].0, id, s.rows[id].binding.value, s.rows[id].expiresAt.value)
  }

  lemma ApplyKeepsBacked(s: Store, past: seq<(Op, Time)>, op: Op, now: Time)
    requires StoreOk(s) && Backed(s, past)
    ensures Backed(Apply(s, op, now).store, past + [(op, now)])
  {
    var s', after := Apply(s, op, now).store, past + [(op, now)];
    forall id | id in s'.rows && s'.rows[id].binding.Some? && s'.rows[id].expiresAt.Some?
      ensures exists i :: 0 <= i < |after| && Issues(after[i].0, id, s'.rows[id].binding.value, s'.rows[id].expiresAt.value)
    {
      BindingComesFrom(s, op, now, id);
      if id in s.rows && s.rows[id].binding == s'.rows[id].binding && s.rows[id].expiresAt == s'.rows[id].expiresAt {
        var i :| 0 <= i < |past| && Issues(past[i].0, id, s.rows[id].binding.value, s.rows[id].expiresAt.value);
        assert after[i] == past[i];
      } else {
        assert after[|past|] == (op, now);
        assert Issues(after[|past|].0, id, s'.rows[id].binding.value, s'.rows[id].expiresAt.value);
      }
    }
  }

  lemma {:induction false} RunKeepsBacked(s: Store, past: seq<(Op, Time)>, ops: seq<(Op, Time)>)
    requires StoreOk(s) && Backed(s, past)
    ensures Backed(RepairRows.Run(s, ops), past + ops)
    decreases ops
  {
    hide StoreOk, Backed, Apply;
    if ops == [] {
      assert past + ops == past;
    } else {
      ApplyKeepsBacked(s, past, ops[0].0, ops[0].1);
      OpKeepsStore(s, ops[0].0, ops[0].1);
      RunKeepsBacked(Apply(s, ops[0].0, ops[0].1).store, past + [ops[0]], ops[1..]);
      assert past + [ops[0]] + ops[1..] == past + ops;
    }
  }

  /**
   Whatever calls reach the table, with whatever text: a claim is only ever granted to a call that carries
   the ticket, the deadline, the fleet token and the Controller of an earlier issue for the same request.
   */
  lemma GrantedTicketWasIssued(ops: seq<(Op, Time)>, id: RequestId, c: RedeemCall, now: Time)
    requires Redeem(RepairRows.Run(Store(map[], map[]), ops), id, c, now).result.Ok?
    ensures now < c.expiresAt
    ensures exists i :: 0 <= i < |ops| && ops[i].0.OpIssue? && ops[i].0.id == id && ops[i].0.expiresAt == c.expiresAt
                        && ops[i].0.binding.ticket == Sha256(c.ticket) && ops[i].0.binding.fleet == c.fleet
                        && ops[i].0.binding.controller == c.controller && ops[i].0.binding.target == c.snapshot
  {
    hide RepairRows.Run, Redeem, StoreOk, Backed, Apply;
    var s0 := Store(map[], map[]);
    EmptyIsBacked();
    RunKeepsBacked(s0, [], ops);
    assert [] + ops == ops;
    var s := RepairRows.Run(s0, ops);
    RunKeepsStore(s0, ops);
    BackedGrant(s, ops, id, c, now);
  }

  lemma EmptyIsBacked()
    ensures StoreOk(Store(map[], map[])) && Backed(Store(map[], map[]), [])
  {
  }

  lemma BackedGrant(s: Store, ops: seq<(Op, Time)>, id: RequestId, c: RedeemCall, now: Time)
    requires StoreOk(s) && Backed(s, ops) && Redeem(s, id, c, now).result.Ok?
    ensures now < c.expiresAt
    ensures exists i :: 0 <= i < |ops| && ops[i].0.OpIssue? && ops[i].0.id == id && ops[i].0.expiresAt == c.expiresAt
                        && ops[i].0.binding.ticket == Sha256(c.ticket) && ops[i].0.binding.fleet == c.fleet
                        && ops[i].0.binding.controller == c.controller && ops[i].0.binding.target == c.snapshot
  {
    Calls.GrantedIff(s, id, c, now);
    assert RowOk(s.rows[id]);
    hide Redeem;
    var i :| 0 <= i < |ops| && Issues(ops[i].0, id, s.rows[id].binding.value, s.rows[id].expiresAt.value);
  }

  // ---------------------------------------------------------------- the protocol

  /** The dispatch carries the text whose digest its row was bound to. */
  predicate CarriesTicket(s: Sys, d: Payload) {
    && d.Dispatch? && d.request in s.store.rows && s.store.rows[d.request].binding.Some?
    && s.store.rows[d.request].binding.value.ticket == Sha256(d.ticket)
  }

  ghost predicate TicketsOk(s: Sys) {
    && (forall d | d in s.dispatches :: CarriesTicket(s, d))
    && (forall k | k in s.claims :: k in s.calls && CarriesTicket(s, s.calls[k]))
  }

  lemma CarriesStays(s: Sys, s': Sys, d: Payload)
    requires Inv(s) && CarriesTicket(s, d) && Evolves(s.store, s'.store)
    ensures CarriesTicket(s', d)
  {
    assert RowOk(s.store.rows[d.request]);
    assert RowEvolves(s.store.rows[d.request], s'.store.rows[d.request]);
  }

  /** A dispatch is new only when it was just issued, and it carries the ticket it was issued with. */
  lemma NewDispatchCarries(s: Sys, e: Event, d: Payload)
    requires Inv(s) && d in Next(s, e).dispatches && d !in s.dispatches
    ensures e.Issue? && CarriesTicket(Next(s, e), d)
  {
    if !e.Issue? {
      DispatchesFixed(s, e);
      assert false;
    }
  }

  /** An Agent sends no dispatch and grants no claim, and the one call it may open is a new one. */
  ghost predicate KeepsMessages(s: Sys, s': Sys, m: Machine)
    requires m in s.agents
  {
    && s'.dispatches == s.dispatches && s'.claims == s.claims
    && forall k | k in s.calls && k != (m, s.agents[m].calls) :: k in s'.calls && s'.calls[k] == s.calls[k]
  }

  lemma AgentMessages(s: Sys, e: Event)
    requires OnAgent(e) && e.m in s.agents
    ensures KeepsMessages(s, AgentStep(s, e), e.m)
  {
    hide AgentStep, KeepsMessages;
    if e.Receive? || e.Send? || e.Take? || e.Lose? { CallMessages(s, e); }
    else if e.WriterLocked? || e.Begin? || e.Stage? || e.Replace? { WriteMessages(s, e); }
    else if e.Finish? || e.Fault? || e.Recover? || e.Status? { EndMessages(s, e); }
    else { OtherMessages(s, e); }
  }

  lemma CallMessages(s: Sys, e: Event)
    requires OnAgent(e) && e.m in s.agents && (e.Receive? || e.Send? || e.Take? || e.Lose?)
    ensures KeepsMessages(s, AgentStep(s, e), e.m)
  {
    hide Admit, Classify, Expire, AfterFailure, WriterBusy, BeginApply, StageJournal, FinishJournal, ResultOf, Review, ReviewReport;
  }

  lemma WriteMessages(s: Sys, e: Event)
    requires OnAgent(e) && e.m in s.agents && (e.WriterLocked? || e.Begin? || e.Stage? || e.Replace?)
    ensures KeepsMessages(s, AgentStep(s, e), e.m)
  {
    hide Admit, Classify, Expire, AfterFailure, WriterBusy, BeginApply, StageJournal, FinishJournal, ResultOf, Review, ReviewReport;
  }

  lemma EndMessages(s: Sys, e: Event)
    requires OnAgent(e) && e.m in s.agents && (e.Finish? || e.Fault? || e.Recover? || e.Status?)
    ensures KeepsMessages(s, AgentStep(s, e), e.m)
  {
    hide Admit, Classify, Expire, AfterFailure, WriterBusy, BeginApply, StageJournal, FinishJournal, ResultOf, Review, ReviewReport;
  }

  lemma OtherMessages(s: Sys, e: Event)
    requires OnAgent(e) && e.m in s.agents && (e.AgentTick? || e.Crash? || e.Foreign?)
    ensures KeepsMessages(s, AgentStep(s, e), e.m)
  {
  }

  lemma DispatchesFixed(s: Sys, e: Event)
    requires !e.Issue?
    ensures Next(s, e).dispatches == s.dispatches
  {
    hide AgentStep, Redeem, Apply, AdoptStatus, ReleaseFence;
    if OnAgent(e) && e.m in s.agents { AgentMessages(s, e); }
  }

  /** The open call `d`, come from `source`, is one the Controller grants. */
  ghost predicate Entitled(s: Sys, d: Payload, source: string, e: Event)
    requires e.AnswerCall?
  {
    && CarriesTicket(s, d)
    && var r := s.store.rows[d.request];
    && r.ticket == Issued && (r.state == TicketIssued || r.state == Dispatched)
    && s.clock < d.expiresAt && r.expiresAt == Some(d.expiresAt)
    && r.binding.value.fleet == e.fleet && r.binding.value.controller == e.controller
    && r.binding.value.target == e.snapshot && e.snapshot.machine == r.target == d.target
    && r.binding.value.target.address == source
    && Calls.NoneCompletedSince(s.store, d.request, r.target, if r.issuedAt.Some? then r.issuedAt.value else 0.0)
  }

  /**
   A claim comes into being exactly by the Controller answering an open call, from the bound address, that
   carries the ticket its row was issued with, in time, and with nothing else about the request changed.
   */
  lemma ClaimAppearsIff(s: Sys, e: Event, k: (Machine, nat))
    requires Inv(s) && k !in s.claims
    ensures k in Next(s, e).claims <==>
            e.AnswerCall? && k == (e.m, e.call) && k in s.calls && s.calls[k].Dispatch? && e.m in s.addresses && Entitled(s, s.calls[k], s.addresses[e.m], e)
  {
    hide Inv, Entitled, AnswerStep;
    if e.AnswerCall? && (e.m, e.call) in s.calls && s.calls[(e.m, e.call)].Dispatch? && e.m in s.addresses {
      AnswerGrantsIff(s, e, k);
    } else {
      ClaimsFixed(s, e);
    }
  }

  lemma ClaimsFixed(s: Sys, e: Event)
    requires e.AnswerCall? ==> (e.m, e.call) !in s.calls || !s.calls[(e.m, e.call)].Dispatch? || e.m !in s.addresses
    ensures Next(s, e).claims == s.claims
  {
    hide AgentStep, Redeem, Apply, AdoptStatus, ReleaseFence, IssueTicket;
    if OnAgent(e) && e.m in s.agents { AgentMessages(s, e); }
  }

  lemma AnswerGrantsIff(s: Sys, e: Event, k: (Machine, nat))
    requires Inv(s) && e.AnswerCall? && (e.m, e.call) in s.calls && s.calls[(e.m, e.call)].Dispatch? && e.m in s.addresses
    requires k !in s.claims
    ensures k in Next(s, e).claims <==> k == (e.m, e.call) && Entitled(s, s.calls[k], s.addresses[e.m], e)
  {
    var d := s.calls[(e.m, e.call)];
    EntitledIff(s, d, e);
    RedeemEffect(s.store, d.request, CallOf(s, e.m, d, e), s.clock);
    hide Inv, StoreOk, Redeem, Entitled;
  }

  lemma EntitledIff(s: Sys, d: Payload, e: Event)
    requires Inv(s) && e.AnswerCall? && d.Dispatch? && e.m in s.addresses
    ensures Redeem(s.store, d.request, CallOf(s, e.m, d, e), s.clock).result.Ok? <==> Entitled(s, d, s.addresses[e.m], e)
  {
    Calls.GrantedIff(s.store, d.request, CallOf(s, e.m, d, e), s.clock);
    if d.request in s.store.rows { assert RowOk(s.store.rows[d.request]); }
    hide Inv, StoreOk, Redeem;
  }

  lemma NextKeepsTickets(s: Sys, e: Event)
    requires Inv(s) && TicketsOk(s)
    ensures TicketsOk(Next(s, e))
  {
    var s' := Next(s, e);
    NextEvolves(s, e);
    hide Inv, Next, Evolves, CarriesTicket;
    forall d | d in s'.dispatches ensures CarriesTicket(s', d) {
      if d in s.dispatches { CarriesStays(s, s', d); } else { NewDispatchCarries(s, e, d); }
    }
    forall k | k in s'.claims ensures k in s'.calls && CarriesTicket(s', s'.calls[k]) {
      NewClaimCarries(s, e, k);
      CallIsKept(s, e, k);
      CarriesStays(s, s', s.calls[k]);
    }
  }

  lemma NewClaimCarries(s: Sys, e: Event, k: (Machine, nat))
    requires Inv(s) && TicketsOk(s) && k in Next(s, e).claims
    ensures k in s.calls && CarriesTicket(s, s.calls[k])
  {
    hide Inv, Next;
    if k !in s.claims { ClaimAppearsIff(s, e, k); }
  }

  lemma ControllerCalls(s: Sys, e: Event)
    requires !OnAgent(e)
    ensures Next(s, e).calls == s.calls
  {
    hide Redeem, Apply, AdoptStatus, ReleaseFence, IssueTicket;
  }

  /** An open call is never altered. */
  lemma CallIsKept(s: Sys, e: Event, k: (Machine, nat))
    requires Inv(s) && k in s.calls
    ensures k in Next(s, e).calls && Next(s, e).calls[k] == s.calls[k]
  {
    hide Next;
    CallsAreNumbered(s, k);
    NumberedCallIsKept(s, e, k);
  }

  lemma NumberedCallIsKept(s: Sys, e: Event, k: (Machine, nat))
    requires k in s.calls && k.0 in s.agents && k.1 < s.agents[k.0].calls
    ensures k in Next(s, e).calls && Next(s, e).calls[k] == s.calls[k]
  {
    hide AgentStep, AnswerStep, IssueStep, AdoptStep, Apply;
    if !OnAgent(e) { ControllerCalls(s, e); }
    else if e.m in s.agents { AgentMessages(s, e); }
  }

  lemma CallsAreNumbered(s: Sys, k: (Machine, nat))
    requires Inv(s) && k in s.calls
    ensures k.0 in s.agents && k.1 < s.agents[k.0].calls
  {
  }

  /** Over every run: whoever holds a claim asked for it with the very ticket its request was issued with. */
  lemma {:induction false} ClaimsCarryTheirTicket(s: Sys, es: seq<Event>)
    requires Inv(s) && TicketsOk(s)
    ensures TicketsOk(RepairProtocol.Run(s, es))
    decreases es
  {
    hide Inv, TicketsOk, Next;
    if es != [] {
      NextKeepsTickets(s, es[0]);
      NextKeepsInv(s, es[0]);
      ClaimsCarryTheirTicket(Next(s, es[0]), es[1..]);
    }
  }

  lemma InitCarries(s: Sys)
    requires Init(s)
    ensures TicketsOk(s)
  {
  }
}

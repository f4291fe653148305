/**
 One repair from its ticket to its completion: with nothing in the way, the ten events of the protocol
 taken in order leave the request complete and the target's settings file as its Controller asked.
 */
module RepairRoundTrip {
  import opened Outcomes
  import opened RepairRows
  import opened RepairAgent
  import Calls = RepairCalls
  import opened RepairProtocol

  /** One repair to be made: what is issued, for how long, and what the Agent will find around it. */
  datatype Plan = Plan(id: RequestId, binding: Binding, ticket: string, lifetime: nat, env: Env)

  function TargetOf(p: Plan): Machine { p.binding.target.machine }

  function Deadline(s: Sys, p: Plan): Time { s.clock + p.lifetime as real }

  /** The dispatch the Controller sends for the plan. */
  function Sent(s: Sys, p: Plan): Payload {
    Dispatch(p.id, TargetOf(p), p.ticket, Deadline(s, p), p.binding.target.controllerUrl,
             p.binding.controller.siteId, p.binding.controller.siteName, p.binding.controller.controllerId)
  }

  /** The request waits for its ticket, its target is reachable and unlocked, and both clocks are short of the deadline. */
  ghost predicate Open(s: Sys, p: Plan) {
    && p.id in s.store.rows && s.store.rows[p.id].target == TargetOf(p) && s.store.rows[p.id].ticket == NoTicket
    && (s.store.rows[p.id].state == Queued || s.store.rows[p.id].state == Checking)
    && p.binding.ticket == Sha256(p.ticket) && p.lifetime > 0
    && TargetOf(p) in s.agents && TargetOf(p) in s.addresses && s.addresses[TargetOf(p)] == p.binding.target.address
    && Calls.NoneCompletedSince(s.store, p.id, TargetOf(p), s.clock)
    && var a := s.agents[TargetOf(p)];
    && a.process.Idle? && a.file.Json? && AllPass(a.file, Sent(s, p), p.env, a.clock)
    && (a.journal.Some? ==> IsOver(a.journal.value, a.clock))
  }

  /** The events of the repair, in order. */
  ghost function Steps(s: Sys, p: Plan): seq<Event>
    requires TargetOf(p) in s.agents
  {
    var m, d := TargetOf(p), Sent(s, p);
    [Issue(p.id, p.binding, p.ticket, p.lifetime, true)]
    + ([Receive(m, d, p.env)]
    + ([Send(m)]
    + ([AnswerCall(m, s.agents[m].calls, p.binding.target, p.binding.controller, p.binding.fleet)]
    + ([Take(m)] + ([Begin(m)] + ([Stage(m)] + ([Replace(m)] + ([Finish(m)]
    + [Adopt(m, Report(p.id, JournalComplete, None, Some(ExpectedClaim(d).identity)))]))))))))
  }

  lemma RunOne(s: Sys, e: Event, es: seq<Event>)
    ensures RepairProtocol.Run(s, [e] + es) == RepairProtocol.Run(Next(s, e), es)
  {
    assert ([e] + es)[1..] == es;
  }

  lemma RunLast(s: Sys, e: Event)
    ensures RepairProtocol.Run(s, [e]) == Next(s, e)
  {
    assert [e][1..] == [];
  }

  /** The call the Agent will open. */
  function Key(s: Sys, p: Plan): (Machine, nat)
    requires TargetOf(p) in s.agents
  {
    (TargetOf(p), s.agents[TargetOf(p)].calls)
  }

  /** Where the repair begun in `s` stands in `s'`: what its Agent is doing, and whether the claim and the new file are there. */
  ghost predicate Stands(s: Sys, s': Sys, p: Plan, j: Option<Journal>, doing: Process, granted: bool, replaced: bool)
    requires TargetOf(p) in s.agents
  {
    && var m := TargetOf(p);
    && s'.clock == s.clock && s'.addresses == s.addresses && Sent(s, p) in s'.dispatches
    && m in s'.agents && s'.agents[m].clock == s.agents[m].clock
    && s'.agents[m].journal == j && s'.agents[m].process == doing
    && (replaced ==> j.Some? && j.value.staged == Some(s'.agents[m].file))
    && (!replaced ==> s'.agents[m].file == s.agents[m].file)
    && s'.applied == (if replaced then s.applied + [p.id] else s.applied)
    && s'.claims == (if granted then s.claims[Key(s, p) := ExpectedClaim(Sent(s, p))] else s.claims)
    && RowStands(s, s'.store, p, granted)
  }

  /** The row is bound to the plan, and its ticket is spent once the claim was granted. */
  ghost predicate RowStands(s: Sys, store: Store, p: Plan, granted: bool) {
    && p.id in store.rows
    && var r := store.rows[p.id];
    && r.target == TargetOf(p) && r.binding == Some(p.binding) && r.issuedAt == Some(s.clock) && r.expiresAt == Some(Deadline(s, p))
    && (granted ==> r.ticket == Spent && r.state == Redeemed)
    && (!granted ==> r.ticket == Issued && r.state == TicketIssued && Calls.NoneCompletedSince(store, p.id, TargetOf(p), s.clock))
  }

  lemma IssueGoesOut(s: Sys, p: Plan)
    requires Open(s, p)
    ensures var s' := Next(s, Issue(p.id, p.binding, p.ticket, p.lifetime, true));
            Stands(s, s', p, s.agents[TargetOf(p)].journal, Idle, false, false) && s'.agents == s.agents && s'.calls == s.calls
  {
    hide AllPass, IsOver;
  }

  /** The journal of the attempt. */
  ghost predicate Attempted(j: Journal, f: SettingsFile, d: Payload, env: Env) {
    && d.Dispatch? && env.origin.Resolved? && j.origin == env.origin.origin
    && j.request == d.request && j.digest == d && j.preimage == f && j.staged.None? && j.state.RedemptionAttempted?
  }

  /** The journal is not about this request yet: it has no ticket. */
  lemma JournalIsOther(s: Sys, p: Plan)
    requires Inv(s) && Open(s, p)
    ensures s.agents[TargetOf(p)].journal.Some? ==> WellShaped(s.agents[TargetOf(p)].journal.value) && s.agents[TargetOf(p)].journal.value.request != p.id
  {
    InvAt(s, TargetOf(p));
    assert RowOk(s.store.rows[p.id]);
    hide Inv, AllPass, IsOver;
  }

  lemma Admitted(s: Sys, p: Plan) returns (j: Journal)
    requires Inv(s) && Open(s, p)
    ensures var a := s.agents[TargetOf(p)];
            && Admit(a.journal, a.file, Sent(s, p), p.env, a.clock) == Attempt(j)
            && Attempted(j, a.file, Sent(s, p), p.env)
  {
    var a := s.agents[TargetOf(p)];
    JournalIsOther(s, p);
    AttemptIff(a.journal, a.file, Sent(s, p), p.env, a.clock);
    AttemptIs(a.journal, a.file, Sent(s, p), p.env, a.clock);
    j := Admit(a.journal, a.file, Sent(s, p), p.env, a.clock).journal;
    hide Inv, Admit, AllPass, IsOver, WellShaped;
  }

  lemma ReceiveAttempts(s: Sys, p: Plan, s1: Sys, j: Journal)
    requires Open(s, p) && s1.agents == s.agents && s1.calls == s.calls
    requires Stands(s, s1, p, s.agents[TargetOf(p)].journal, Idle, false, false)
    requires var a := s.agents[TargetOf(p)]; Admit(a.journal, a.file, Sent(s, p), p.env, a.clock) == Attempt(j)
    ensures var s' := Next(s1, Receive(TargetOf(p), Sent(s, p), p.env));
            Stands(s, s', p, Some(j), Ready(Sent(s, p)), false, false) && s'.calls == s.calls && s'.agents[TargetOf(p)].calls == s.agents[TargetOf(p)].calls
  {
    hide Admit, AllPass, IsOver, RowStands;
  }

  lemma SendOpens(s: Sys, p: Plan, s2: Sys, j: Journal)
    requires TargetOf(p) in s.agents && Stands(s, s2, p, Some(j), Ready(Sent(s, p)), false, false)
    requires s2.agents[TargetOf(p)].calls == s.agents[TargetOf(p)].calls
    ensures var s' := Next(s2, Send(TargetOf(p)));
            && Stands(s, s', p, Some(j), Waiting(Key(s, p).1, Sent(s, p)), false, false)
            && Key(s, p) in s'.calls && s'.calls[Key(s, p)] == Sent(s, p)
  {
    hide RowStands;
  }

  lemma AnswerGrants(s: Sys, p: Plan, s3: Sys, j: Journal)
    requires Open(s, p) && Key(s, p) !in s.claims
    requires Stands(s, s3, p, Some(j), Waiting(Key(s, p).1, Sent(s, p)), false, false)
    requires Key(s, p) in s3.calls && s3.calls[Key(s, p)] == Sent(s, p)
    ensures var s' := Next(s3, AnswerCall(TargetOf(p), Key(s, p).1, p.binding.target, p.binding.controller, p.binding.fleet));
            Stands(s, s', p, Some(j), Waiting(Key(s, p).1, Sent(s, p)), true, false)
  {
    var e := AnswerCall(TargetOf(p), Key(s, p).1, p.binding.target, p.binding.controller, p.binding.fleet);
    var c := CallOf(s3, TargetOf(p), Sent(s, p), e);
    Calls.GrantedIff(s3.store, p.id, c, s3.clock);
    Calls.GrantIs(s3.store, p.id, c, s3.clock);
    hide Redeem, AllPass, IsOver;
  }

  lemma TakeHolds(s: Sys, p: Plan, s4: Sys, j: Journal)
    requires TargetOf(p) in s.agents && Stands(s, s4, p, Some(j), Waiting(Key(s, p).1, Sent(s, p)), true, false)
    ensures Stands(s, Next(s4, Take(TargetOf(p))), p, Some(j), Holding(Sent(s, p)), true, false)
  {
    hide RowStands;
  }

  lemma BeginMarks(s: Sys, p: Plan, s5: Sys, j: Journal)
    requires TargetOf(p) in s.agents && Stands(s, s5, p, Some(j), Holding(Sent(s, p)), true, false)
    requires s.agents[TargetOf(p)].file.Json? && j.preimage == s.agents[TargetOf(p)].file
    ensures Stands(s, Next(s5, Begin(TargetOf(p))), p, Some(BeginApply(j, ExpectedClaim(Sent(s, p)))), Marked(Sent(s, p)), true, false)
  {
    hide RowStands;
  }

  lemma StageStages(s: Sys, p: Plan, s6: Sys, j: Journal)
    requires TargetOf(p) in s.agents && Stands(s, s6, p, Some(j), Marked(Sent(s, p)), true, false)
    ensures Stands(s, Next(s6, Stage(TargetOf(p))), p, Some(StageJournal(j)), Staged(Sent(s, p)), true, false)
  {
    hide RowStands, StageJournal;
  }

  lemma ReplaceReplaces(s: Sys, p: Plan, s7: Sys, j: Journal)
    requires TargetOf(p) in s.agents && Stands(s, s7, p, Some(j), Staged(Sent(s, p)), true, false)
    requires j.request == p.id && j.staged.Some? && j.preimage == s.agents[TargetOf(p)].file
    ensures Stands(s, Next(s7, Replace(TargetOf(p))), p, Some(j), Replaced(Sent(s, p)), true, true)
  {
    hide RowStands;
  }

  /** The report of a completed repair. */
  function Completed(s: Sys, p: Plan): Report {
    Report(p.id, JournalComplete, None, Some(ExpectedClaim(Sent(s, p)).identity))
  }

  lemma FinishReports(s: Sys, p: Plan, s8: Sys, j: Journal)
    requires TargetOf(p) in s.agents && Stands(s, s8, p, Some(j), Replaced(Sent(s, p)), true, true)
    requires j.request == p.id && j.claim == Some(ExpectedClaim(Sent(s, p)))
    ensures var s' := Next(s8, Finish(TargetOf(p)));
            && (TargetOf(p), Completed(s, p)) in s'.answers && s'.addresses == s.addresses && s'.applied == s.applied + [p.id]
            && TargetOf(p) in s'.agents && s'.agents[TargetOf(p)].file == s8.agents[TargetOf(p)].file && RowStands(s, s'.store, p, true)
  {
    hide RowStands;
  }

  lemma AdoptCompletes(s: Sys, p: Plan, s9: Sys)
    requires (TargetOf(p), Completed(s, p)) in s9.answers && RowStands(s, s9.store, p, true)
    requires TargetOf(p) in s9.addresses && s9.addresses[TargetOf(p)] == p.binding.target.address
    ensures var s' := Next(s9, Adopt(TargetOf(p), Completed(s, p)));
            && s'.agents == s9.agents && s'.applied == s9.applied && p.id in s'.store.rows && s'.store.rows[p.id].state == Complete
  {
  }

  lemma KeyIsFresh(s: Sys, p: Plan)
    requires Inv(s) && Open(s, p)
    ensures Key(s, p) !in s.claims
  {
    assert forall k | k in s.claims :: k in s.calls && k.1 < s.agents[k.0].calls;
  }

  /** The rest of the Agent's events, from the claim it holds to the report it answers with. */
  lemma ApplyRuns(s: Sys, p: Plan, s5: Sys, j: Journal)
    requires Open(s, p) && Stands(s, s5, p, Some(j), Holding(Sent(s, p)), true, false)
    requires Attempted(j, s.agents[TargetOf(p)].file, Sent(s, p), p.env)
    ensures var m := TargetOf(p);
            var s9 := Next(Next(Next(Next(s5, Begin(m)), Stage(m)), Replace(m)), Finish(m));
            && (m, Completed(s, p)) in s9.answers && s9.addresses == s.addresses && s9.applied == s.applied + [p.id]
            && m in s9.agents && s9.agents[m].file == StagedFile(s.agents[m].file, ExpectedClaim(Sent(s, p)), j.origin)
            && RowStands(s, s9.store, p, true)
  {
    hide Next, RowStands, AllPass, IsOver;
    var m, claim := TargetOf(p), ExpectedClaim(Sent(s, p));
    var s6 := Next(s5, Begin(m));
    BeginMarks(s, p, s5, j);
    var j6 := BeginApply(j, claim);
    StageStages(s, p, s6, j6);
    var s7 := Next(s6, Stage(m));
    var j7 := StageJournal(j6);
    ReplaceReplaces(s, p, s7, j7);
    FinishReports(s, p, Next(s7, Replace(m)), j7);
  }

  lemma StepsRun(s: Sys, p: Plan)
    requires TargetOf(p) in s.agents
    ensures var m, d := TargetOf(p), Sent(s, p);
            var s5 := Next(Next(Next(Next(Next(s, Issue(p.id, p.binding, p.ticket, p.lifetime, true)), Receive(m, d, p.env)), Send(m)),
                                AnswerCall(m, s.agents[m].calls, p.binding.target, p.binding.controller, p.binding.fleet)), Take(m));
            var s9 := Next(Next(Next(Next(s5, Begin(m)), Stage(m)), Replace(m)), Finish(m));
            RepairProtocol.Run(s, Steps(s, p)) == Next(s9, Adopt(m, Completed(s, p)))
  {
    hide Next, RepairProtocol.Run;
    var m, d := TargetOf(p), Sent(s, p);
    var e9 := [Adopt(m, Completed(s, p))];
    var e8 := [Finish(m)] + e9;
    var e7 := [Replace(m)] + e8;
    var e6 := [Stage(m)] + e7;
    var e5 := [Begin(m)] + e6;
    var e4 := [Take(m)] + e5;
    var e3 := [AnswerCall(m, s.agents[m].calls, p.binding.target, p.binding.controller, p.binding.fleet)] + e4;
    var e2 := [Send(m)] + e3;
    var e1 := [Receive(m, d, p.env)] + e2;
    RunOne(s, Issue(p.id, p.binding, p.ticket, p.lifetime, true), e1);
    var s1 := Next(s, Issue(p.id, p.binding, p.ticket, p.lifetime, true));
    RunOne(s1, e1[0], e2);
    var s2 := Next(s1, e1[0]);
    RunOne(s2, e2[0], e3);
    var s3 := Next(s2, e2[0]);
    RunOne(s3, e3[0], e4);
    var s4 := Next(s3, e3[0]);
    RunOne(s4, e4[0], e5);
    var s5 := Next(s4, e4[0]);
    RunOne(s5, e5[0], e6);
    var s6 := Next(s5, e5[0]);
    RunOne(s6, e6[0], e7);
    var s7 := Next(s6, e6[0]);
    RunOne(s7, e7[0], e8);
    var s8 := Next(s7, e7[0]);
    RunOne(s8, e8[0], e9);
    RunLast(Next(s8, e8[0]), e9[0]);
  }

  /**
   An open repair completes: the request is complete, its file was replaced once, and the file holds the
   five values of the dispatch, whatever else it held before being untouched.
   */
  lemma RepairCompletes(s: Sys, p: Plan)
    requires Inv(s) && Open(s, p)
    ensures var m := TargetOf(p);
            var s' := RepairProtocol.Run(s, Steps(s, p));
            && p.id in s'.store.rows && s'.store.rows[p.id].state == Complete
            && s'.applied == s.applied + [p.id]
            && m in s'.agents && p.env.origin.Resolved?
            && Enrolled(s'.agents[m].file, Sent(s, p), p.env.origin.origin)
            && OthersUntouched(s.agents[m].file, s'.agents[m].file)
  {
    var m, d := TargetOf(p), Sent(s, p);
    var j := Admitted(s, p);
    KeyIsFresh(s, p);
    StepsRun(s, p);
    hide Inv, Next, RowStands, AllPass, IsOver, Admit, Enrolled, OthersUntouched, RepairProtocol.Run, Steps;
    IssueGoesOut(s, p);
    var s1 := Next(s, Issue(p.id, p.binding, p.ticket, p.lifetime, true));
    ReceiveAttempts(s, p, s1, j);
    var s2 := Next(s1, Receive(m, d, p.env));
    SendOpens(s, p, s2, j);
    var s3 := Next(s2, Send(m));
    AnswerGrants(s, p, s3, j);
    var s4 := Next(s3, AnswerCall(m, s.agents[m].calls, p.binding.target, p.binding.controller, p.binding.fleet));
    TakeHolds(s, p, s4, j);
    var s5 := Next(s4, Take(m));
    ApplyRuns(s, p, s5, j);
    AdoptCompletes(s, p, Next(Next(Next(Next(s5, Begin(m)), Stage(m)), Replace(m)), Finish(m)));
    StagedIsEnrolled(s.agents[m].file, d, j.origin);
  }
}

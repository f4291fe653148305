/**
 Stall observation: which exact local job has been watched long enough, without a gap and without any
 progress, to be cancelled.  The state is one row per Studio, saved after every call; a new process
 gets a new session and trusts no earlier observation.
 */
module Stall {
  import opened Outcomes

  type StudioId = string
  type JobId = string
  type Time = real

  datatype Modality = Image | Voice | OtherModality

  const MAX_STALL_S: Time := 21600.0
  const MAX_OBSERVATION_GAP_S: Time := 300.0

  function Threshold(m: Modality): Time {
    match m
    case Image => 3600.0
    case Voice => 7200.0
    case OtherModality => MAX_STALL_S
  }

  datatype Job = Job(
    id: JobId, state: string, progress: Option<Time>, step: Option<Time>, steps: Option<Time>,
    chunk: Option<Time>, chunks: Option<Time>, startedAt: Option<Time>)

  /** The fields whose change counts as progress. */
  datatype Signature = Signature(state: string, progress: Option<Time>, done: Option<Time>, total: Option<Time>)

  function SignatureOf(m: Modality, j: Job): Signature {
    if m.Image? then Signature(j.state, j.progress, j.step, j.steps) else Signature(j.state, j.progress, j.chunk, j.chunks)
  }

  function Number(x: Option<Time>): Option<Time> {
    if x.Some? && x.value >= 0.0 then x else None
  }

  /** A missing phase is ""; rows written by `mark` alone have no observation fields. */
  datatype Row = Row(job: JobId, phase: string, meaningfulAt: Option<Time>, checkedAt: Option<Time>, signature: Option<Signature>, session: Option<nat>)

  datatype State = State(jobs: map<StudioId, Row>, session: nat, healthy: bool)

  datatype Verdict = Verdict(state: State, eligible: bool)

  /** Phases an observation never overrides. */
  predicate Protected(phase: string) {
    phase != "" && phase != "watching" && phase != "eligible"
  }

  predicate StageEvidence(m: Modality, j: Job) {
    var done, total := Number(SignatureOf(m, j).done), Number(SignatureOf(m, j).total);
    done.Some? && total.Some? && total.value > 0.0 && done.value <= total.value
  }

  // ---------------------------------------------------------------- calls

  predicate Continues(s: State, studio: StudioId, j: Job, now: Time) {
    && studio in s.jobs && s.jobs[studio].job == j.id && s.jobs[studio].session == Some(s.session)
    && Number(s.jobs[studio].checkedAt).Some? && 0.0 <= now - s.jobs[studio].checkedAt.value <= MAX_OBSERVATION_GAP_S
  }

  /** Since when nothing has moved; a stored zero reads as unset. */
  function MeaningfulAt(s: State, studio: StudioId, m: Modality, j: Job, now: Time): Time {
    if Continues(s, studio, j, now) && s.jobs[studio].signature == Some(SignatureOf(m, j))
       && s.jobs[studio].meaningfulAt.Some? && s.jobs[studio].meaningfulAt.value != 0.0
    then s.jobs[studio].meaningfulAt.value else now
  }

  function Kept(s: State, studio: StudioId, j: Job): Option<string> {
    if studio in s.jobs && s.jobs[studio].job == j.id && Protected(s.jobs[studio].phase) then Some(s.jobs[studio].phase) else None
  }

  predicate Stalled(s: State, studio: StudioId, m: Modality, j: Job, now: Time) {
    && j.id != "" && !m.OtherModality? && j.state == "running" && s.healthy && StageEvidence(m, j)
    && Number(j.startedAt).Some? && now - j.startedAt.value >= Threshold(m)
    && now - MeaningfulAt(s, studio, m, j, now) >= Threshold(m)
  }

  function ObserveStep(s: State, studio: StudioId, m: Modality, j: Job, now: Time): Verdict {
    var kept := Kept(s, studio, j);
    var eligible := kept.None? && Stalled(s, studio, m, j, now);
    var row := Row(j.id, if kept.Some? then kept.value else if eligible then "eligible" else "watching",
                   Some(MeaningfulAt(s, studio, m, j, now)), Some(now), Some(SignatureOf(m, j)), Some(s.session));
    Verdict(s.(jobs := s.jobs[studio := row]), eligible)
  }

  function MarkStep(s: State, studio: StudioId, job: JobId, phase: string, now: Time): State {
    var row := if studio in s.jobs && s.jobs[studio].job == job then s.jobs[studio] else Row(job, "", None, None, None, None);
    s.(jobs := s.jobs[studio := row.(phase := phase, checkedAt := Some(now))])
  }

  function Reloaded(r: Row): Row {
    if r.phase == "cancel_requested" then r.(phase := "manual_action_required") else r
  }

  /** What a new process finds where the last one saved. */
  datatype File = Intact | Damaged | Lost

  /**
   A new process reads the file back.  A damaged or already unhealthy file leaves nothing and no trust; a
   file that is not there leaves nothing, and is trusted like a first start.
   */
  function LoadStep(s: State, file: File): State {
    if file.Lost? then State(map[], s.session + 1, true)
    else if file.Intact? && s.healthy then State(map k | k in s.jobs :: Reloaded(s.jobs[k]), s.session + 1, true)
    else State(map[], s.session + 1, false)
  }

  datatype Event =
    | Observe(studio: StudioId, modality: Modality, job: Job, at: Time)
    | Mark(studio: StudioId, marked: JobId, phase: string, at: Time)
    | Load(file: File)

  function Next(s: State, e: Event): State {
    match e
    case Observe(studio, m, j, now) => ObserveStep(s, studio, m, j, now).state
    case Mark(studio, job, phase, now) => MarkStep(s, studio, job, phase, now)
    case Load(file) => LoadStep(s, file)
  }

  ghost function Run(s: State, es: seq<Event>): State
    decreases es
  {
    if es == [] then s else Next(Run(s, es[..|es| - 1]), es[|es| - 1])
  }

  // ---------------------------------------------------------------- what the call history shows

  predicate Touches(e: Event, studio: StudioId) {
    !e.Load? && e.studio == studio
  }

  /** The time of the last call about this Studio. */
  ghost function LastTouch(es: seq<Event>, studio: StudioId): Option<Time>
    decreases es
  {
    if es == [] then None
    else if Touches(es[|es| - 1], studio) then Some(es[|es| - 1].at)
    else LastTouch(es[..|es| - 1], studio)
  }

  predicate SameSight(e: Event, studio: StudioId, job: JobId, g: Signature) {
    e.Observe? && e.studio == studio && e.job.id == job && SignatureOf(e.modality, e.job) == g
  }

  predicate CloseTo(before: Option<Time>, at: Time) {
    before.Some? && 0.0 <= at - before.value <= MAX_OBSERVATION_GAP_S
  }

  /**
   From call `i` on, one process made only calls that saw this job with this signature, each observation
   at most the allowed gap after the call before it.  `strict` asks the same of marks of the job.
   */
  ghost predicate Unbroken(es: seq<Event>, studio: StudioId, i: nat, job: JobId, g: Signature, strict: bool)
    decreases es
  {
    i < |es| &&
    var e, before := es[|es| - 1], es[..|es| - 1];
    if i == |before| then SameSight(e, studio, job, g)
    else Unbroken(before, studio, i, job, g, strict)
         && !e.Load?
         && (Touches(e, studio) ==>
               if e.Observe? then SameSight(e, studio, job, g) && CloseTo(LastTouch(before, studio), e.at)
               else e.marked == job && (strict ==> CloseTo(LastTouch(before, studio), e.at)))
  }

  predicate SeenAt(es: seq<Event>, i: nat, at: Time) {
    i < |es| && es[i].Observe? && es[i].at == at
  }

  /** The row of a Studio is backed by the history, unless a protected phase already rules it out. */
  ghost predicate RowBacked(s: State, es: seq<Event>, studio: StudioId) {
    studio in s.jobs && s.jobs[studio].session == Some(s.session) ==>
      var r := s.jobs[studio];
      && r.meaningfulAt.Some? && r.signature.Some? && r.checkedAt == LastTouch(es, studio)
      && exists i :: 0 <= i < |es| && Unbroken(es, studio, i, r.job, r.signature.value, false) && SeenAt(es, i, r.meaningfulAt.value)
  }

  ghost predicate Fresh(s: State) {
    forall k | k in s.jobs && s.jobs[k].session.Some? :: s.jobs[k].session.value < s.session
  }

  ghost predicate Sessions(s: State) {
    forall k | k in s.jobs && s.jobs[k].session.Some? :: s.jobs[k].session.value <= s.session
  }

  lemma LoadedIsFresh(s: State, file: File)
    requires Sessions(s)
    ensures Fresh(LoadStep(s, file))
  {
  }

  lemma OneStepBacked(s: State, es: seq<Event>, e: Event, studio: StudioId)
    requires RowBacked(s, es, studio) && Sessions(s)
    ensures RowBacked(Next(s, e), es + [e], studio)
  {
    var es', s' := es + [e], Next(s, e);
    assert es'[..|es|] == es;
    if studio in s'.jobs && s'.jobs[studio].session == Some(s'.session) {
      var r' := s'.jobs[studio];
      if Touches(e, studio) && e.Observe? && r'.meaningfulAt == Some(e.at) {
        assert Unbroken(es', studio, |es|, r'.job, r'.signature.value, false);
        assert SeenAt(es', |es|, e.at);
      } else {
        var r := s.jobs[studio];
        var i :| 0 <= i < |es| && Unbroken(es, studio, i, r.job, r.signature.value, false) && SeenAt(es, i, r.meaningfulAt.value);
        assert Unbroken(es', studio, i, r'.job, r'.signature.value, false);
        assert SeenAt(es', i, r'.meaningfulAt.value);
      }
    }
  }

  lemma {:induction false} RunBacked(s: State, es: seq<Event>, studio: StudioId)
    requires Fresh(s)
    ensures RowBacked(Run(s, es), es, studio) && Sessions(Run(s, es))
    decreases es
  {
    if es != [] {
      var before, e := es[..|es| - 1], es[|es| - 1];
      RunBacked(s, before, studio);
      hide RowBacked;
      OneStepBacked(Run(s, before), before, e, studio);
      assert es == before + [e] && Run(s, es) == Next(Run(s, before), e);
      SessionsStay(Run(s, before), e);
    } else {
      NothingIsBacked(s, studio);
    }
  }

  lemma NothingIsBacked(s: State, studio: StudioId)
    requires Fresh(s)
    ensures RowBacked(s, [], studio) && Sessions(s)
  {
  }

  lemma SessionsStay(s: State, e: Event)
    requires Sessions(s)
    ensures Sessions(Next(s, e))
  {
  }

  /**
   Whenever an observation is eligible, the call history contains the evidence: an unbroken run, ending in
   this call, of sightings of this exact job with one signature, spanning at least the threshold.
   */
  lemma EligibleIsBacked(s: State, es: seq<Event>, studio: StudioId, m: Modality, j: Job, now: Time)
    requires Fresh(s) && ObserveStep(Run(s, es), studio, m, j, now).eligible
    ensures exists i, at :: 0 <= i <= |es| && Unbroken(es + [Observe(studio, m, j, now)], studio, i, j.id, SignatureOf(m, j), false)
                            && SeenAt(es + [Observe(studio, m, j, now)], i, at) && now - at >= Threshold(m)
  {
    var e := Observe(studio, m, j, now);
    var all := es + [e];
    assert all[..|es|] == es;
    RunBacked(s, all, studio);
    assert Run(s, all) == Next(Run(s, es), e);
    var r := Run(s, all).jobs[studio];
    hide Unbroken, Run;
    var i :| 0 <= i < |all| && Unbroken(all, studio, i, r.job, r.signature.value, false) && SeenAt(all, i, r.meaningfulAt.value);
  }

  ghost predicate MarksTimely(es: seq<Event>, studio: StudioId, i: nat)
    decreases es
  {
    i < |es| ==>
      var e, before := es[|es| - 1], es[..|es| - 1];
      i < |before| ==> MarksTimely(before, studio, i) && (e.Mark? && e.studio == studio ==> CloseTo(LastTouch(before, studio), e.at))
  }

  /** The run keeps every gap within the limit exactly when no mark inside it came later than that. */
  lemma {:induction false} StrictIff(es: seq<Event>, studio: StudioId, i: nat, job: JobId, g: Signature)
    requires Unbroken(es, studio, i, job, g, false)
    ensures Unbroken(es, studio, i, job, g, true) <==> MarksTimely(es, studio, i)
    decreases es
  {
    if i < |es| - 1 { StrictIff(es[..|es| - 1], studio, i, job, g); }
  }

  /** A mark refreshes the row's clock unchecked: after one, a job nobody looked at for an hour is eligible. */
  lemma LateMarkBridgesGap()
    ensures var j := Job("job", "running", Some(0.5), Some(1.0), Some(4.0), None, None, Some(0.0));
            var s := State(map[], 0, true);
            var a := ObserveStep(s, "image", Image, j, 100.0).state;
            var b := MarkStep(a, "image", "job", "watching", 3700.0);
            ObserveStep(b, "image", Image, j, 3800.0).eligible && !ObserveStep(a, "image", Image, j, 3800.0).eligible
  {
  }

  // ---------------------------------------------------------------- cancellation is final

  /** The job can no longer become eligible on this Studio. */
  predicate Settled(s: State, studio: StudioId, job: JobId) {
    !s.healthy || (studio in s.jobs && s.jobs[studio].job == job && Protected(s.jobs[studio].phase))
  }

  /** A call that sees another job on the Studio, or puts this one back to an unprotected phase; or a lost file. */
  predicate Lifts(e: Event, studio: StudioId, job: JobId) {
    match e
    case Observe(t, _, j, _) => t == studio && j.id != job
    case Mark(t, marked, phase, _) => t == studio && (marked != job || !Protected(phase))
    case Load(file) => file.Lost?
  }

  lemma SettledStays(s: State, e: Event, studio: StudioId, job: JobId)
    requires Settled(s, studio, job) && !Lifts(e, studio, job)
    ensures Settled(Next(s, e), studio, job)
    ensures e.Observe? && e.studio == studio ==> !ObserveStep(s, studio, e.modality, e.job, e.at).eligible
  {
  }

  /** In a trusted state, protection ends by exactly those events. */
  lemma SettledUnlessLifted(s: State, e: Event, studio: StudioId, job: JobId)
    requires Settled(s, studio, job) && s.healthy
    ensures Settled(Next(s, e), studio, job) <==> !Lifts(e, studio, job)
  {
  }

  lemma {:induction false} SettledForever(s: State, es: seq<Event>, studio: StudioId, job: JobId)
    requires Settled(s, studio, job) && forall i | 0 <= i < |es| :: !Lifts(es[i], studio, job)
    ensures Settled(Run(s, es), studio, job)
    decreases es
  {
    if es != [] {
      SettledForever(s, es[..|es| - 1], studio, job);
      SettledStays(Run(s, es[..|es| - 1]), es[|es| - 1], studio, job);
    }
  }

  /**
   After a cancellation was requested, that job is never eligible again on that Studio, reloads included,
   until another job is seen there, the row is deliberately put back, or the saved file is lost.
   */
  lemma CancelledIsNeverEligible(s: State, studio: StudioId, job: JobId, at: Time, es: seq<Event>, m: Modality, j: Job, now: Time)
    requires forall i | 0 <= i < |es| :: !Lifts(es[i], studio, job)
    requires j.id == job
    ensures !ObserveStep(Run(MarkStep(s, studio, job, "cancel_requested", at), es), studio, m, j, now).eligible
  {
    SettledForever(MarkStep(s, studio, job, "cancel_requested", at), es, studio, job);
  }

  // ---------------------------------------------------------------- the state as mutable rows

  class AutomaticRecoveryState {
    var jobs: map<StudioId, Row>
    var session: nat
    var healthy: bool

    ghost function View(): State
      reads this
    {
      State(jobs, session, healthy)
    }

    constructor (saved: State, file: File)
      ensures View() == LoadStep(saved, file)
    {
      jobs, session, healthy := map[], saved.session + 1, file.Lost? || (file.Intact? && saved.healthy);
      new;
      if healthy && !file.Lost? {
        var todo := saved.jobs.Keys;
        while todo != {}
          invariant todo <= saved.jobs.Keys
          invariant session == saved.session + 1 && healthy && file.Intact? && saved.healthy
          invariant jobs == map k | k in saved.jobs && k !in todo :: Reloaded(saved.jobs[k])
          decreases todo
        {
          var k :| k in todo;
          var row := saved.jobs[k];
          if row.phase == "cancel_requested" { row := row.(phase := "manual_action_required"); }
          jobs := jobs[k := row];
          todo := todo - {k};
        }
        assert jobs == map k | k in saved.jobs :: Reloaded(saved.jobs[k]);
      }
    }

    method Observe(studio: StudioId, m: Modality, j: Job, now: Time) returns (eligible: bool)
      modifies this`jobs
      ensures Verdict(View(), eligible) == ObserveStep(old(View()), studio, m, j, now)
    {
      var signature := SignatureOf(m, j);
      var same := studio in jobs && jobs[studio].job == j.id;
      var continuous := same && jobs[studio].session == Some(session) && Number(jobs[studio].checkedAt).Some?
                        && 0.0 <= now - jobs[studio].checkedAt.value <= MAX_OBSERVATION_GAP_S;
      var meaningfulAt := now;
      if continuous && jobs[studio].signature == Some(signature) && jobs[studio].meaningfulAt.Some? && jobs[studio].meaningfulAt.value != 0.0 {
        meaningfulAt := jobs[studio].meaningfulAt.value;
      }
      eligible := j.id != "" && !m.OtherModality? && j.state == "running" && healthy && StageEvidence(m, j)
                  && Number(j.startedAt).Some? && now - j.startedAt.value >= Threshold(m) && now - meaningfulAt >= Threshold(m);
      var phase := if eligible then "eligible" else "watching";
      if same && Protected(jobs[studio].phase) {
        eligible, phase := false, jobs[studio].phase;
      }
      jobs := jobs[studio := Row(j.id, phase, Some(meaningfulAt), Some(now), Some(signature), Some(session))];
    }

    method Mark(studio: StudioId, job: JobId, phase: string, now: Time)
      modifies this`jobs
      ensures View() == MarkStep(old(View()), studio, job, phase, now)
    {
      var row := Row(job, "", None, None, None, None);
      if studio in jobs && jobs[studio].job == job { row := jobs[studio]; }
      jobs := jobs[studio := row.(phase := phase, checkedAt := Some(now))];
    }
  }
}

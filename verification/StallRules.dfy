/** When exactly a watched job is given up, for one call and for a whole steady watch. */
module StallRules {
  import opened Outcomes
  import opened Stall

  /** An hour for images, two for speech. */
  function Patience(m: Modality): Time {
    if m == Image then 3600.0 else 7200.0
  }

  /** The job says how far it is, and the numbers make sense. */
  predicate ReportsStage(m: Modality, j: Job) {
    var done, total := if m == Image then j.step else j.chunk, if m == Image then j.steps else j.chunks;
    done.Some? && total.Some? && 0.0 <= done.value <= total.value && 0.0 < total.value
  }

  /** The row was written by this process for this job, at most five minutes ago, and nothing the job reports has moved since. */
  predicate StillSame(s: State, studio: StudioId, m: Modality, j: Job, now: Time) {
    studio in s.jobs &&
    var r := s.jobs[studio];
    && r.job == j.id && r.session == Some(s.session)
    && r.checkedAt.Some? && r.checkedAt.value >= 0.0 && 0.0 <= now - r.checkedAt.value <= 300.0
    && r.signature == Some(Signature(j.state, j.progress, if m == Image then j.step else j.chunk, if m == Image then j.steps else j.chunks))
  }

  /** The row already carries the outcome of a cancellation. */
  predicate Decided(s: State, studio: StudioId, job: JobId) {
    studio in s.jobs && s.jobs[studio].job == job
    && s.jobs[studio].phase != "" && s.jobs[studio].phase != "watching" && s.jobs[studio].phase != "eligible"
  }

  /** One call finds a job stalled exactly when all of this holds. */
  lemma EligibleIff(s: State, studio: StudioId, m: Modality, j: Job, now: Time)
    ensures ObserveStep(s, studio, m, j, now).eligible <==>
            && s.healthy && (m == Image || m == Voice) && j.id != "" && j.state == "running" && ReportsStage(m, j)
            && j.startedAt.Some? && j.startedAt.value >= 0.0 && now - j.startedAt.value >= Patience(m)
            && !Decided(s, studio, j.id)
            && StillSame(s, studio, m, j, now)
            && s.jobs[studio].meaningfulAt.Some? && s.jobs[studio].meaningfulAt.value != 0.0
            && now - s.jobs[studio].meaningfulAt.value >= Patience(m)
  {
  }

  /** The row one call leaves: since when nothing moved, who looked last, and a decided phase as it was. */
  lemma ObservedRowIs(s: State, studio: StudioId, m: Modality, j: Job, now: Time)
    ensures var v := ObserveStep(s, studio, m, j, now);
            && studio in v.state.jobs && v.state == s.(jobs := s.jobs[studio := v.state.jobs[studio]])
            && var r := v.state.jobs[studio];
            && r.job == j.id && r.checkedAt == Some(now) && r.session == Some(s.session)
            && r.signature == Some(Signature(j.state, j.progress, if m == Image then j.step else j.chunk, if m == Image then j.steps else j.chunks))
            && (r.phase == if Decided(s, studio, j.id) then s.jobs[studio].phase else if v.eligible then "eligible" else "watching")
            && (r.meaningfulAt ==
                if StillSame(s, studio, m, j, now) && s.jobs[studio].meaningfulAt.Some? && s.jobs[studio].meaningfulAt.value != 0.0
                then s.jobs[studio].meaningfulAt else Some(now))
  {
  }

  /** The state after looking at the same job at each of the times. */
  ghost function Watched(s: State, studio: StudioId, m: Modality, j: Job, times: seq<Time>): State
    decreases times
  {
    if times == [] then s
    else ObserveStep(Watched(s, studio, m, j, times[..|times| - 1]), studio, m, j, times[|times| - 1]).state
  }

  /** Looks never more than five minutes apart. */
  ghost predicate Steady(times: seq<Time>) {
    |times| > 0 && times[0] > 0.0 && forall i | 0 < i < |times| :: 0.0 <= times[i] - times[i - 1] <= 300.0
  }

  /** A job that was not on the Studio's row before is watched since the first look at it, whatever the later looks concluded. */
  lemma {:induction false} WatchedSince(s: State, studio: StudioId, m: Modality, j: Job, times: seq<Time>)
    requires Steady(times) && (studio in s.jobs ==> s.jobs[studio].job != j.id)
    ensures var t := Watched(s, studio, m, j, times);
            && t.healthy == s.healthy && t.session == s.session && studio in t.jobs && !Decided(t, studio, j.id)
            && t.jobs[studio].meaningfulAt == Some(times[0]) && t.jobs[studio].job == j.id && t.jobs[studio].session == Some(s.session)
            && t.jobs[studio].checkedAt == Some(times[|times| - 1]) && times[|times| - 1] >= times[0]
            && t.jobs[studio].signature == Some(SignatureOf(m, j))
    decreases times
  {
    var init, last := times[..|times| - 1], times[|times| - 1];
    if init == [] {
      assert Watched(s, studio, m, j, init) == s;
      ObservedRowIs(s, studio, m, j, last);
    } else {
      WatchedSince(s, studio, m, j, init);
      ObservedRowIs(Watched(s, studio, m, j, init), studio, m, j, last);
    }
    hide ObserveStep;
  }

  /**
   A steady watch of a job that reports nothing new ends in a verdict of stalled exactly when the watch has
   lasted the job's whole patience and so has the job.
   */
  lemma SteadyWatchDecides(s: State, studio: StudioId, m: Modality, j: Job, times: seq<Time>, now: Time)
    requires Steady(times) && (studio in s.jobs ==> s.jobs[studio].job != j.id)
    requires 0.0 <= now - times[|times| - 1] <= 300.0
    requires s.healthy && (m == Image || m == Voice) && j.id != "" && j.state == "running" && ReportsStage(m, j)
    requires j.startedAt.Some? && j.startedAt.value >= 0.0
    ensures ObserveStep(Watched(s, studio, m, j, times), studio, m, j, now).eligible <==>
            now - times[0] >= Patience(m) && now - j.startedAt.value >= Patience(m)
  {
    WatchedSince(s, studio, m, j, times);
    EligibleIff(Watched(s, studio, m, j, times), studio, m, j, now);
    hide ObserveStep;
  }

  /** A mark keeps what was observed of the same job, forgets any other, and counts as a look. */
  lemma MarkedRowIs(s: State, studio: StudioId, job: JobId, phase: string, now: Time)
    ensures var t := MarkStep(s, studio, job, phase, now);
            && studio in t.jobs && t == s.(jobs := s.jobs[studio := t.jobs[studio]])
            && var r := t.jobs[studio];
            && r.job == job && r.phase == phase && r.checkedAt == Some(now)
            && if studio in s.jobs && s.jobs[studio].job == job
               then r.meaningfulAt == s.jobs[studio].meaningfulAt && r.signature == s.jobs[studio].signature && r.session == s.jobs[studio].session
               else r.meaningfulAt.None? && r.signature.None? && r.session.None?
  {
  }

  /** A reload keeps every row of a sound file, turning a cancellation under way into one that waits for a person, and nothing of any other. */
  lemma ReloadedRowIs(s: State, file: File, studio: StudioId)
    ensures var t := LoadStep(s, file);
            && t.session == s.session + 1
            && (t.healthy <==> file == Lost || (file == Intact && s.healthy))
            && (studio in t.jobs <==> file == Intact && s.healthy && studio in s.jobs)
            && (studio in t.jobs ==>
                  t.jobs[studio] == s.jobs[studio].(phase := if s.jobs[studio].phase == "cancel_requested" then "manual_action_required"
                                                             else s.jobs[studio].phase))
  {
  }
}

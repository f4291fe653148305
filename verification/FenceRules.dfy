/** The rules of the execution fences in the columns of the three tables: who is accepted, what is written, why not. */
module FenceRules {
  import opened Outcomes
  import opened Fences

  /** An assignment is accepted exactly when its token is new or this assignment's own, and its attempt and key are its own too and still live. */
  lemma AcceptedIff(t: Tables, a: Assignment, now: Time)
    ensures PrepareStep(t, a, now).result.Ok? <==>
            && a.token >= 1 && 1 <= |a.key| <= 512 && (a.lease.None? || now < a.lease.value)
            && var p := Payload(a.job, a.attempt, a.content);
            && (a.job in t.jobs ==>
                  t.jobs[a.job].token < a.token || t.jobs[a.job] == JobFence(a.token, a.attempt, a.key, p))
            && (a.attempt in t.attempts ==>
                  var f := t.attempts[a.attempt];
                  f.token <= a.token && f.job == a.job && f.key == a.key && f.payload == p && (f.lease.None? || now < f.lease.value))
            && ((a.job, a.key) in t.keys ==> t.keys[(a.job, a.key)].attempt == a.attempt && t.keys[(a.job, a.key)].payload == p)
  {
    JobAllowsIff(t, a);
    AttemptAllowsIff(t, a, now);
    KeyAllowsIff(t, a);
    hide RaiseJob, RaiseAttempt, RecordKey, JobRefusal, AttemptRefusal, KeyRefusal;
  }

  lemma JobAllowsIff(t: Tables, a: Assignment)
    ensures JobRefusal(t, a).None? <==>
            (a.job in t.jobs ==>
               t.jobs[a.job].token < a.token || t.jobs[a.job] == JobFence(a.token, a.attempt, a.key, Payload(a.job, a.attempt, a.content)))
  {
  }

  lemma AttemptAllowsIff(t: Tables, a: Assignment, now: Time)
    ensures AttemptRefusal(t, a, now).None? <==>
            (a.attempt in t.attempts ==>
               var f := t.attempts[a.attempt];
               && f.token <= a.token && f.job == a.job && f.key == a.key && f.payload == Payload(a.job, a.attempt, a.content)
               && (f.lease.None? || now < f.lease.value))
  {
  }

  lemma KeyAllowsIff(t: Tables, a: Assignment)
    ensures KeyRefusal(t, a).None? <==>
            ((a.job, a.key) in t.keys ==>
               t.keys[(a.job, a.key)].attempt == a.attempt && t.keys[(a.job, a.key)].payload == Payload(a.job, a.attempt, a.content))
  {
  }

  /** The deadline an accepted assignment leaves its attempt with. */
  function DeadlineLeft(t: Tables, a: Assignment): Option<Time> {
    if a.attempt !in t.attempts then a.lease
    else if t.attempts[a.attempt].token < a.token then a.lease
    else if a.lease.Some? then a.lease
    else t.attempts[a.attempt].lease
  }

  /** What an accepted assignment writes, table by table, and the batch it answers with. */
  lemma AcceptedWrites(t: Tables, a: Assignment, now: Time)
    requires Consistent(t) && PrepareStep(t, a, now).result.Ok?
    ensures var t', p := PrepareStep(t, a, now).tables, Payload(a.job, a.attempt, a.content);
            && t'.jobs == t.jobs[a.job := JobFence(a.token, a.attempt, a.key, p)]
            && t'.attempts == t.attempts[a.attempt := AttemptFence(a.job, a.token, a.key, p, DeadlineLeft(t, a))]
            && t'.keys == if (a.job, a.key) in t.keys then t.keys else t.keys[(a.job, a.key) := Binding(a.attempt, p, None)]
    ensures PrepareStep(t, a, now).result == Ok(if (a.job, a.key) in t.keys then t.keys[(a.job, a.key)].batch else None)
  {
    AcceptedIff(t, a, now);
    if a.attempt in t.attempts { assert AttemptOk(t, a.attempt); }
    hide Consistent, JobRefusal, AttemptRefusal, KeyRefusal;
  }

  /** A newer token may not keep a shorter life: it brings its own deadline, and only a repeated token may leave the old one. */
  lemma DeadlineIs(t: Tables, a: Assignment, now: Time)
    requires Consistent(t) && PrepareStep(t, a, now).result.Ok?
    ensures var t' := PrepareStep(t, a, now).tables;
            && a.attempt in t'.attempts
            && (a.attempt !in t.attempts || t.attempts[a.attempt].token < a.token || a.lease.Some? ==> t'.attempts[a.attempt].lease == a.lease)
            && (a.attempt in t.attempts && t.attempts[a.attempt].token == a.token && a.lease.None? ==>
                  t'.attempts[a.attempt].lease == t.attempts[a.attempt].lease)
  {
    AcceptedWrites(t, a, now);
    hide PrepareStep, Consistent;
  }

  ghost predicate FirstFailing(checks: seq<(bool, string)>, k: nat) {
    k < |checks| && !checks[k].0 && forall j | 0 <= j < k :: checks[j].0
  }

  /** The conditions on an assignment in the order they are looked at, each with its refusal. */
  ghost function PrepareChecks(t: Tables, a: Assignment, now: Time): seq<(bool, string)> {
    var p := Payload(a.job, a.attempt, a.content);
    [ (a.token >= 1, "fencing_token must be a positive integer"),
      (1 <= |a.key| <= 512, "idempotency_key must be between 1 and 512 characters"),
      (a.lease.None? || now < a.lease.value, "lease has already expired"),
      (a.job in t.jobs ==> t.jobs[a.job].token <= a.token, "stale fencing token"),
      (a.job in t.jobs && t.jobs[a.job].token == a.token ==> t.jobs[a.job] == JobFence(a.token, a.attempt, a.key, p),
       "fencing_token was already observed for a different assignment"),
      (a.attempt in t.attempts ==> t.attempts[a.attempt].token <= a.token, "stale fencing token"),
      (a.attempt in t.attempts ==> t.attempts[a.attempt].job == a.job && t.attempts[a.attempt].key == a.key && t.attempts[a.attempt].payload == p,
       "attempt identity was already accepted for a different assignment"),
      (a.attempt in t.attempts && t.attempts[a.attempt].lease.Some? ==> now < t.attempts[a.attempt].lease.value,
       "lease has expired and cannot be revived"),
      ((a.job, a.key) in t.keys ==> t.keys[(a.job, a.key)].attempt == a.attempt && t.keys[(a.job, a.key)].payload == p,
       "idempotency identity was already accepted for a different payload") ]
  }

  /** A refused assignment is answered with the first condition it fails, and nothing is written. */
  lemma PrepareNamesFirstFailure(t: Tables, a: Assignment, now: Time, k: nat)
    requires FirstFailing(PrepareChecks(t, a, now), k)
    ensures PrepareStep(t, a, now) == Step(t, Err(PrepareChecks(t, a, now)[k].1))
  {
    var checks := PrepareChecks(t, a, now);
    hide RaiseJob, RaiseAttempt, RecordKey;
    assert 0 < k ==> checks[0].0;
    assert 1 < k ==> checks[1].0;
    assert 2 < k ==> checks[2].0;
    assert 3 < k ==> checks[3].0;
    assert 4 < k ==> checks[4].0;
    assert 5 < k ==> checks[5].0;
    assert 6 < k ==> checks[6].0;
    assert 7 < k ==> checks[7].0;
  }

  /** The conditions on a renewal, in order. */
  ghost function RenewChecks(t: Tables, job: JobId, attempt: AttemptId, token: int, lease: Time, now: Time): seq<(bool, string)>
  {
    [ (token >= 1, "fencing_token must be a positive integer"),
      (now < lease, "renewed lease must expire in the future"),
      (attempt in t.attempts && job in t.jobs, "unknown execution attempt"),
      (attempt in t.attempts && job in t.jobs && t.attempts[attempt].job == job && t.attempts[attempt].token == token
       && t.jobs[job].attempt == attempt && t.jobs[job].token == token, "stale fencing token"),
      (attempt in t.attempts && t.attempts[attempt].lease.Some?, "attempt has no renewable lease"),
      (attempt in t.attempts && t.attempts[attempt].lease.Some? && now < t.attempts[attempt].lease.value, "lease has expired and cannot be revived") ]
  }

  lemma RenewNamesFirstFailure(t: Tables, job: JobId, attempt: AttemptId, token: int, lease: Time, now: Time, k: nat)
    requires FirstFailing(RenewChecks(t, job, attempt, token, lease, now), k)
    ensures RenewStep(t, job, attempt, token, lease, now) == Step(t, Err(RenewChecks(t, job, attempt, token, lease, now)[k].1))
  {
    var checks := RenewChecks(t, job, attempt, token, lease, now);
    assert 0 < k ==> checks[0].0;
    assert 1 < k ==> checks[1].0;
    assert 2 < k ==> checks[2].0;
    assert 3 < k ==> checks[3].0;
    assert 4 < k ==> checks[4].0;
  }

  /** A renewal that is accepted moves the deadline and nothing else, and names the batch of the attempt's only key. */
  lemma RenewedWrites(t: Tables, job: JobId, attempt: AttemptId, token: int, lease: Time, now: Time, k: (JobId, Key))
    requires Consistent(t) && RenewStep(t, job, attempt, token, lease, now).result.Ok? && k in t.keys && t.keys[k].attempt == attempt
    ensures RenewStep(t, job, attempt, token, lease, now) ==
            Step(t.(attempts := t.attempts[attempt := t.attempts[attempt].(lease := Some(lease))]), Ok(t.keys[k].batch))
  {
    assert KeyOk(t, k);
  }

  /** Binding names the batch in the one row of that key, if there is one, and never elsewhere. */
  lemma BindWrites(t: Tables, job: JobId, key: Key, batch: BatchId, k: (JobId, Key))
    requires k in t.keys
    ensures var t' := BindStep(t, job, key, batch).tables;
            && t'.jobs == t.jobs && t'.attempts == t.attempts && t'.keys.Keys == t.keys.Keys
            && t'.keys[k] == if k == (job, key) then t.keys[k].(batch := Some(batch)) else t.keys[k]
  {
  }
}

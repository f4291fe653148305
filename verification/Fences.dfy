/**
 GenStudio's execution fences: three tables that say which token each job, attempt and idempotency
 key has seen.  A call either commits one transaction or raises and changes nothing.  Hashes are
 injective, so a key or payload stands where the source stores its digest.
 */
module Fences {
  import opened Outcomes

  type JobId = string
  type AttemptId = string
  type Key = string
  type BatchId = string
  type Time = real

  /** What an envelope asks for: one prompt per item, and every other field. */
  datatype Content = Content(items: seq<string>, rest: string)

  /** The canonical payload: the envelope's own content and the identity it is bound to. */
  datatype Payload = Payload(job: JobId, attempt: AttemptId, content: Content)

  /** One upstream assignment, with the fields `_extract` cleaned. */
  datatype Assignment = Assignment(job: JobId, attempt: AttemptId, token: int, key: Key, content: Content, lease: Option<Time>)

  datatype JobFence = JobFence(token: int, attempt: AttemptId, key: Key, payload: Payload)
  datatype AttemptFence = AttemptFence(job: JobId, token: int, key: Key, payload: Payload, lease: Option<Time>)
  datatype Binding = Binding(attempt: AttemptId, payload: Payload, batch: Option<BatchId>)

  datatype Tables = Tables(jobs: map<JobId, JobFence>, attempts: map<AttemptId, AttemptFence>, keys: map<(JobId, Key), Binding>)

  /** The tables after a call, and the batch it names or the reason it was refused. */
  datatype Step = Step(tables: Tables, result: Result<Option<BatchId>>)

  function PayloadOf(a: Assignment): Payload {
    Payload(a.job, a.attempt, a.content)
  }

  function Refuse(t: Tables, code: string): Step {
    Step(t, Err(code))
  }

  predicate Lapsed(lease: Option<Time>, now: Time) {
    lease.Some? && lease.value <= now
  }

  // ---------------------------------------------------------------- calls

  /** Why the job's own fence refuses `a`, if it does. */
  function JobRefusal(t: Tables, a: Assignment): Option<string> {
    if a.job !in t.jobs then None else
    var f := t.jobs[a.job];
    if a.token < f.token then Some("stale fencing token")
    else if a.token == f.token && (f.attempt != a.attempt || f.key != a.key || f.payload != PayloadOf(a))
    then Some("fencing_token was already observed for a different assignment")
    else None
  }

  function AttemptRefusal(t: Tables, a: Assignment, now: Time): Option<string> {
    if a.attempt !in t.attempts then None else
    var f := t.attempts[a.attempt];
    if a.token < f.token then Some("stale fencing token")
    else if f.job != a.job || f.key != a.key || f.payload != PayloadOf(a)
    then Some("attempt identity was already accepted for a different assignment")
    else if Lapsed(f.lease, now) then Some("lease has expired and cannot be revived")
    else None
  }

  function KeyRefusal(t: Tables, a: Assignment): Option<string> {
    if (a.job, a.key) !in t.keys then None else
    var b := t.keys[(a.job, a.key)];
    if b.attempt != a.attempt || b.payload != PayloadOf(a)
    then Some("idempotency identity was already accepted for a different payload") else None
  }

  function RaiseJob(t: Tables, a: Assignment): map<JobId, JobFence> {
    if a.job !in t.jobs || a.token > t.jobs[a.job].token
    then t.jobs[a.job := JobFence(a.token, a.attempt, a.key, PayloadOf(a))] else t.jobs
  }

  function RaiseAttempt(t: Tables, a: Assignment): map<AttemptId, AttemptFence> {
    if a.attempt !in t.attempts then t.attempts[a.attempt := AttemptFence(a.job, a.token, a.key, PayloadOf(a), a.lease)]
    else if a.token > t.attempts[a.attempt].token
    then t.attempts[a.attempt := t.attempts[a.attempt].(token := a.token, lease := a.lease)]
    else if a.lease.Some? then t.attempts[a.attempt := t.attempts[a.attempt].(lease := a.lease)]
    else t.attempts
  }

  function RecordKey(t: Tables, a: Assignment): map<(JobId, Key), Binding> {
    if (a.job, a.key) in t.keys then t.keys else t.keys[(a.job, a.key) := Binding(a.attempt, PayloadOf(a), None)]
  }

  /** Accept or refuse an upstream assignment; answers with the batch its key is already bound to. */
  function PrepareStep(t: Tables, a: Assignment, now: Time): Step {
    if a.token < 1 then Refuse(t, "fencing_token must be a positive integer")
    else if a.key == "" || |a.key| > 512 then Refuse(t, "idempotency_key must be between 1 and 512 characters")
    else if Lapsed(a.lease, now) then Refuse(t, "lease has already expired")
    else if JobRefusal(t, a).Some? then Refuse(t, JobRefusal(t, a).value)
    else if AttemptRefusal(t, a, now).Some? then Refuse(t, AttemptRefusal(t, a, now).value)
    else if KeyRefusal(t, a).Some? then Refuse(t, KeyRefusal(t, a).value)
    else Step(Tables(RaiseJob(t, a), RaiseAttempt(t, a), RecordKey(t, a)),
              Ok(if (a.job, a.key) in t.keys then t.keys[(a.job, a.key)].batch else None))
  }

  /** The batch bound to an attempt's idempotency row. */
  function BoundBatch(t: Tables, attempt: AttemptId): Option<BatchId> {
    if attempt in t.attempts && (t.attempts[attempt].job, t.attempts[attempt].key) in t.keys
    then t.keys[(t.attempts[attempt].job, t.attempts[attempt].key)].batch else None
  }

  function RenewStep(t: Tables, job: JobId, attempt: AttemptId, token: int, lease: Time, now: Time): Step {
    if token < 1 then Refuse(t, "fencing_token must be a positive integer")
    else if lease <= now then Refuse(t, "renewed lease must expire in the future")
    else if attempt !in t.attempts || job !in t.jobs then Refuse(t, "unknown execution attempt")
    else
      var a, f := t.attempts[attempt], t.jobs[job];
      if a.job != job || a.token != token || f.attempt != attempt || f.token != token then Refuse(t, "stale fencing token")
      else if a.lease.None? then Refuse(t, "attempt has no renewable lease")
      else if a.lease.value <= now then Refuse(t, "lease has expired and cannot be revived")
      else Step(t.(attempts := t.attempts[attempt := a.(lease := Some(lease))]), Ok(BoundBatch(t, attempt)))
  }

  function BindStep(t: Tables, job: JobId, key: Key, batch: BatchId): Step {
    if (job, key) in t.keys
    then Step(t.(keys := t.keys[(job, key) := t.keys[(job, key)].(batch := Some(batch))]), Ok(Some(batch)))
    else Step(t, Ok(None))
  }

  datatype Op =
    | OpPrepare(assignment: Assignment)
    | OpRenew(job: JobId, attempt: AttemptId, token: int, lease: Time)
    | OpBind(boundJob: JobId, key: Key, batch: BatchId)

  function Apply(t: Tables, op: Op, now: Time): Step {
    match op
    case OpPrepare(a) => PrepareStep(t, a, now)
    case OpRenew(job, attempt, token, lease) => RenewStep(t, job, attempt, token, lease, now)
    case OpBind(job, key, batch) => BindStep(t, job, key, batch)
  }

  ghost function Run(t: Tables, ops: seq<(Op, Time)>): Tables
    decreases ops
  {
    if ops == [] then t else Run(Apply(t, ops[0].0, ops[0].1).tables, ops[1..])
  }

  // ---------------------------------------------------------------- consistency

  /** The job's owner is an attempt that holds the job's token. */
  predicate OwnerOk(t: Tables, j: JobId)
    requires j in t.jobs
  {
    var f := t.jobs[j];
    && f.attempt in t.attempts && f.token >= 1
    && var a := t.attempts[f.attempt]; a.job == j && a.token == f.token && a.key == f.key && a.payload == f.payload
  }

  /** An attempt belongs to a known job, below its token unless it owns it, and to one key of it. */
  predicate AttemptOk(t: Tables, a: AttemptId)
    requires a in t.attempts
  {
    var f := t.attempts[a];
    && f.job in t.jobs && f.token <= t.jobs[f.job].token
    && (f.token == t.jobs[f.job].token ==> t.jobs[f.job].attempt == a)
    && (f.job, f.key) in t.keys && t.keys[(f.job, f.key)].attempt == a && t.keys[(f.job, f.key)].payload == f.payload
  }

  predicate KeyOk(t: Tables, k: (JobId, Key))
    requires k in t.keys
  {
    && t.keys[k].attempt in t.attempts
    && t.attempts[t.keys[k].attempt].job == k.0 && t.attempts[t.keys[k].attempt].key == k.1
  }

  ghost predicate Consistent(t: Tables) {
    && (forall j {:trigger OwnerOk(t, j)} | j in t.jobs :: OwnerOk(t, j))
    && (forall a {:trigger AttemptOk(t, a)} | a in t.attempts :: AttemptOk(t, a))
    && (forall k {:trigger KeyOk(t, k)} | k in t.keys :: KeyOk(t, k))
  }

  predicate JobGrows(f: JobFence, f': JobFence) {
    f.token <= f'.token && (f.token == f'.token ==> f == f')
  }

  predicate AttemptGrows(f: AttemptFence, f': AttemptFence) {
    f.token <= f'.token && f'.job == f.job && f'.key == f.key && f'.payload == f.payload
  }

  predicate KeyGrows(b: Binding, b': Binding) {
    b'.attempt == b.attempt && b'.payload == b.payload && (b.batch.Some? ==> b'.batch.Some?)
  }

  /** What no call ever undoes. */
  ghost predicate Grows(t: Tables, t': Tables) {
    && (forall j | j in t.jobs :: j in t'.jobs && JobGrows(t.jobs[j], t'.jobs[j]))
    && (forall a | a in t.attempts :: a in t'.attempts && AttemptGrows(t.attempts[a], t'.attempts[a]))
    && (forall k | k in t.keys :: k in t'.keys && KeyGrows(t.keys[k], t'.keys[k]))
  }

  /** What an accepted `prepare` leaves in the three tables. */
  ghost predicate Accepts(t: Tables, a: Assignment, t': Tables) {
    && a.token >= 1
    && t'.jobs == t.jobs[a.job := JobFence(a.token, a.attempt, a.key, PayloadOf(a))]
    && (a.attempt in t'.attempts
        && t'.attempts == t.attempts[a.attempt := AttemptFence(a.job, a.token, a.key, PayloadOf(a), t'.attempts[a.attempt].lease)])
    && ((a.job, a.key) in t'.keys
        && t'.keys == t.keys[(a.job, a.key) := Binding(a.attempt, PayloadOf(a), t'.keys[(a.job, a.key)].batch)])
    && (a.job in t.jobs ==> JobGrows(t.jobs[a.job], t'.jobs[a.job]))
    && (a.attempt in t.attempts ==> AttemptGrows(t.attempts[a.attempt], t'.attempts[a.attempt]))
    && ((a.job, a.key) in t.keys ==> t'.keys == t.keys)
  }

  lemma PrepareEffect(t: Tables, a: Assignment, now: Time)
    requires PrepareStep(t, a, now).result.Ok?
    requires a.job in t.jobs ==> OwnerOk(t, a.job)
    requires a.attempt in t.attempts ==> AttemptOk(t, a.attempt)
    ensures Accepts(t, a, PrepareStep(t, a, now).tables)
  {
    PrepareKeys(t, a, now);
    PrepareJobs(t, a, now);
    PrepareAttempts(t, a, now);
  }

  lemma PrepareRefused(t: Tables, a: Assignment, now: Time)
    requires PrepareStep(t, a, now).result.Err?
    ensures PrepareStep(t, a, now).tables == t
  {
  }

  lemma PrepareJobs(t: Tables, a: Assignment, now: Time)
    requires PrepareStep(t, a, now).result.Ok?
    ensures var t' := PrepareStep(t, a, now).tables;
            && a.token >= 1 && t'.jobs == t.jobs[a.job := JobFence(a.token, a.attempt, a.key, PayloadOf(a))]
            && (a.job in t.jobs ==> JobGrows(t.jobs[a.job], t'.jobs[a.job]))
  {
    hide RaiseAttempt, RecordKey, AttemptRefusal, KeyRefusal;
  }

  lemma PrepareAttempts(t: Tables, a: Assignment, now: Time)
    requires PrepareStep(t, a, now).result.Ok?
    requires a.job in t.jobs ==> OwnerOk(t, a.job)
    requires a.attempt in t.attempts ==> AttemptOk(t, a.attempt)
    ensures var t' := PrepareStep(t, a, now).tables;
            && a.attempt in t'.attempts
            && t'.attempts == t.attempts[a.attempt := AttemptFence(a.job, a.token, a.key, PayloadOf(a), t'.attempts[a.attempt].lease)]
            && (a.attempt in t.attempts ==> AttemptGrows(t.attempts[a.attempt], t'.attempts[a.attempt]))
  {
    hide RaiseJob, RecordKey, KeyRefusal;
  }

  lemma PrepareKeys(t: Tables, a: Assignment, now: Time)
    requires PrepareStep(t, a, now).result.Ok?
    ensures var t' := PrepareStep(t, a, now).tables;
            && (a.job, a.key) in t'.keys
            && t'.keys == t.keys[(a.job, a.key) := Binding(a.attempt, PayloadOf(a), t'.keys[(a.job, a.key)].batch)]
            && ((a.job, a.key) in t.keys ==> t'.keys == t.keys)
  {
    hide RaiseJob, RaiseAttempt, JobRefusal, AttemptRefusal;
  }

  /** A job's other attempts hold tokens its fence has seen. */
  lemma TokensAreSeen(t: Tables, o: AttemptId)
    requires Consistent(t) && o in t.attempts
    ensures var f := t.attempts[o];
            f.job in t.jobs && f.token <= t.jobs[f.job].token && (f.token == t.jobs[f.job].token ==> t.jobs[f.job].attempt == o)
  {
    assert AttemptOk(t, o);
  }

  lemma AcceptKeepsOwner(t: Tables, a: Assignment, t': Tables, j: JobId)
    requires Consistent(t) && Accepts(t, a, t') && j in t'.jobs
    ensures OwnerOk(t', j)
  {
    if j != a.job { assert OwnerOk(t, j); }
  }

  lemma AcceptKeepsAttempt(t: Tables, a: Assignment, t': Tables, o: AttemptId)
    requires Consistent(t) && Accepts(t, a, t') && o in t'.attempts
    ensures AttemptOk(t', o)
  {
    if o != a.attempt {
      assert AttemptOk(t, o);
      TokensAreSeen(t, o);
    }
  }

  lemma AcceptKeepsKey(t: Tables, a: Assignment, t': Tables, k: (JobId, Key))
    requires Consistent(t) && Accepts(t, a, t') && k in t'.keys
    ensures KeyOk(t', k)
  {
    if k in t.keys { assert KeyOk(t, k); }
  }

  lemma PrepareKeepsTables(t: Tables, a: Assignment, now: Time)
    requires Consistent(t)
    ensures Consistent(PrepareStep(t, a, now).tables) && Grows(t, PrepareStep(t, a, now).tables)
  {
    hide PrepareStep, OwnerOk, AttemptOk, KeyOk, Accepts;
    var t' := PrepareStep(t, a, now).tables;
    if PrepareStep(t, a, now).result.Ok? {
      assert a.job in t.jobs ==> OwnerOk(t, a.job);
      assert a.attempt in t.attempts ==> AttemptOk(t, a.attempt);
      PrepareEffect(t, a, now);
      forall j | j in t'.jobs ensures OwnerOk(t', j) { AcceptKeepsOwner(t, a, t', j); }
      forall o | o in t'.attempts ensures AttemptOk(t', o) { AcceptKeepsAttempt(t, a, t', o); }
      forall k | k in t'.keys ensures KeyOk(t', k) { AcceptKeepsKey(t, a, t', k); }
      AcceptGrows(t, a, t');
    } else {
      PrepareRefused(t, a, now);
    }
  }

  lemma AcceptGrows(t: Tables, a: Assignment, t': Tables)
    requires Accepts(t, a, t')
    ensures Grows(t, t')
  {
    assert forall k | k in t.keys :: KeyGrows(t.keys[k], t'.keys[k]);
  }

  lemma RenewKeepsTables(t: Tables, job: JobId, attempt: AttemptId, token: int, lease: Time, now: Time)
    requires Consistent(t)
    ensures Consistent(RenewStep(t, job, attempt, token, lease, now).tables) && Grows(t, RenewStep(t, job, attempt, token, lease, now).tables)
  {
    var t' := RenewStep(t, job, attempt, token, lease, now).tables;
    if t' != t {
      assert t' == t.(attempts := t.attempts[attempt := t.attempts[attempt].(lease := Some(lease))]);
      hide RenewStep;
      forall j | j in t'.jobs ensures OwnerOk(t', j) { assert OwnerOk(t, j); }
      forall o | o in t'.attempts ensures AttemptOk(t', o) { assert AttemptOk(t, o); }
      forall k | k in t'.keys ensures KeyOk(t', k) { assert KeyOk(t, k); }
    }
  }

  lemma BindKeepsTables(t: Tables, job: JobId, key: Key, batch: BatchId)
    requires Consistent(t)
    ensures Consistent(BindStep(t, job, key, batch).tables) && Grows(t, BindStep(t, job, key, batch).tables)
  {
    var t' := BindStep(t, job, key, batch).tables;
    forall j | j in t'.jobs ensures OwnerOk(t', j) { assert OwnerOk(t, j); }
    forall o | o in t'.attempts ensures AttemptOk(t', o) { assert AttemptOk(t, o); }
    forall k | k in t'.keys ensures KeyOk(t', k) { assert KeyOk(t, k); }
  }

  lemma RefusalChangesNothing(t: Tables, op: Op, now: Time)
    requires Apply(t, op, now).result.Err?
    ensures Apply(t, op, now).tables == t
  {
  }

  lemma ApplyKeepsTables(t: Tables, op: Op, now: Time)
    requires Consistent(t)
    ensures Consistent(Apply(t, op, now).tables) && Grows(t, Apply(t, op, now).tables)
  {
    hide PrepareStep, RenewStep, BindStep, Consistent, Grows;
    match op
    case OpPrepare(a) => PrepareKeepsTables(t, a, now);
    case OpRenew(job, attempt, token, lease) => RenewKeepsTables(t, job, attempt, token, lease, now);
    case OpBind(job, key, batch) => BindKeepsTables(t, job, key, batch);
  }

  lemma GrowsTransitive(a: Tables, b: Tables, c: Tables)
    requires Grows(a, b) && Grows(b, c)
    ensures Grows(a, c)
  {
  }

  /** Over every run of accepted and refused calls the tables agree, and nothing accepted is ever rebound. */
  lemma {:induction false} RunKeepsTables(t: Tables, ops: seq<(Op, Time)>)
    requires Consistent(t)
    ensures Consistent(Run(t, ops)) && Grows(t, Run(t, ops))
    decreases ops
  {
    if ops != [] {
      var t' := Apply(t, ops[0].0, ops[0].1).tables;
      ApplyKeepsTables(t, ops[0].0, ops[0].1);
      RunKeepsTables(t', ops[1..]);
      GrowsTransitive(t, t', Run(t, ops));
    }
  }

  lemma {:induction false} RunSplits(t: Tables, ops: seq<(Op, Time)>, i: nat)
    requires i <= |ops|
    ensures Run(t, ops) == Run(Run(t, ops[..i]), ops[i..])
    decreases ops
  {
    if i == 0 {
      assert ops[..0] == [] && ops[0..] == ops;
    } else {
      RunSplits(Apply(t, ops[0].0, ops[0].1).tables, ops[1..], i - 1);
      assert ops[..i][1..] == ops[1..][..i - 1];
      assert ops[i..] == ops[1..][i - 1..];
    }
  }

  /** Call `i` of the run is a prepare that was accepted. */
  ghost predicate AcceptedAt(t: Tables, ops: seq<(Op, Time)>, i: nat) {
    i < |ops| && ops[i].0.OpPrepare? && PrepareStep(Run(t, ops[..i]), ops[i].0.assignment, ops[i].1).result.Ok?
  }

  /**
   Between any two accepted assignments of one job, in any run: the later token is not smaller, and an
   equal token means the same attempt, key and payload.
   */
  lemma AcceptedTokensNeverFall(t: Tables, ops: seq<(Op, Time)>, i: nat, j: nat)
    requires Consistent(t) && i < j && AcceptedAt(t, ops, i) && AcceptedAt(t, ops, j)
    requires ops[i].0.assignment.job == ops[j].0.assignment.job
    ensures var a, b := ops[i].0.assignment, ops[j].0.assignment;
            && a.token <= b.token
            && (a.token == b.token ==> a.attempt == b.attempt && a.key == b.key && PayloadOf(a) == PayloadOf(b))
  {
    hide Consistent;
    var before := Run(t, ops[..i]);
    var a := ops[i].0.assignment;
    RunKeepsTables(t, ops[..i]);
    var after := PrepareStep(before, a, ops[i].1).tables;
    PrepareKeepsTables(before, a, ops[i].1);
    PrepareJobs(before, a, ops[i].1);
    assert after.jobs[a.job] == JobFence(a.token, a.attempt, a.key, PayloadOf(a));
    RunSplits(t, ops[..j], i);
    assert ops[..j][..i] == ops[..i];
    assert Run(before, ops[..j][i..]) == Run(after, ops[..j][i..][1..]);
    RunKeepsTables(after, ops[..j][i..][1..]);
  }

  /** An attempt and its (job, key) pair name each other, so `renew_lease` can find only one batch. */
  lemma OneKeyPerAttempt(t: Tables, k: (JobId, Key), l: (JobId, Key))
    requires Consistent(t) && k in t.keys && l in t.keys
    ensures t.keys[k].attempt == t.keys[l].attempt <==> k == l
  {
    assert KeyOk(t, k) && KeyOk(t, l);
  }

  /** Only the job's current owner can renew, and only before its deadline. */
  lemma RenewIffOwner(t: Tables, job: JobId, attempt: AttemptId, token: int, lease: Time, now: Time)
    requires Consistent(t)
    ensures RenewStep(t, job, attempt, token, lease, now).result.Ok? <==>
              && job in t.jobs && t.jobs[job].attempt == attempt && t.jobs[job].token == token
              && attempt in t.attempts && t.attempts[attempt].lease.Some? && now < t.attempts[attempt].lease.value && now < lease
    ensures RenewStep(t, job, attempt, token, lease, now).result.Ok? ==>
              forall a | a in t.attempts && t.attempts[a].job == job :: t.attempts[a].token <= token
  {
    if attempt in t.attempts { assert AttemptOk(t, attempt); }
    if job in t.jobs { assert OwnerOk(t, job); }
    forall a | a in t.attempts && t.attempts[a].job == job && job in t.jobs
      ensures t.attempts[a].token <= t.jobs[job].token
    {
      assert AttemptOk(t, a);
    }
  }

  // ---------------------------------------------------------------- an expired lease

  predicate Expired(t: Tables, attempt: AttemptId, now: Time) {
    attempt in t.attempts && Lapsed(t.attempts[attempt].lease, now)
  }

  /** The attempt a call is about, if it is about one. */
  function AttemptOf(op: Op): Option<AttemptId> {
    match op
    case OpPrepare(a) => Some(a.attempt)
    case OpRenew(_, attempt, _, _) => Some(attempt)
    case OpBind(_, _, _) => None
  }

  lemma ExpiredRefusesPrepare(t: Tables, a: Assignment, attempt: AttemptId, now: Time)
    requires Expired(t, attempt, now)
    ensures a.attempt == attempt ==> PrepareStep(t, a, now).result.Err?
    ensures var t' := PrepareStep(t, a, now).tables; attempt in t'.attempts && t'.attempts[attempt] == t.attempts[attempt]
  {
    PrepareTouchesOne(t, a, now, attempt);
    if a.attempt == attempt { ExpiredIsNotPrepared(t, a, now); }
    hide PrepareStep;
  }

  lemma ExpiredIsNotPrepared(t: Tables, a: Assignment, now: Time)
    requires Expired(t, a.attempt, now)
    ensures PrepareStep(t, a, now).result.Err?
  {
    hide RaiseJob, RaiseAttempt, RecordKey, JobRefusal, KeyRefusal;
  }

  lemma PrepareTouchesOne(t: Tables, a: Assignment, now: Time, o: AttemptId)
    requires o in t.attempts && (o != a.attempt || PrepareStep(t, a, now).result.Err?)
    ensures var t' := PrepareStep(t, a, now).tables; o in t'.attempts && t'.attempts[o] == t.attempts[o]
  {
    hide RaiseJob, RecordKey, JobRefusal, AttemptRefusal, KeyRefusal;
  }

  lemma ExpiredRefusesEverything(t: Tables, op: Op, attempt: AttemptId, now: Time)
    requires Expired(t, attempt, now)
    ensures AttemptOf(op) == Some(attempt) ==> Apply(t, op, now).result.Err?
    ensures attempt in Apply(t, op, now).tables.attempts && Apply(t, op, now).tables.attempts[attempt] == t.attempts[attempt]
  {
    match op
    case OpPrepare(a) =>
      hide PrepareStep;
      ExpiredRefusesPrepare(t, a, attempt, now);
    case OpRenew(job, other, token, lease) =>
      hide BoundBatch;
      ExpiredRefusesRenew(t, job, other, token, lease, attempt, now);
      hide RenewStep;
    case OpBind(_, _, _) =>
  }

  lemma ExpiredRefusesRenew(t: Tables, job: JobId, other: AttemptId, token: int, lease: Time, attempt: AttemptId, now: Time)
    requires Expired(t, attempt, now)
    ensures other == attempt ==> RenewStep(t, job, other, token, lease, now).result.Err?
    ensures var t' := RenewStep(t, job, other, token, lease, now).tables; attempt in t'.attempts && t'.attempts[attempt] == t.attempts[attempt]
  {
    RenewTouchesOne(t, job, other, token, lease, now);
    if other == attempt { ExpiredIsNotRenewed(t, job, attempt, token, lease, now); }
    hide RenewStep;
  }

  lemma ExpiredIsNotRenewed(t: Tables, job: JobId, attempt: AttemptId, token: int, lease: Time, now: Time)
    requires Expired(t, attempt, now)
    ensures RenewStep(t, job, attempt, token, lease, now).result.Err?
  {
    hide BoundBatch;
  }

  lemma RenewTouchesOne(t: Tables, job: JobId, other: AttemptId, token: int, lease: Time, now: Time)
    ensures var s := RenewStep(t, job, other, token, lease, now);
            && (s.result.Err? ==> s.tables == t)
            && (s.result.Ok? ==> other in t.attempts && s.tables == t.(attempts := t.attempts[other := t.attempts[other].(lease := Some(lease))]))
  {
    hide BoundBatch;
  }

  /** Once the deadline has passed, under a clock that never runs back, no call ever revives or changes the attempt. */
  lemma {:induction false} ExpiredIsAbsorbing(t: Tables, ops: seq<(Op, Time)>, attempt: AttemptId, now: Time)
    requires Expired(t, attempt, now) && forall i | 0 <= i < |ops| :: ops[i].1 >= now
    ensures attempt in Run(t, ops).attempts && Run(t, ops).attempts[attempt] == t.attempts[attempt]
    ensures forall i | 0 <= i < |ops| && AttemptOf(ops[i].0) == Some(attempt) ::
              Apply(Run(t, ops[..i]), ops[i].0, ops[i].1).result.Err?
    decreases ops
  {
    if ops != [] {
      var t' := Apply(t, ops[0].0, ops[0].1).tables;
      ExpiredRefusesEverything(t, ops[0].0, attempt, ops[0].1);
      ExpiredIsAbsorbing(t', ops[1..], attempt, now);
      forall i | 0 <= i < |ops| && AttemptOf(ops[i].0) == Some(attempt)
        ensures Apply(Run(t, ops[..i]), ops[i].0, ops[i].1).result.Err?
      {
        if i > 0 { assert ops[..i][1..] == ops[1..][..i - 1] && ops[1..][i - 1] == ops[i]; }
      }
    }
  }

  // ---------------------------------------------------------------- the tables as mutable state

  class FenceStore {
    var jobs: map<JobId, JobFence>
    var attempts: map<AttemptId, AttemptFence>
    var keys: map<(JobId, Key), Binding>

    function View(): Tables
      reads this
    {
      Tables(jobs, attempts, keys)
    }

    constructor ()
      ensures View() == Tables(map[], map[], map[]) && Consistent(View())
    {
      jobs, attempts, keys := map[], map[], map[];
    }

    /** Validate against the three tables, then raise each of them; a refusal rolls back. */
    method Prepare(a: Assignment, now: Time) returns (r: Result<Option<BatchId>>)
      requires Consistent(View())
      modifies this
      ensures Step(View(), r) == PrepareStep(old(View()), a, now)
      ensures Consistent(View()) && Grows(old(View()), View())
    {
      PrepareKeepsTables(View(), a, now);
      var refusal := Refusal(a, now);
      if refusal.Some? { return Err(refusal.value); }
      var replay := if (a.job, a.key) in keys then keys[(a.job, a.key)].batch else None;
      Raise(a);
      r := Ok(replay);
    }

    /** The checks, in the order they are made: the assignment, the job's fence, the attempt's, the key's. */
    method Refusal(a: Assignment, now: Time) returns (r: Option<string>)
      ensures r.Some? ==> PrepareStep(View(), a, now) == Refuse(View(), r.value)
      ensures r.None? ==> PrepareStep(View(), a, now).result.Ok?
    {
      hide RaiseJob, RaiseAttempt, RecordKey;
      if a.token < 1 { return Some("fencing_token must be a positive integer"); }
      if a.key == "" || |a.key| > 512 { return Some("idempotency_key must be between 1 and 512 characters"); }
      if a.lease.Some? && a.lease.value <= now { return Some("lease has already expired"); }
      r := JobCheck(a);
      if r.Some? { return; }
      r := AttemptCheck(a, now);
      if r.Some? { return; }
      if (a.job, a.key) in keys && (keys[(a.job, a.key)].attempt != a.attempt || keys[(a.job, a.key)].payload != PayloadOf(a)) {
        r := Some("idempotency identity was already accepted for a different payload");
      }
    }

    method JobCheck(a: Assignment) returns (r: Option<string>)
      ensures r == JobRefusal(View(), a)
    {
      if a.job !in jobs { return None; }
      var fence := jobs[a.job];
      if a.token < fence.token { return Some("stale fencing token"); }
      if a.token == fence.token && (fence.attempt != a.attempt || fence.key != a.key || fence.payload != PayloadOf(a)) {
        return Some("fencing_token was already observed for a different assignment");
      }
      r := None;
    }

    method AttemptCheck(a: Assignment, now: Time) returns (r: Option<string>)
      ensures r == AttemptRefusal(View(), a, now)
    {
      if a.attempt !in attempts { return None; }
      var fence := attempts[a.attempt];
      if a.token < fence.token { return Some("stale fencing token"); }
      if fence.job != a.job || fence.key != a.key || fence.payload != PayloadOf(a) {
        return Some("attempt identity was already accepted for a different assignment");
      }
      if fence.lease.Some? && fence.lease.value <= now { return Some("lease has expired and cannot be revived"); }
      r := None;
    }

    method Raise(a: Assignment)
      modifies this
      ensures jobs == RaiseJob(old(View()), a) && attempts == RaiseAttempt(old(View()), a) && keys == RecordKey(old(View()), a)
    {
      if a.job !in jobs || a.token > jobs[a.job].token {
        jobs := jobs[a.job := JobFence(a.token, a.attempt, a.key, PayloadOf(a))];
      }
      if a.attempt !in attempts {
        attempts := attempts[a.attempt := AttemptFence(a.job, a.token, a.key, PayloadOf(a), a.lease)];
      } else if a.token > attempts[a.attempt].token {
        attempts := attempts[a.attempt := attempts[a.attempt].(token := a.token, lease := a.lease)];
      } else if a.lease.Some? {
        attempts := attempts[a.attempt := attempts[a.attempt].(lease := a.lease)];
      }
      if (a.job, a.key) !in keys {
        keys := keys[(a.job, a.key) := Binding(a.attempt, PayloadOf(a), None)];
      }
    }

    /** The newest idempotency row of an attempt; consistency leaves only one to find. */
    method FindBatch(attempt: AttemptId) returns (r: Option<BatchId>)
      requires Consistent(View()) && attempt in attempts
      ensures r == BoundBatch(View(), attempt)
    {
      assert AttemptOk(View(), attempt);
      var todo := keys.Keys;
      r := None;
      while todo != {}
        invariant todo <= keys.Keys
        invariant (attempts[attempt].job, attempts[attempt].key) in todo
        decreases todo
      {
        var k :| k in todo;
        assert KeyOk(View(), k);
        if keys[k].attempt == attempt { return keys[k].batch; }
        todo := todo - {k};
      }
    }

    method Renew(job: JobId, attempt: AttemptId, token: int, lease: Time, now: Time) returns (r: Result<Option<BatchId>>)
      requires Consistent(View())
      modifies this`attempts
      ensures Step(View(), r) == RenewStep(old(View()), job, attempt, token, lease, now)
      ensures Consistent(View()) && Grows(old(View()), View())
    {
      RenewKeepsTables(View(), job, attempt, token, lease, now);
      if token < 1 { return Err("fencing_token must be a positive integer"); }
      if lease <= now { return Err("renewed lease must expire in the future"); }
      if attempt !in attempts || job !in jobs { return Err("unknown execution attempt"); }
      if attempts[attempt].job != job || attempts[attempt].token != token
         || jobs[job].attempt != attempt || jobs[job].token != token
      {
        return Err("stale fencing token");
      }
      if attempts[attempt].lease.None? { return Err("attempt has no renewable lease"); }
      if attempts[attempt].lease.value <= now { return Err("lease has expired and cannot be revived"); }
      var batch := FindBatch(attempt);
      attempts := attempts[attempt := attempts[attempt].(lease := Some(lease))];
      r := Ok(batch);
    }

    method Bind(job: JobId, key: Key, batch: BatchId) returns (r: Result<Option<BatchId>>)
      requires Consistent(View())
      modifies this`keys
      ensures Step(View(), r) == BindStep(old(View()), job, key, batch)
      ensures Consistent(View()) && Grows(old(View()), View())
    {
      BindKeepsTables(View(), job, key, batch);
      if (job, key) !in keys { return Ok(None); }
      keys := keys[(job, key) := keys[(job, key)].(batch := Some(batch))];
      r := Ok(Some(batch));
    }
  }
}

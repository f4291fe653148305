/**
 The broker's idempotent submission on top of the fence tables: one batch per client request id, for
 ever.  The id's own row outlives the batch, so a submission replayed after the batch was cleared from
 the history still creates no work.
 */
module Submission {
  import opened Outcomes
  import opened Fences

  /**
   An id derived from an execution is a digest of "job:attempt:key digest"; the digest of the key has a
   fixed length and no colon, so the text before it is all that can be ambiguous.  A caller may supply
   any id, including a derived one.
   */
  datatype ClientId = Derived(owner: string, key: Key) | Supplied(text: string)

  function Owner(job: JobId, attempt: AttemptId): string {
    job + ":" + attempt
  }

  function ClientOf(a: Assignment): ClientId {
    Derived(Owner(a.job, a.attempt), a.key)
  }

  /** The request fingerprint: everything but the fencing token, the lease included. */
  datatype Fingerprint =
    | Plain(content: Content)
    | Fenced(content: Content, job: JobId, attempt: AttemptId, key: Key, lease: Option<Time>)

  function FingerprintOf(a: Assignment): Fingerprint {
    Fenced(a.content, a.job, a.attempt, a.key, a.lease)
  }

  /** `admissible` stands for the checks made at the door, which leave no trace when they fail. */
  datatype Envelope = Envelope(content: Content, client: Option<ClientId>, execution: Option<Assignment>, admissible: bool)

  /** `open` is the ledger's mark of a batch with unfinished items: those are what a restart reloads. */
  datatype Batch = Batch(client: Option<ClientId>, fingerprint: Option<Fingerprint>, evidence: Option<Assignment>, items: seq<string>, open: bool)

  /** The permanent row of one client request id. */
  datatype Request = Request(fingerprint: Fingerprint, batch: BatchId, items: nat)

  /** Batches as saved; `live` are those the broker also holds in memory. */
  datatype Hub = Hub(tables: Tables, batches: map<BatchId, Batch>, requests: map<ClientId, Request>, live: set<BatchId>)

  const EMPTY := Hub(Tables(map[], map[], map[]), map[], map[], {})

  datatype Receipt = Receipt(batch: BatchId, items: nat, replayed: bool)

  datatype SubmitStep = SubmitStep(hub: Hub, result: Result<Receipt>)

  // ---------------------------------------------------------------- submission

  ghost predicate Holds(h: Hub, c: ClientId) {
    exists b | b in h.batches && b in h.live :: h.batches[b].client == Some(c)
  }

  function Recorded(x: Batch, b: BatchId): Request {
    Request(if x.fingerprint.Some? then x.fingerprint.value else Plain(Content([], "")), b, |x.items|)
  }

  /** The record a replay is compared with: a live batch that carries the id, else what the id's own row leads to. */
  ghost function Find(h: Hub, c: ClientId): Option<Request> {
    if Holds(h, c) then
      var b :| b in h.batches && b in h.live && h.batches[b].client == Some(c);
      Some(Recorded(h.batches[b], b))
    else if c in h.requests then
      Some(if h.requests[c].batch in h.batches then Recorded(h.batches[h.requests[c].batch], h.requests[c].batch) else h.requests[c])
    else None
  }

  /** Identity and fingerprint of an envelope as the broker sees it after `prepare`. */
  function ClientIdOf(e: Envelope): Option<ClientId> {
    if e.execution.Some? then Some(ClientOf(e.execution.value)) else e.client
  }

  function FingerprintIn(e: Envelope): Fingerprint {
    if e.execution.Some? then FingerprintOf(e.execution.value) else Plain(e.content)
  }

  /** Keep the newest fence as the batch's evidence. */
  function Refreshed(batches: map<BatchId, Batch>, id: BatchId, e: Envelope): map<BatchId, Batch> {
    if id in batches && batches[id].evidence.Some? && e.execution.Some? && e.execution.value.token > batches[id].evidence.value.token
    then batches[id := batches[id].(evidence := e.execution)] else batches
  }

  /** First durable write: the fence. */
  function Entered(h: Hub, e: Envelope, now: Time): Result<Hub> {
    if !e.admissible then Err("refused at the door")
    else if e.execution.None? then Ok(h)
    else
      var p := PrepareStep(h.tables, e.execution.value, now);
      if p.result.Err? then Err(p.result.code) else Ok(h.(tables := p.tables))
  }

  function Created(h: Hub, e: Envelope, newId: BatchId): SubmitStep {
    var c := ClientIdOf(e);
    var b := Batch(c, if c.Some? then Some(FingerprintIn(e)) else None, e.execution, e.content.items, true);
    SubmitStep(
      h.(batches := h.batches[newId := b], live := h.live + {newId},
         requests := if c.Some? && c.value !in h.requests
                     then h.requests[c.value := Request(FingerprintIn(e), newId, |e.content.items|)] else h.requests),
      Ok(Receipt(newId, |e.content.items|, false)))
  }

  /** Second durable write, the ledger's: a new batch with its request row, or a replayed batch's newer fence. */
  ghost function Saved(h: Hub, e: Envelope, newId: BatchId): SubmitStep {
    if ClientIdOf(e).Some? && Find(h, ClientIdOf(e).value).Some? then
      var r := Find(h, ClientIdOf(e).value).value;
      if r.fingerprint != FingerprintIn(e) then SubmitStep(h, Err("clientRequestId was already used for a different batch"))
      else SubmitStep(h.(batches := Refreshed(h.batches, r.batch, e)), Ok(Receipt(r.batch, r.items, true)))
    else Created(h, e, newId)
  }

  /** Third durable write: the idempotency row names the batch. */
  function Bound(h: Hub, e: Envelope, batch: BatchId): Hub {
    if e.execution.Some? then h.(tables := BindStep(h.tables, e.execution.value.job, e.execution.value.key, batch).tables) else h
  }

  ghost function Admit(h: Hub, e: Envelope, newId: BatchId): SubmitStep {
    var s := Saved(h, e, newId);
    if s.result.Ok? then SubmitStep(Bound(s.hub, e, s.result.value.batch), s.result) else s
  }

  ghost function Submit(h: Hub, e: Envelope, newId: BatchId, now: Time): SubmitStep {
    var f := Entered(h, e, now);
    if f.Err? then SubmitStep(h, Err(f.code)) else Admit(f.value, e, newId)
  }

  /** A Hub restart keeps what was saved and reloads the unfinished batches. */
  function Reloaded(h: Hub): Hub {
    h.(live := set b | b in h.batches && h.batches[b].open)
  }

  /** A submission cut off by a crash after its first durable write, or after its second. */
  ghost function CutShort(h: Hub, e: Envelope, newId: BatchId, now: Time, saved: bool): Hub {
    var f := Entered(h, e, now);
    Reloaded(if f.Err? then h else if saved then Saved(f.value, e, newId).hub else f.value)
  }

  // ---------------------------------------------------------------- renewal

  predicate Runs(h: Hub, b: BatchId, attempt: AttemptId) {
    b in h.batches && h.batches[b].evidence.Some? && h.batches[b].evidence.value.attempt == attempt
  }

  /** The batch a renewal is applied to: the one the idempotency row names, else one in memory that runs the attempt. */
  ghost function Target(h: Hub, named: Option<BatchId>, attempt: AttemptId): Option<BatchId> {
    if named.Some? && named.value in h.batches then named
    else if exists b | b in h.live :: Runs(h, b, attempt) then
      var b :| b in h.live && Runs(h, b, attempt);
      Some(b)
    else None
  }

  /** A batch takes the renewed lease, and is in memory from then on. */
  function Extended(h: Hub, id: Option<BatchId>, lease: Time): Hub {
    if id.Some? && id.value in h.batches && h.batches[id.value].evidence.Some?
    then h.(batches := h.batches[id.value := h.batches[id.value].(evidence := Some(h.batches[id.value].evidence.value.(lease := Some(lease))))],
            live := h.live + {id.value})
    else h
  }

  ghost function RenewedStep(h: Hub, job: JobId, attempt: AttemptId, token: int, lease: Time, now: Time): Hub {
    var p := RenewStep(h.tables, job, attempt, token, lease, now);
    if p.result.Err? then h else Extended(h.(tables := p.tables), Target(h, p.result.value, attempt), lease)
  }

  // ---------------------------------------------------------------- runs

  datatype Event =
    | Submitted(e: Envelope, newId: BatchId)
    | CutOff(e: Envelope, newId: BatchId, saved: bool)
    | LeaseRenewed(job: JobId, attempt: AttemptId, token: int, lease: Time)
    | RenewalCutOff(job: JobId, attempt: AttemptId, token: int, lease: Time)
    | PreparedElsewhere(a: Assignment)
    | Progressed(id: BatchId, open: bool)
    | Cleared(id: BatchId)
    | Restarted

  /** An envelope's execution is bound to the envelope's own content. */
  predicate WellFormed(e: Envelope) {
    e.execution.Some? ==> e.execution.value.content == e.content
  }

  predicate Unused(h: Hub, id: BatchId) {
    id !in h.batches && forall c | c in h.requests :: h.requests[c].batch != id
  }

  /** One event; a submission's new batch id is assumed unused.  Only a batch in memory makes progress. */
  ghost function Next(h: Hub, ev: Event, now: Time): SubmitStep {
    match ev
    case Submitted(e, newId) => if WellFormed(e) && Unused(h, newId) then Submit(h, e, newId, now) else SubmitStep(h, Err("no such event"))
    case CutOff(e, newId, saved) => SubmitStep(if WellFormed(e) && Unused(h, newId) then CutShort(h, e, newId, now, saved) else h, Err("cut off"))
    case LeaseRenewed(job, attempt, token, lease) => SubmitStep(RenewedStep(h, job, attempt, token, lease, now), Err("renewed"))
    case RenewalCutOff(job, attempt, token, lease) =>
      SubmitStep(Reloaded(h.(tables := RenewStep(h.tables, job, attempt, token, lease, now).tables)), Err("cut off"))
    case PreparedElsewhere(a) => SubmitStep(h.(tables := PrepareStep(h.tables, a, now).tables), Err("prepared elsewhere"))
    case Progressed(id, open) =>
      SubmitStep(if id in h.live && id in h.batches then h.(batches := h.batches[id := h.batches[id].(open := open)]) else h, Err("progressed"))
    case Cleared(id) => SubmitStep(h.(batches := h.batches - {id}, live := h.live - {id}), Err("cleared"))
    case Restarted => SubmitStep(Reloaded(h), Err("restarted"))
  }

  ghost function Run(h: Hub, evs: seq<(Event, Time)>): Hub
    decreases evs
  {
    if evs == [] then h else Run(Next(h, evs[0].0, evs[0].1).hub, evs[1..])
  }

  // ---------------------------------------------------------------- invariant

  /** A batch that carries a client id is the one its permanent row names; an unfinished one is in memory. */
  predicate BatchOk(h: Hub, b: BatchId)
    requires b in h.batches
  {
    var x := h.batches[b];
    && (x.client.Some? <==> x.fingerprint.Some?)
    && (x.client.Some? ==>
          x.client.value in h.requests && h.requests[x.client.value] == Request(x.fingerprint.value, b, |x.items|))
    && (x.evidence.Some? ==>
          var e := x.evidence.value;
          && x.client == Some(ClientOf(e)) && x.fingerprint.Some? && x.fingerprint.value.Fenced? && SameWork(x.fingerprint.value, e)
          && e.attempt in h.tables.attempts && e.token <= h.tables.attempts[e.attempt].token)
    && (x.fingerprint.Some? && x.fingerprint.value.Fenced? ==> x.evidence.Some?)
    && (x.open ==> b in h.live)
  }

  predicate SameWork(p: Fingerprint, e: Assignment)
    requires p.Fenced?
  {
    p.job == e.job && p.attempt == e.attempt && p.key == e.key && p.content == e.content
  }

  /** A fenced request has its idempotency row, which names its batch unless a crash came before that write. */
  predicate RequestOk(h: Hub, c: ClientId)
    requires c in h.requests
  {
    && (h.requests[c].batch in h.batches ==> h.batches[h.requests[c].batch].client == Some(c))
    && (h.requests[c].fingerprint.Fenced? ==>
      var p := h.requests[c].fingerprint;
      && c == Derived(Owner(p.job, p.attempt), p.key) && (p.job, p.key) in h.tables.keys
      && var k := h.tables.keys[(p.job, p.key)];
      && k.attempt == p.attempt && k.payload == Payload(p.job, p.attempt, p.content)
      && (k.batch == None || k.batch == Some(h.requests[c].batch)))
  }

  /** A key row that names a batch got it from the request with the client id of that row. */
  predicate KeyNamed(h: Hub, k: (JobId, Key))
    requires k in h.tables.keys
  {
    h.tables.keys[k].batch.Some? ==>
      var c := Derived(Owner(k.0, h.tables.keys[k].attempt), k.1);
      && c in h.requests && h.requests[c].batch == h.tables.keys[k].batch.value
      && h.requests[c].fingerprint.Fenced? && h.requests[c].fingerprint.job == k.0
  }

  ghost predicate KeysNamed(h: Hub) {
    forall k {:trigger KeyNamed(h, k)} | k in h.tables.keys :: KeyNamed(h, k)
  }

  ghost predicate Core(h: Hub) {
    && Consistent(h.tables) && h.live <= h.batches.Keys
    && (forall b {:trigger BatchOk(h, b)} | b in h.batches :: BatchOk(h, b))
    && (forall c {:trigger RequestOk(h, c)} | c in h.requests :: RequestOk(h, c))
  }

  ghost predicate Inv(h: Hub) {
    Core(h) && KeysNamed(h)
  }

  /** Client ids are never forgotten or redirected. */
  ghost predicate Remembers(h: Hub, h': Hub) {
    forall c | c in h.requests :: c in h'.requests && h'.requests[c] == h.requests[c]
  }

  // ---------------------------------------------------------------- the invariant is kept: fences

  /** Tables that only move on, and name no batch they did not name, keep everything. */
  lemma TablesMoveOn(h: Hub, t: Tables)
    requires Inv(h) && Consistent(t) && Grows(h.tables, t)
    requires forall k | k in t.keys :: t.keys[k].batch == if k in h.tables.keys then h.tables.keys[k].batch else None
    ensures Inv(h.(tables := t))
  {
    hide Consistent;
    var h' := h.(tables := t);
    forall b | b in h'.batches ensures BatchOk(h', b) {
      assert BatchOk(h, b);
      if h.batches[b].evidence.Some? {
        var a := h.batches[b].evidence.value.attempt;
        assert AttemptGrows(h.tables.attempts[a], t.attempts[a]);
      }
    }
    forall c | c in h'.requests ensures RequestOk(h', c) {
      assert RequestOk(h, c);
      if h.requests[c].fingerprint.Fenced? {
        var k := (h.requests[c].fingerprint.job, h.requests[c].fingerprint.key);
        assert KeyGrows(h.tables.keys[k], t.keys[k]);
      }
    }
    forall k | k in h'.tables.keys ensures KeyNamed(h', k) {
      if k in h.tables.keys { assert KeyNamed(h, k) && KeyGrows(h.tables.keys[k], t.keys[k]); }
    }
  }

  lemma PrepareKeysOnly(t: Tables, a: Assignment, now: Time)
    ensures PrepareStep(t, a, now).tables.keys == t.keys || PrepareStep(t, a, now).tables.keys == RecordKey(t, a)
  {
    hide RecordKey, RaiseJob, RaiseAttempt, JobRefusal, AttemptRefusal, KeyRefusal;
  }

  lemma PrepareKeepsBindings(t: Tables, a: Assignment, now: Time)
    ensures var t' := PrepareStep(t, a, now).tables;
            && (forall k | k in t.keys :: k in t'.keys && t'.keys[k] == t.keys[k])
            && (forall k | k in t'.keys && k !in t.keys :: t'.keys[k].batch == None)
  {
    hide PrepareStep;
    PrepareKeysOnly(t, a, now);
  }

  lemma PrepareKeepsInv(h: Hub, a: Assignment, now: Time)
    requires Inv(h)
    ensures Inv(h.(tables := PrepareStep(h.tables, a, now).tables))
  {
    hide PrepareStep;
    assert Consistent(h.tables);
    PrepareKeepsTables(h.tables, a, now);
    PrepareKeepsBindings(h.tables, a, now);
    hide Consistent, Inv;
    TablesMoveOn(h, PrepareStep(h.tables, a, now).tables);
  }

  /** The tables after a `prepare` that accepted `a`. */
  ghost predicate JustPrepared(t: Tables, a: Assignment) {
    && a.job in t.jobs && t.jobs[a.job] == JobFence(a.token, a.attempt, a.key, PayloadOf(a))
    && a.attempt in t.attempts && t.attempts[a.attempt].token == a.token
    && (a.job, a.key) in t.keys && t.keys[(a.job, a.key)].attempt == a.attempt && t.keys[(a.job, a.key)].payload == PayloadOf(a)
  }

  lemma PrepareAccepts(t: Tables, a: Assignment, now: Time)
    requires Consistent(t) && PrepareStep(t, a, now).result.Ok?
    ensures JustPrepared(PrepareStep(t, a, now).tables, a)
  {
    hide PrepareStep;
    assert a.job in t.jobs ==> OwnerOk(t, a.job);
    assert a.attempt in t.attempts ==> AttemptOk(t, a.attempt);
    PrepareEffect(t, a, now);
  }

  /** What the broker's later writes rely on. */
  ghost predicate Ready(h: Hub, e: Envelope) {
    WellFormed(e) && (e.execution.Some? ==> JustPrepared(h.tables, e.execution.value))
  }

  lemma EnteredIsReady(h: Hub, e: Envelope, now: Time)
    requires Inv(h) && WellFormed(e) && Entered(h, e, now).Ok?
    ensures var g := Entered(h, e, now).value;
            && Inv(g) && Ready(g, e) && g.(tables := h.tables) == h && Grows(h.tables, g.tables)
            && (e.execution.None? ==> g == h)
            && (e.execution.Some? ==> g.tables == PrepareStep(h.tables, e.execution.value, now).tables)
  {
    assert Consistent(h.tables);
    if e.execution.Some? {
      PrepareKeepsInv(h, e.execution.value, now);
      PrepareKeepsTables(h.tables, e.execution.value, now);
      PrepareAccepts(h.tables, e.execution.value, now);
    } else {
      NothingGrows(h.tables);
    }
    hide Inv, PrepareStep, Consistent, Grows;
  }

  lemma NothingGrows(t: Tables)
    ensures Grows(t, t)
  {
  }

  // ---------------------------------------------------------------- the invariant is kept: saving and binding

  /** What the lookup can find is exactly the permanent row. */
  lemma FindIsTheRow(h: Hub, c: ClientId)
    requires Inv(h)
    ensures Find(h, c) == if c in h.requests then Some(h.requests[c]) else None
  {
    hide Consistent;
    if Holds(h, c) {
      var r := Find(h, c).value;
      assert r.batch in h.batches && h.batches[r.batch].client == Some(c);
      assert BatchOk(h, r.batch);
    } else if c in h.requests {
      assert RequestOk(h, c);
      if h.requests[c].batch in h.batches { assert BatchOk(h, h.requests[c].batch); }
    }
  }

  /** Naming a request's own batch in its key row, for the first time or again. */
  lemma BindKeepsInv(h: Hub, e: Envelope, c: ClientId)
    requires Inv(h) && Ready(h, e) && ClientIdOf(e) == Some(c) && c in h.requests && h.requests[c].fingerprint == FingerprintIn(e)
    ensures Inv(Bound(h, e, h.requests[c].batch)) && Grows(h.tables, Bound(h, e, h.requests[c].batch).tables)
  {
    assert Consistent(h.tables);
    if e.execution.Some? {
      var a := e.execution.value;
      var k := (a.job, a.key);
      var b := h.requests[c].batch;
      var h' := Bound(h, e, b);
      BindKeepsTables(h.tables, a.job, a.key, b);
      assert h'.tables == h.tables.(keys := h.tables.keys[k := h.tables.keys[k].(batch := Some(b))]);
      hide Consistent;
      assert RequestOk(h, c);
      forall x | x in h'.batches ensures BatchOk(h', x) { assert BatchOk(h, x); }
      forall d | d in h'.requests ensures RequestOk(h', d) { assert RequestOk(h, d); }
      forall l | l in h'.tables.keys ensures KeyNamed(h', l) { assert KeyNamed(h, l); }
    } else {
      NothingGrows(h.tables);
    }
  }

  lemma RefreshKeepsInv(h: Hub, id: BatchId, e: Envelope)
    requires Inv(h) && Ready(h, e) && id in h.batches
    requires e.execution.Some? ==> h.batches[id].fingerprint == Some(FingerprintOf(e.execution.value))
    ensures Inv(h.(batches := Refreshed(h.batches, id, e)))
  {
    hide Consistent;
    var h' := h.(batches := Refreshed(h.batches, id, e));
    forall b | b in h'.batches ensures BatchOk(h', b) { assert BatchOk(h, b); }
    forall c | c in h'.requests ensures RequestOk(h', c) { assert RequestOk(h, c); }
    forall k | k in h'.tables.keys ensures KeyNamed(h', k) { assert KeyNamed(h, k); }
  }

  /** The batch a row names, while it exists, carries that row's fingerprint. */
  lemma BatchHasFingerprint(h: Hub, c: ClientId)
    requires Inv(h) && c in h.requests && h.requests[c].batch in h.batches
    ensures h.batches[h.requests[c].batch].fingerprint == Some(h.requests[c].fingerprint)
  {
    assert RequestOk(h, c);
    assert BatchOk(h, h.requests[c].batch);
  }

  lemma CreateKeepsInv(h: Hub, e: Envelope, newId: BatchId)
    requires Inv(h) && Ready(h, e) && Unused(h, newId)
    requires ClientIdOf(e).Some? ==> ClientIdOf(e).value !in h.requests
    ensures Inv(Created(h, e, newId).hub) && Remembers(h, Created(h, e, newId).hub)
  {
    hide Consistent;
    var h' := Created(h, e, newId).hub;
    forall b | b in h'.batches ensures BatchOk(h', b) {
      if b != newId { assert BatchOk(h, b); }
    }
    forall k | k in h'.tables.keys ensures KeyNamed(h', k) { assert KeyNamed(h, k); }
    if e.execution.Some? { assert KeyNamed(h, (e.execution.value.job, e.execution.value.key)); }
    forall c | c in h'.requests ensures RequestOk(h', c) {
      if c in h.requests { assert RequestOk(h, c); }
    }
  }

  /** What a save leaves: the row of the client id, its batch, and whether it was there before. */
  ghost predicate Answers(h: Hub, s: SubmitStep, e: Envelope) {
    s.result.Ok? && ClientIdOf(e).Some? ==>
      var c := ClientIdOf(e).value;
      && c in s.hub.requests && s.hub.requests[c] == Request(FingerprintIn(e), s.result.value.batch, s.result.value.items)
      && (s.result.value.replayed <==> c in h.requests)
  }

  lemma SavedKeepsInv(h: Hub, e: Envelope, newId: BatchId)
    requires Inv(h) && Ready(h, e) && Unused(h, newId)
    ensures var s := Saved(h, e, newId);
            && Inv(s.hub) && Remembers(h, s.hub) && s.hub.tables == h.tables && Answers(h, s, e)
            && (s.result.Err? ==> s.hub == h)
  {
    var c := ClientIdOf(e);
    if c.Some? { FindIsTheRow(h, c.value); }
    hide Find;
    if c.Some? && c.value in h.requests {
      var r := h.requests[c.value];
      if r.fingerprint == FingerprintIn(e) && r.batch in h.batches {
        BatchHasFingerprint(h, c.value);
        RefreshKeepsInv(h, r.batch, e);
      }
    } else {
      CreateKeepsInv(h, e, newId);
    }
    hide Inv, Ready;
  }

  lemma AdmitKeepsInv(h: Hub, e: Envelope, newId: BatchId)
    requires Inv(h) && Ready(h, e) && Unused(h, newId)
    ensures var s := Admit(h, e, newId);
            Inv(s.hub) && Remembers(h, s.hub) && Answers(h, s, e) && Grows(h.tables, s.hub.tables)
  {
    SavedKeepsInv(h, e, newId);
    NothingGrows(h.tables);
    var s := Saved(h, e, newId);
    hide Inv, Saved;
    if s.result.Ok? && ClientIdOf(e).Some? { BindKeepsInv(s.hub, e, ClientIdOf(e).value); }
    hide Ready, Grows;
  }

  lemma SubmitKeepsInv(h: Hub, e: Envelope, newId: BatchId, now: Time)
    requires Inv(h) && WellFormed(e) && Unused(h, newId)
    ensures var s := Submit(h, e, newId, now);
            Inv(s.hub) && Remembers(h, s.hub) && Answers(h, s, e) && Grows(h.tables, s.hub.tables)
  {
    hide Inv, Admit;
    NothingGrows(h.tables);
    if Entered(h, e, now).Ok? {
      EnteredIsReady(h, e, now);
      var g := Entered(h, e, now).value;
      AdmitKeepsInv(g, e, newId);
      GrowsTransitive(h.tables, g.tables, Admit(g, e, newId).hub.tables);
    }
    hide Entered, Grows, Ready;
  }

  lemma ReloadKeepsInv(h: Hub)
    requires Inv(h)
    ensures Inv(Reloaded(h))
  {
    hide Consistent;
    var h' := Reloaded(h);
    forall b | b in h'.batches ensures BatchOk(h', b) { assert BatchOk(h, b); }
    forall c | c in h'.requests ensures RequestOk(h', c) { assert RequestOk(h, c); }
    forall k | k in h'.tables.keys ensures KeyNamed(h', k) { assert KeyNamed(h, k); }
  }

  lemma CutKeepsInv(h: Hub, e: Envelope, newId: BatchId, now: Time, saved: bool)
    requires Inv(h) && WellFormed(e) && Unused(h, newId)
    ensures var h' := CutShort(h, e, newId, now, saved); Inv(h') && Remembers(h, h') && Grows(h.tables, h'.tables)
  {
    hide Inv, Saved;
    NothingGrows(h.tables);
    ReloadKeepsInv(h);
    if Entered(h, e, now).Ok? {
      EnteredIsReady(h, e, now);
      var g := Entered(h, e, now).value;
      ReloadKeepsInv(g);
      SavedKeepsInv(g, e, newId);
      ReloadKeepsInv(Saved(g, e, newId).hub);
    }
    hide Entered, Grows, Ready;
  }

  // ---------------------------------------------------------------- the invariant is kept: renewals and the rest

  lemma RenewLeavesKeys(t: Tables, job: JobId, attempt: AttemptId, token: int, lease: Time, now: Time)
    ensures RenewStep(t, job, attempt, token, lease, now).tables.keys == t.keys
  {
  }

  lemma RenewTablesKeepInv(h: Hub, job: JobId, attempt: AttemptId, token: int, lease: Time, now: Time)
    requires Inv(h)
    ensures var t := RenewStep(h.tables, job, attempt, token, lease, now).tables; Inv(h.(tables := t)) && Grows(h.tables, t)
  {
    hide RenewStep, Grows;
    RenewKeepsTables(h.tables, job, attempt, token, lease, now);
    RenewLeavesKeys(h.tables, job, attempt, token, lease, now);
    hide Inv;
    TablesMoveOn(h, RenewStep(h.tables, job, attempt, token, lease, now).tables);
  }

  lemma ExtendKeepsInv(h: Hub, id: Option<BatchId>, lease: Time)
    requires Inv(h)
    ensures Inv(Extended(h, id, lease))
  {
    hide Consistent;
    var h' := Extended(h, id, lease);
    forall b | b in h'.batches ensures BatchOk(h', b) { assert BatchOk(h, b); }
    forall c | c in h'.requests ensures RequestOk(h', c) { assert RequestOk(h, c); }
    forall k | k in h'.tables.keys ensures KeyNamed(h', k) { assert KeyNamed(h, k); }
  }

  lemma ShelfKeepsInv(h: Hub, id: BatchId, open: bool)
    requires Inv(h)
    ensures Inv(h.(batches := h.batches - {id}, live := h.live - {id}))
    ensures id in h.live && id in h.batches ==> Inv(h.(batches := h.batches[id := h.batches[id].(open := open)]))
  {
    hide Consistent;
    var cleared := h.(batches := h.batches - {id}, live := h.live - {id});
    forall b | b in cleared.batches ensures BatchOk(cleared, b) { assert BatchOk(h, b); }
    forall c | c in cleared.requests ensures RequestOk(cleared, c) { assert RequestOk(h, c); }
    forall k | k in cleared.tables.keys ensures KeyNamed(cleared, k) { assert KeyNamed(h, k); }
    if id in h.live && id in h.batches {
      var moved := h.(batches := h.batches[id := h.batches[id].(open := open)]);
      forall b | b in moved.batches ensures BatchOk(moved, b) { assert BatchOk(h, b); }
      forall c | c in moved.requests ensures RequestOk(moved, c) { assert RequestOk(h, c); }
      forall k | k in moved.tables.keys ensures KeyNamed(moved, k) { assert KeyNamed(h, k); }
    }
  }

  lemma NextKeepsInv(h: Hub, ev: Event, now: Time)
    requires Inv(h)
    ensures var h' := Next(h, ev, now).hub; Inv(h') && Remembers(h, h') && Grows(h.tables, h'.tables)
  {
    assert Consistent(h.tables);
    hide Inv, Submit, CutShort, PrepareStep, RenewStep, Consistent, Target;
    NothingGrows(h.tables);
    match ev
    case Submitted(e, newId) => if WellFormed(e) && Unused(h, newId) { SubmitKeepsInv(h, e, newId, now); }
    case CutOff(e, newId, saved) => if WellFormed(e) && Unused(h, newId) { CutKeepsInv(h, e, newId, now, saved); }
    case LeaseRenewed(job, attempt, token, lease) =>
      RenewTablesKeepInv(h, job, attempt, token, lease, now);
      var p := RenewStep(h.tables, job, attempt, token, lease, now);
      if p.result.Ok? { ExtendKeepsInv(h.(tables := p.tables), Target(h, p.result.value, attempt), lease); }
    case RenewalCutOff(job, attempt, token, lease) =>
      RenewTablesKeepInv(h, job, attempt, token, lease, now);
      ReloadKeepsInv(h.(tables := RenewStep(h.tables, job, attempt, token, lease, now).tables));
    case PreparedElsewhere(a) =>
      PrepareKeepsInv(h, a, now);
      PrepareKeepsTables(h.tables, a, now);
    case Progressed(id, open) => ShelfKeepsInv(h, id, open);
    case Cleared(id) => ShelfKeepsInv(h, id, false);
    case Restarted => ReloadKeepsInv(h);
  }

  lemma {:induction false} RunKeepsInv(h: Hub, evs: seq<(Event, Time)>)
    requires Inv(h)
    ensures Inv(Run(h, evs)) && Remembers(h, Run(h, evs)) && Grows(h.tables, Run(h, evs).tables)
    decreases evs
  {
    if evs != [] {
      var h' := Next(h, evs[0].0, evs[0].1).hub;
      NextKeepsInv(h, evs[0].0, evs[0].1);
      hide Next;
      RunKeepsInv(h', evs[1..]);
      GrowsTransitive(h.tables, h'.tables, Run(h, evs).tables);
    } else {
      NothingGrows(h.tables);
    }
  }

  // ---------------------------------------------------------------- idempotence

  /** Whether an event created work for client id `c`, its answer delivered or cut off. */
  ghost predicate Creates(h: Hub, ev: Event, now: Time, c: ClientId) {
    && (ev.Submitted? || ev.CutOff?) && ClientIdOf(ev.e) == Some(c)
    && ev.newId !in h.batches && ev.newId in Next(h, ev, now).hub.batches
  }

  /** How many events of a run created work for client id `c`. */
  ghost function Creations(h: Hub, evs: seq<(Event, Time)>, c: ClientId): nat
    decreases evs
  {
    if evs == [] then 0 else
    (if Creates(h, evs[0].0, evs[0].1, c) then 1 else 0) + Creations(Next(h, evs[0].0, evs[0].1).hub, evs[1..], c)
  }

  lemma SavedCreates(h: Hub, e: Envelope, newId: BatchId)
    requires Inv(h) && Ready(h, e) && Unused(h, newId) && ClientIdOf(e).Some?
    ensures newId in Saved(h, e, newId).hub.batches <==> ClientIdOf(e).value !in h.requests
    ensures newId in Saved(h, e, newId).hub.batches ==> ClientIdOf(e).value in Saved(h, e, newId).hub.requests
  {
    FindIsTheRow(h, ClientIdOf(e).value);
    hide Find, Inv;
  }

  /** Work is created only for a client id that has no row, which has one from then on. */
  lemma CreationNeedsNoRow(h: Hub, ev: Event, now: Time, c: ClientId)
    requires Inv(h) && Creates(h, ev, now, c)
    ensures c !in h.requests && c in Next(h, ev, now).hub.requests
  {
    hide Inv, Saved;
    if WellFormed(ev.e) && Unused(h, ev.newId) {
      if Entered(h, ev.e, now).Ok? {
        EnteredIsReady(h, ev.e, now);
        SavedCreates(Entered(h, ev.e, now).value, ev.e, ev.newId);
      }
    }
    hide Entered, Ready;
  }

  /** Over any interleaving of submissions, crashes, restarts, renewals and clearings, one client id creates work at most once. */
  lemma {:induction false} AtMostOneBatchEver(h: Hub, evs: seq<(Event, Time)>, c: ClientId)
    requires Inv(h)
    ensures Creations(h, evs, c) <= 1
    ensures c in h.requests ==> Creations(h, evs, c) == 0
    decreases evs
  {
    if evs != [] {
      var ev, now := evs[0].0, evs[0].1;
      NextKeepsInv(h, ev, now);
      AtMostOneBatchEver(Next(h, ev, now).hub, evs[1..], c);
      if Creates(h, ev, now, c) { CreationNeedsNoRow(h, ev, now, c); }
      hide Next, Creates, Inv;
    }
  }

  /** Two accepted submissions of one client id, with any run in between, return the same batch. */
  lemma SameIdSameBatch(h: Hub, e: Envelope, id: BatchId, now: Time, between: seq<(Event, Time)>, e': Envelope, id': BatchId, now': Time)
    requires Inv(h) && WellFormed(e) && Unused(h, id) && Submit(h, e, id, now).result.Ok?
    requires var mid := Run(Submit(h, e, id, now).hub, between);
             WellFormed(e') && Unused(mid, id') && Submit(mid, e', id', now').result.Ok?
    requires ClientIdOf(e).Some? && ClientIdOf(e') == ClientIdOf(e)
    ensures var first := Submit(h, e, id, now).result.value;
            var second := Submit(Run(Submit(h, e, id, now).hub, between), e', id', now').result.value;
            second == Receipt(first.batch, first.items, true)
  {
    hide Submit;
    SubmitKeepsInv(h, e, id, now);
    RunKeepsInv(Submit(h, e, id, now).hub, between);
    SubmitKeepsInv(Run(Submit(h, e, id, now).hub, between), e', id', now');
  }

  /**
   A submission cut off after its ledger save, and sent again with the lease unchanged once the fences let
   it through, is answered with the very batch that was saved, which its idempotency row then names.
   */
  lemma CutOffIsResumed(h: Hub, e: Envelope, id: BatchId, now: Time, between: seq<(Event, Time)>, e': Envelope, id': BatchId, now': Time)
    requires Inv(h) && WellFormed(e) && Unused(h, id) && e.execution.Some? && Entered(h, e, now).Ok? && ClientOf(e.execution.value) !in h.requests
    requires var mid := Run(CutShort(h, e, id, now, true), between);
             WellFormed(e') && Unused(mid, id') && e'.execution.Some? && Entered(mid, e', now').Ok?
    requires FingerprintIn(e') == FingerprintIn(e)
    ensures var s := Submit(Run(CutShort(h, e, id, now, true), between), e', id', now');
            && s.result == Ok(Receipt(id, |e.content.items|, true))
            && var k := (e.execution.value.job, e.execution.value.key); k in s.hub.tables.keys && s.hub.tables.keys[k].batch == Some(id)
  {
    var c := ClientOf(e.execution.value);
    CutKeepsInv(h, e, id, now, true);
    EnteredIsReady(h, e, now);
    var g := Entered(h, e, now).value;
    FindIsTheRow(g, c);
    assert CutShort(h, e, id, now, true).requests == g.requests[c := Request(FingerprintIn(e), id, |e.content.items|)] by { hide Inv, Entered; }
    RunKeepsInv(CutShort(h, e, id, now, true), between);
    var mid := Run(CutShort(h, e, id, now, true), between);
    hide CutShort;
    assert mid.requests[c] == Request(FingerprintIn(e), id, |e.content.items|) by { hide Inv, Entered; }
    EnteredIsReady(mid, e', now');
    var g' := Entered(mid, e', now').value;
    FindIsTheRow(g', c);
    hide Inv, Entered, Find, Run, Grows;
  }

  /** A replay's ledger write, with the lookup replaced by the permanent row. */
  lemma ReplaySaves(h: Hub, e: Envelope, newId: BatchId)
    requires Inv(h) && ClientIdOf(e).Some? && ClientIdOf(e).value in h.requests
    ensures var r := h.requests[ClientIdOf(e).value];
            Saved(h, e, newId) ==
              if r.fingerprint == FingerprintIn(e)
              then SubmitStep(h.(batches := Refreshed(h.batches, r.batch, e)), Ok(Receipt(r.batch, r.items, true)))
              else SubmitStep(h, Err("clientRequestId was already used for a different batch"))
  {
    FindIsTheRow(h, ClientIdOf(e).value);
    hide Inv, Find;
  }

  /** The row's batch of an execution carries evidence, and none newer than a fence just accepted for it. */
  lemma EvidenceIsOlder(h: Hub, e: Envelope)
    requires Inv(h) && Ready(h, e) && e.execution.Some? && ClientOf(e.execution.value) in h.requests
    requires h.requests[ClientOf(e.execution.value)].fingerprint == FingerprintIn(e)
    ensures var b := h.requests[ClientOf(e.execution.value)].batch;
            b in h.batches ==> h.batches[b].evidence.Some? && h.batches[b].evidence.value.token <= e.execution.value.token
  {
    var b := h.requests[ClientOf(e.execution.value)].batch;
    if b in h.batches {
      BatchHasFingerprint(h, ClientOf(e.execution.value));
      assert BatchOk(h, b);
    }
    hide Consistent;
  }

  /** Refreshing touches only the evidence of one batch, which then is the newest. */
  lemma RefreshIs(batches: map<BatchId, Batch>, id: BatchId, e: Envelope)
    requires e.execution.Some?
    requires id in batches ==> batches[id].evidence.Some? && batches[id].evidence.value.token <= e.execution.value.token
    ensures var r := Refreshed(batches, id, e);
            && r.Keys == batches.Keys && (forall b | b in batches && b != id :: r[b] == batches[b])
            && (forall b | b in batches :: r[b] == batches[b].(evidence := r[b].evidence))
            && (id in batches ==> r[id].evidence.Some? && r[id].evidence.value.token == e.execution.value.token)
  {
  }

  /**
   A recorded client id whose new submission passes the fences is accepted exactly when the fingerprint
   is the same.  Accepted, it creates nothing, the batch then carries the highest token of its job, and its
   idempotency row names the batch; refused, it leaves every batch as it was, but the fence has moved.
   */
  lemma ReplayIffSameFingerprint(h: Hub, e: Envelope, newId: BatchId, now: Time)
    requires Inv(h) && WellFormed(e) && e.admissible && e.execution.Some?
    requires ClientOf(e.execution.value) in h.requests && PrepareStep(h.tables, e.execution.value, now).result.Ok?
    ensures var a := e.execution.value; var r := h.requests[ClientOf(a)]; var s := Submit(h, e, newId, now);
            && (s.result.Ok? <==> r.fingerprint == FingerprintOf(a))
            && s.hub.requests == h.requests && s.hub.batches.Keys == h.batches.Keys
            && (forall b | b in h.batches :: s.hub.batches[b] == h.batches[b].(evidence := s.hub.batches[b].evidence))
            && (forall b | b in h.batches && b != r.batch :: s.hub.batches[b] == h.batches[b])
            && a.job in s.hub.tables.jobs && s.hub.tables.jobs[a.job].token == a.token
            && (s.result.Ok? ==>
                  && s.result.value == Receipt(r.batch, r.items, true)
                  && (r.batch in h.batches ==>
                        s.hub.batches[r.batch].evidence.Some? && s.hub.batches[r.batch].evidence.value.token == a.token)
                  && (a.job, a.key) in s.hub.tables.keys && s.hub.tables.keys[(a.job, a.key)].batch == Some(r.batch))
            && (s.result.Err? ==> s.hub.batches == h.batches)
  {
    var a := e.execution.value;
    var c := ClientOf(a);
    EnteredIsReady(h, e, now);
    var g := Entered(h, e, now).value;
    ReplaySaves(g, e, newId);
    if h.requests[c].fingerprint == FingerprintIn(e) {
      EvidenceIsOlder(g, e);
      RefreshIs(g.batches, h.requests[c].batch, e);
    }
    hide PrepareStep, Inv, Saved, Grows, Refreshed;
  }

  /**
   When the source meets its promise that an exact replay is no conflict: for an assignment the fences
   accept, exactly when the row is this execution's own and the lease is the one first submitted.
   The rest of the fingerprint is already forced by the fences.
   */
  lemma ReplayIffSameLease(h: Hub, e: Envelope, newId: BatchId, now: Time)
    requires Inv(h) && WellFormed(e) && e.admissible && e.execution.Some?
    requires ClientOf(e.execution.value) in h.requests && PrepareStep(h.tables, e.execution.value, now).result.Ok?
    ensures var a := e.execution.value; var p := h.requests[ClientOf(a)].fingerprint;
            Submit(h, e, newId, now).result.Ok? <==> p.Fenced? && p.job == a.job && p.attempt == a.attempt && p.lease == a.lease
  {
    var a := e.execution.value;
    ReplayIffSameFingerprint(h, e, newId, now);
    assert RequestOk(h, ClientOf(a));
    PrepareAccepts(h.tables, a, now);
    PrepareKeepsBindings(h.tables, a, now);
    hide Submit, PrepareStep, Consistent;
  }

  /** The first submission of an execution to an empty Hub. */
  lemma FirstSubmission(a: Assignment, newId: BatchId, now: Time)
    requires a.token >= 1 && 1 <= |a.key| <= 512 && !Lapsed(a.lease, now)
    ensures var e := Envelope(a.content, None, Some(a), true);
            var f := Entered(EMPTY, e, now);
            && f == Ok(EMPTY.(tables := Tables(map[a.job := JobFence(a.token, a.attempt, a.key, PayloadOf(a))],
                                               map[a.attempt := AttemptFence(a.job, a.token, a.key, PayloadOf(a), a.lease)],
                                               map[(a.job, a.key) := Binding(a.attempt, PayloadOf(a), None)])))
            && Saved(f.value, e, newId) == Created(f.value, e, newId)
  {
    var e := Envelope(a.content, None, Some(a), true);
    assert !Holds(Entered(EMPTY, e, now).value, ClientOf(a));
  }

  /** A replay that only moves the lease, as an upstream renewal does: refused, after the fence has moved past the batch. */
  lemma MovedLeaseIsRefused()
    ensures var content := Content(["scene"], "");
            var a := Assignment("job", "try", 1, "key", content, Some(10.0));
            var b := a.(token := 2, lease := Some(20.0));
            var h := Submit(EMPTY, Envelope(content, None, Some(a), true), "b1", 0.0).hub;
            var s := Submit(h, Envelope(content, None, Some(b), true), "b2", 5.0);
            && s.result.Err? && "b1" in s.hub.batches && s.hub.batches["b1"].evidence == Some(a)
            && "job" in s.hub.tables.jobs && s.hub.tables.jobs["job"].token == 2
  {
    var content := Content(["scene"], "");
    var a := Assignment("job", "try", 1, "key", content, Some(10.0));
    var b := a.(token := 2, lease := Some(20.0));
    FirstSubmission(a, "b1", 0.0);
    var h := Submit(EMPTY, Envelope(content, None, Some(a), true), "b1", 0.0).hub;
    assert h.batches == map["b1" := Batch(Some(ClientOf(a)), Some(FingerprintOf(a)), Some(a), ["scene"], true)] && h.live == {"b1"};
    assert h.tables.jobs == map["job" := JobFence(1, "try", "key", PayloadOf(a))];
    assert h.tables.attempts == map["try" := AttemptFence("job", 1, "key", PayloadOf(a), Some(10.0))];
    assert h.tables.keys == map[("job", "key") := Binding("try", PayloadOf(a), Some("b1"))];
    hide Submit, Entered, Created, Bound;
    MovedLeaseConflicts(h, a, b);
  }

  lemma MovedLeaseConflicts(h: Hub, a: Assignment, b: Assignment)
    requires b == a.(token := 2, lease := Some(20.0)) && a == Assignment("job", "try", 1, "key", a.content, Some(10.0))
    requires h.batches == map["b1" := Batch(Some(ClientOf(a)), Some(FingerprintOf(a)), Some(a), a.content.items, true)] && h.live == {"b1"}
    requires h.tables.jobs == map["job" := JobFence(1, "try", "key", PayloadOf(a))]
    requires h.tables.attempts == map["try" := AttemptFence("job", 1, "key", PayloadOf(a), Some(10.0))]
    requires h.tables.keys == map[("job", "key") := Binding("try", PayloadOf(a), Some("b1"))]
    ensures var s := Submit(h, Envelope(a.content, None, Some(b), true), "b2", 5.0);
            && s.result.Err? && s.hub.batches == h.batches && "job" in s.hub.tables.jobs && s.hub.tables.jobs["job"].token == 2
  {
    assert PrepareStep(h.tables, b, 5.0).result.Ok? && PrepareStep(h.tables, b, 5.0).tables.jobs["job"].token == 2;
    hide PrepareStep;
    var g := h.(tables := PrepareStep(h.tables, b, 5.0).tables);
    assert Holds(g, ClientOf(b));
    assert Find(g, ClientOf(b)).value.fingerprint == FingerprintOf(a);
  }

  // ---------------------------------------------------------------- what a renewal reaches

  /** A batch that runs an attempt is the only one, and the attempt's key row names it or nothing. */
  lemma AttemptHasOneBatch(h: Hub, attempt: AttemptId, b: BatchId)
    requires Inv(h) && Runs(h, b, attempt)
    ensures attempt in h.tables.attempts && (BoundBatch(h.tables, attempt) == None || BoundBatch(h.tables, attempt) == Some(b))
    ensures forall o | Runs(h, o, attempt) :: o == b
  {
    hide Consistent;
    KeyOfBatch(h, attempt, b);
    forall o | Runs(h, o, attempt) ensures o == b {
      KeyOfBatch(h, attempt, o);
      assert BatchOk(h, o) && BatchOk(h, b);
    }
  }

  lemma KeyOfBatch(h: Hub, attempt: AttemptId, b: BatchId)
    requires Inv(h) && Runs(h, b, attempt)
    ensures var e := h.batches[b].evidence.value;
            && attempt in h.tables.attempts && h.tables.attempts[attempt].job == e.job && h.tables.attempts[attempt].key == e.key
            && (e.job, e.key) in h.tables.keys
            && (h.tables.keys[(e.job, e.key)].batch == None || h.tables.keys[(e.job, e.key)].batch == Some(b))
  {
    var e := h.batches[b].evidence.value;
    assert BatchOk(h, b);
    assert RequestOk(h, ClientOf(e));
    assert KeyOk(h.tables, (e.job, e.key));
  }

  /** What a renewal is applied to is found through the key row, or in memory. */
  predicate Reachable(h: Hub, b: BatchId, attempt: AttemptId) {
    BoundBatch(h.tables, attempt) == Some(b) || b in h.live
  }

  /**
   An accepted renewal extends the attempt's own deadline.  The batch that runs the attempt takes the new
   lease exactly when its key row names it or it is in memory; nothing else changes in any batch.
   */
  lemma RenewalReachesIff(h: Hub, job: JobId, attempt: AttemptId, token: int, lease: Time, now: Time, b: BatchId)
    requires Inv(h) && Runs(h, b, attempt) && RenewStep(h.tables, job, attempt, token, lease, now).result.Ok?
    ensures var h' := Next(h, LeaseRenewed(job, attempt, token, lease), now).hub;
            && attempt in h'.tables.attempts && h'.tables.attempts[attempt].lease == Some(lease)
            && h'.batches == if Reachable(h, b, attempt)
                 then h.batches[b := h.batches[b].(evidence := Some(h.batches[b].evidence.value.(lease := Some(lease))))] else h.batches
  {
    AttemptHasOneBatch(h, attempt, b);
    var p := RenewStep(h.tables, job, attempt, token, lease, now);
    assert p.result.value == BoundBatch(h.tables, attempt) && attempt in p.tables.attempts && p.tables.attempts[attempt].lease == Some(lease);
    hide RenewStep, BoundBatch, Inv;
    assert Target(h, p.result.value, attempt) == if Reachable(h, b, attempt) then Some(b) else None;
  }

  /** In every reachable state, crashes and restarts included, an accepted renewal reaches every unfinished batch of its attempt. */
  lemma UnfinishedIsRenewed(h: Hub, evs: seq<(Event, Time)>, job: JobId, attempt: AttemptId, token: int, lease: Time, now: Time, b: BatchId)
    requires Inv(h)
    requires var g := Run(h, evs);
             Runs(g, b, attempt) && g.batches[b].open && RenewStep(g.tables, job, attempt, token, lease, now).result.Ok?
    ensures var h' := Next(Run(h, evs), LeaseRenewed(job, attempt, token, lease), now).hub;
            b in h'.batches && h'.batches[b].evidence.Some? && h'.batches[b].evidence.value.lease == Some(lease)
  {
    RunKeepsInv(h, evs);
    var g := Run(h, evs);
    RenewalReachesIff(g, job, attempt, token, lease, now, b);
    assert BatchOk(g, b);
    hide Run, Next, Inv, RenewStep;
  }

  /** Once a submission was answered its key row names its batch for ever, so every later renewal finds it. */
  lemma AnsweredStaysNamed(h: Hub, e: Envelope, id: BatchId, now: Time, later: seq<(Event, Time)>)
    requires Inv(h) && WellFormed(e) && Unused(h, id) && e.execution.Some? && Submit(h, e, id, now).result.Ok?
    ensures var s := Submit(h, e, id, now); var k := (e.execution.value.job, e.execution.value.key); var g := Run(s.hub, later);
            k in g.tables.keys && g.tables.keys[k].batch == Some(s.result.value.batch)
  {
    var s, a := Submit(h, e, id, now), e.execution.value;
    var k, c := (a.job, a.key), ClientOf(a);
    SubmitKeepsInv(h, e, id, now);
    SubmitNames(h, e, id, now);
    RunKeepsInv(s.hub, later);
    var g := Run(s.hub, later);
    assert KeyGrows(s.hub.tables.keys[k], g.tables.keys[k]) by { hide Inv, Submit; }
    assert RequestOk(g, c) by { hide Submit; }
    hide Inv, Submit, Run, Grows;
  }

  lemma SubmitNames(h: Hub, e: Envelope, id: BatchId, now: Time)
    requires Inv(h) && WellFormed(e) && Unused(h, id) && e.execution.Some? && Submit(h, e, id, now).result.Ok?
    ensures var s := Submit(h, e, id, now); var k := (e.execution.value.job, e.execution.value.key);
            k in s.hub.tables.keys && s.hub.tables.keys[k].batch == Some(s.result.value.batch)
  {
    EnteredIsReady(h, e, now);
    var g := Entered(h, e, now).value;
    SavedKeepsInv(g, e, id);
    hide Inv, Saved, Entered, Grows;
  }

  /**
   The case a renewal misses: a crash between the ledger save and the binding, then the batch finished,
   then another restart.  The attempt's deadline moves, the batch keeps the old one.
   */
  lemma UnnamedFinishedIsMissed()
    ensures var content := Content(["scene"], "");
            var a := Assignment("job", "try", 1, "key", content, Some(10.0));
            var h1 := CutShort(EMPTY, Envelope(content, None, Some(a), true), "b1", 0.0, true);
            var h2 := Next(h1, Progressed("b1", false), 1.0).hub;
            var h3 := Next(h2, Restarted, 2.0).hub;
            var h4 := Next(h3, LeaseRenewed("job", "try", 1, 20.0), 3.0).hub;
            && "try" in h4.tables.attempts && h4.tables.attempts["try"].lease == Some(20.0)
            && "b1" in h4.batches && h4.batches["b1"].evidence == Some(a)
  {
    var content := Content(["scene"], "");
    var a := Assignment("job", "try", 1, "key", content, Some(10.0));
    FirstSubmission(a, "b1", 0.0);
    var h1 := CutShort(EMPTY, Envelope(content, None, Some(a), true), "b1", 0.0, true);
    assert h1.live == {"b1"} && h1.batches["b1"].evidence == Some(a);
    assert h1.tables.keys == map[("job", "key") := Binding("try", PayloadOf(a), None)];
    assert h1.tables.jobs == map["job" := JobFence(1, "try", "key", PayloadOf(a))];
    assert h1.tables.attempts == map["try" := AttemptFence("job", 1, "key", PayloadOf(a), Some(10.0))];
    hide CutShort, Entered, Saved;
    var h2 := Next(h1, Progressed("b1", false), 1.0).hub;
    var h3 := Next(h2, Restarted, 2.0).hub;
    assert h3.live == {} && h3.tables == h1.tables && h3.batches["b1"].evidence == Some(a);
    assert BoundBatch(h3.tables, "try") == None;
    assert RenewStep(h3.tables, "job", "try", 1, 20.0, 3.0).result == Ok(None);
    assert Target(h3, None, "try") == None;
  }

  /** Two executions share a client id exactly when their joined texts agree; colon-free jobs cannot clash. */
  lemma ClientIdsClashIff(a: Assignment, b: Assignment)
    ensures ClientOf(a) == ClientOf(b) <==> a.key == b.key && a.job + ":" + a.attempt == b.job + ":" + b.attempt
    ensures ':' !in a.job && ':' !in b.job ==> (ClientOf(a) == ClientOf(b) <==> a.job == b.job && a.attempt == b.attempt && a.key == b.key)
  {
    if ':' !in a.job && ':' !in b.job && ClientOf(a) == ClientOf(b) {
      var x, y := Owner(a.job, a.attempt), Owner(b.job, b.attempt);
      assert x[|a.job|] == ':' && y[|b.job|] == ':';
      assert a.job == x[..|a.job|] && b.job == y[..|b.job|];
      assert a.attempt == x[|a.job| + 1..] && b.attempt == y[|b.job| + 1..];
    }
  }

  /** Ids may contain colons, so two different executions can share a client id; the second is then refused, its fence accepted. */
  lemma ColonsClash(key: Key, content: Content)
    requires 1 <= |key| <= 512
    ensures var a := Assignment("a:b", "c", 1, key, content, None); var b := Assignment("a", "b:c", 1, key, content, None);
            var h := Submit(EMPTY, Envelope(content, None, Some(a), true), "b1", 0.0).hub;
            var s := Submit(h, Envelope(content, None, Some(b), true), "b2", 0.0);
            && a.job != b.job && a.attempt != b.attempt && ClientOf(a) == ClientOf(b)
            && s.result.Err? && s.hub.batches == h.batches && "a" in s.hub.tables.jobs
  {
    var a := Assignment("a:b", "c", 1, key, content, None);
    var b := Assignment("a", "b:c", 1, key, content, None);
    assert "a:b" + ":" + "c" == "a" + ":" + "b:c";
    assert |"a:b"| != |"a"| && |"c"| != |"b:c"|;
    FirstSubmission(a, "b1", 0.0);
    var h := Submit(EMPTY, Envelope(content, None, Some(a), true), "b1", 0.0).hub;
    assert h.batches == map["b1" := Batch(Some(ClientOf(a)), Some(FingerprintOf(a)), Some(a), content.items, true)] && h.live == {"b1"};
    assert h.tables.jobs.Keys == {"a:b"} && h.tables.attempts.Keys == {"c"} && h.tables.keys.Keys == {("a:b", key)};
    hide Submit, Entered, Created, Bound;
    ClashIsRefused(h, a, b);
  }

  lemma ClashIsRefused(h: Hub, a: Assignment, b: Assignment)
    requires ClientOf(a) == ClientOf(b) && a.job != b.job && b.token >= 1 && 1 <= |b.key| <= 512 && b.lease.None?
    requires b.job !in h.tables.jobs && b.attempt !in h.tables.attempts && (b.job, b.key) !in h.tables.keys
    requires h.batches == map["b1" := Batch(Some(ClientOf(a)), Some(FingerprintOf(a)), Some(a), a.content.items, true)] && h.live == {"b1"}
    ensures var s := Submit(h, Envelope(b.content, None, Some(b), true), "b2", 0.0);
            s.result.Err? && s.hub.batches == h.batches && b.job in s.hub.tables.jobs
  {
    assert PrepareStep(h.tables, b, 0.0).result.Ok? && b.job in PrepareStep(h.tables, b, 0.0).tables.jobs;
    hide PrepareStep;
    var g := h.(tables := PrepareStep(h.tables, b, 0.0).tables);
    assert Holds(g, ClientOf(b));
    assert Find(g, ClientOf(b)).value.fingerprint == FingerprintOf(a);
  }

  // ---------------------------------------------------------------- the broker's submission state

  class Broker {
    const fences: FenceStore
    var batches: map<BatchId, Batch>
    var requests: map<ClientId, Request>
    var live: set<BatchId>

    ghost function View(): Hub
      reads this, fences
    {
      Hub(fences.View(), batches, requests, live)
    }

    constructor ()
      ensures fresh(fences) && View() == EMPTY && Inv(View())
    {
      fences := new FenceStore();
      batches, requests, live := map[], map[], {};
    }

    /** The live batch that carries a client id, or what the ledger's row of the id leads to. */
    method Lookup(c: ClientId) returns (r: Option<Request>)
      requires Inv(View())
      ensures r == if c in requests then Some(requests[c]) else None
    {
      var todo := live;
      while todo != {}
        invariant todo <= live
        decreases todo
      {
        var b :| b in todo;
        if batches[b].client == Some(c) {
          assert BatchOk(View(), b);
          return Some(Recorded(batches[b], b));
        }
        todo := todo - {b};
      }
      if c !in requests { return None; }
      assert RequestOk(View(), c);
      if requests[c].batch in batches {
        assert BatchOk(View(), requests[c].batch);
        return Some(Recorded(batches[requests[c].batch], requests[c].batch));
      }
      r := Some(requests[c]);
    }

    /** The three durable writes of one submission; stopping after any of them is what `CutShort` says. */
    method SubmitBatch(e: Envelope, newId: BatchId, now: Time) returns (r: Result<Receipt>)
      requires Inv(View()) && WellFormed(e) && Unused(View(), newId)
      modifies this, fences
      ensures SubmitStep(View(), r) == Submit(old(View()), e, newId, now)
      ensures Inv(View()) && Remembers(old(View()), View())
    {
      SubmitKeepsInv(View(), e, newId, now);
      if Entered(View(), e, now).Ok? { EnteredIsReady(View(), e, now); }
      assert Consistent(View().tables);
      hide Inv, PrepareStep, Saved, Find, Ready;
      if !e.admissible { return Err("refused at the door"); }
      if e.execution.Some? {
        ghost var before := View();
        var p := fences.Prepare(e.execution.value, now);
        if p.Err? {
          PrepareRefused(before.tables, e.execution.value, now);
          return Err(p.code);
        }
      }
      r := SaveBatch(e, newId);
      if r.Ok? { BindBatch(e, r.value.batch); }
    }

    /** The ledger's write: the new batch with its request row, or a replayed batch's newer fence. */
    method SaveBatch(e: Envelope, newId: BatchId) returns (r: Result<Receipt>)
      requires Inv(View())
      modifies this
      ensures SubmitStep(View(), r) == Saved(old(View()), e, newId)
    {
      var c := ClientIdOf(e);
      if c.Some? {
        FindIsTheRow(View(), c.value);
        var existing := Lookup(c.value);
        if existing.Some? {
          if existing.value.fingerprint != FingerprintIn(e) { return Err("clientRequestId was already used for a different batch"); }
          batches := Refreshed(batches, existing.value.batch, e);
          return Ok(Receipt(existing.value.batch, existing.value.items, true));
        }
      }
      batches := batches[newId := Batch(c, if c.Some? then Some(FingerprintIn(e)) else None, e.execution, e.content.items, true)];
      live := live + {newId};
      if c.Some? && c.value !in requests { requests := requests[c.value := Request(FingerprintIn(e), newId, |e.content.items|)]; }
      r := Ok(Receipt(newId, |e.content.items|, false));
    }

    method BindBatch(e: Envelope, batch: BatchId)
      requires Consistent(fences.View())
      modifies fences
      ensures View() == Bound(old(View()), e, batch)
    {
      if e.execution.Some? { var _ := fences.Bind(e.execution.value.job, e.execution.value.key, batch); }
    }

    /** Apply an accepted renewal: to the batch the key row names, else to one in memory that runs the attempt. */
    method RenewLease(job: JobId, attempt: AttemptId, token: int, lease: Time, now: Time) returns (updated: bool)
      requires Inv(View())
      modifies this, fences
      ensures Inv(View())
      ensures RenewStep(old(View().tables), job, attempt, token, lease, now).result.Err? ==> View() == old(View()) && !updated
      ensures RenewStep(old(View().tables), job, attempt, token, lease, now).result.Ok? ==>
                && fences.View() == RenewStep(old(View().tables), job, attempt, token, lease, now).tables && requests == old(requests)
                && (updated <==> exists b :: Runs(old(View()), b, attempt) && Reachable(old(View()), b, attempt))
                && (!updated ==> batches == old(batches) && live == old(live))
                && (updated ==> exists b :: Runs(old(View()), b, attempt) && Reachable(old(View()), b, attempt)
                                            && View() == Extended(old(View()).(tables := fences.View()), Some(b), lease))
    {
      ghost var before := View();
      RenewTablesKeepInv(View(), job, attempt, token, lease, now);
      assert Consistent(View().tables);
      hide Inv, RenewStep;
      var named := fences.Renew(job, attempt, token, lease, now);
      if named.Err? {
        RenewRefused(before, job, attempt, token, lease, now);
        return false;
      }
      NamedIsBound(before, job, attempt, token, lease, now);
      var id := None;
      if named.value.Some? && named.value.value in batches {
        id := named.value;
        NamedRuns(before, attempt, id.value);
      } else {
        id := Scan(attempt);
      }
      if id.None? {
        forall b | Runs(before, b, attempt) ensures !Reachable(before, b, attempt) { }
        return false;
      }
      assert Runs(before, id.value, attempt) && Reachable(before, id.value, attempt);
      ghost var mid := View();
      assert mid == before.(tables := fences.View());
      ExtendKeepsInv(mid, id, lease);
      batches := batches[id.value := batches[id.value].(evidence := Some(batches[id.value].evidence.value.(lease := Some(lease))))];
      live := live + {id.value};
      updated := true;
    }

    /** A batch in memory that runs the attempt, if there is one. */
    method Scan(attempt: AttemptId) returns (r: Option<BatchId>)
      requires live <= batches.Keys
      ensures r.Some? ==> r.value in live && Runs(View(), r.value, attempt)
      ensures r.None? ==> forall b | b in live :: !Runs(View(), b, attempt)
    {
      var todo := live;
      while todo != {}
        invariant todo <= live
        invariant forall b | b in live && b !in todo :: !Runs(View(), b, attempt)
        decreases todo
      {
        var b :| b in todo;
        if batches[b].evidence.Some? && batches[b].evidence.value.attempt == attempt { return Some(b); }
        todo := todo - {b};
      }
      r := None;
    }
  }

  lemma RenewRefused(h: Hub, job: JobId, attempt: AttemptId, token: int, lease: Time, now: Time)
    requires RenewStep(h.tables, job, attempt, token, lease, now).result.Err?
    ensures RenewStep(h.tables, job, attempt, token, lease, now).tables == h.tables
  {
  }

  lemma NamedIsBound(h: Hub, job: JobId, attempt: AttemptId, token: int, lease: Time, now: Time)
    requires RenewStep(h.tables, job, attempt, token, lease, now).result.Ok?
    ensures RenewStep(h.tables, job, attempt, token, lease, now).result.value == BoundBatch(h.tables, attempt)
  {
  }

  /** A batch that an attempt's key row names runs that attempt. */
  lemma NamedRuns(h: Hub, attempt: AttemptId, b: BatchId)
    requires Inv(h) && BoundBatch(h.tables, attempt) == Some(b) && b in h.batches
    ensures Runs(h, b, attempt)
  {
    var k := (h.tables.attempts[attempt].job, h.tables.attempts[attempt].key);
    assert AttemptOk(h.tables, attempt);
    assert KeyNamed(h, k);
    var c := Derived(Owner(k.0, attempt), k.1);
    assert RequestOk(h, c);
    assert BatchOk(h, b);
  }
}

/** What one accepted submission leaves behind, in the fields of its envelope. */
module SubmissionEffects {
  import opened Outcomes
  import opened Fences
  import opened Submission

  /** The id an envelope is known by: its execution's, whatever id the caller supplied besides. */
  function KnownAs(e: Envelope): Option<ClientId> {
    if e.execution.Some? then Some(Derived(e.execution.value.job + ":" + e.execution.value.attempt, e.execution.value.key)) else e.client
  }

  /** What a replay must repeat: the content and, of an execution, everything but its token. */
  function AskedFor(e: Envelope): Fingerprint {
    if e.execution.Some?
    then Fenced(e.content, e.execution.value.job, e.execution.value.attempt, e.execution.value.key, e.execution.value.lease)
    else Plain(e.content)
  }

  predicate Known(h: Hub, e: Envelope) {
    KnownAs(e).Some? && KnownAs(e).value in h.requests
  }

  lemma NamesAre(e: Envelope)
    requires WellFormed(e)
    ensures KnownAs(e) == ClientIdOf(e) && AskedFor(e) == FingerprintIn(e)
  {
  }

  lemma EnteredIs(h: Hub, e: Envelope, now: Time)
    requires Inv(h) && WellFormed(e)
    ensures Entered(h, e, now).Ok? <==> e.admissible && (e.execution.Some? ==> PrepareStep(h.tables, e.execution.value, now).result.Ok?)
    ensures Entered(h, e, now).Ok? ==>
              && Inv(Entered(h, e, now).value)
              && Entered(h, e, now).value ==
                 h.(tables := if e.execution.Some? then PrepareStep(h.tables, e.execution.value, now).tables else h.tables)
  {
    hide Inv, PrepareStep;
    if Entered(h, e, now).Ok? { EnteredIsReady(h, e, now); }
    hide Ready, Grows;
  }

  /** A submission is accepted exactly when it is admissible, its fence accepts it, and its id is new or repeated with the same request. */
  lemma SubmitIff(h: Hub, e: Envelope, newId: BatchId, now: Time)
    requires Inv(h) && WellFormed(e)
    ensures Submit(h, e, newId, now).result.Ok? <==>
            && e.admissible
            && (e.execution.Some? ==> PrepareStep(h.tables, e.execution.value, now).result.Ok?)
            && (Known(h, e) ==> h.requests[KnownAs(e).value].fingerprint == AskedFor(e))
  {
    NamesAre(e);
    EnteredIs(h, e, now);
    if Entered(h, e, now).Ok? && ClientIdOf(e).Some? { FindIsTheRow(Entered(h, e, now).value, ClientIdOf(e).value); }
    hide Inv, PrepareStep, Find, Entered, ClientIdOf, FingerprintIn, KnownAs, AskedFor, WellFormed, Refreshed, BindStep;
  }

  /** A new id makes one open batch, with exactly the items asked for, and its permanent row. */
  lemma CreatesExactly(h: Hub, e: Envelope, newId: BatchId, now: Time)
    requires Inv(h) && WellFormed(e) && Submit(h, e, newId, now).result.Ok? && !Known(h, e)
    ensures var s := Submit(h, e, newId, now);
            && s.result == Ok(Receipt(newId, |e.content.items|, false))
            && newId in s.hub.batches && s.hub.batches == h.batches[newId := s.hub.batches[newId]] && s.hub.live == h.live + {newId}
            && var b := s.hub.batches[newId];
            && b.items == e.content.items && b.open && b.client == KnownAs(e) && b.evidence == e.execution
            && (b.fingerprint == if KnownAs(e).Some? then Some(AskedFor(e)) else None)
            && s.hub.requests == if KnownAs(e).Some? then h.requests[KnownAs(e).value := Request(AskedFor(e), newId, |e.content.items|)] else h.requests
  {
    NamesAre(e);
    EnteredIs(h, e, now);
    if Entered(h, e, now).Ok? && ClientIdOf(e).Some? { FindIsTheRow(Entered(h, e, now).value, ClientIdOf(e).value); }
    hide Inv, PrepareStep, Find, Entered, ClientIdOf, FingerprintIn, KnownAs, AskedFor, WellFormed, Refreshed, BindStep;
  }

  /** A known id makes nothing: it is answered with its own row, and at most its batch learns of a newer token. */
  lemma ReplaysExactly(h: Hub, e: Envelope, newId: BatchId, now: Time)
    requires Inv(h) && WellFormed(e) && Submit(h, e, newId, now).result.Ok? && Known(h, e)
    ensures var s, r := Submit(h, e, newId, now), h.requests[KnownAs(e).value];
            && s.result == Ok(Receipt(r.batch, r.items, true)) && s.hub.requests == h.requests && s.hub.live == h.live
            && s.hub.batches.Keys == h.batches.Keys
            && (forall b | b in h.batches && b != r.batch :: s.hub.batches[b] == h.batches[b])
            && (r.batch in h.batches ==>
                  s.hub.batches[r.batch] ==
                  var x := h.batches[r.batch];
                  if x.evidence.Some? && e.execution.Some? && e.execution.value.token > x.evidence.value.token
                  then x.(evidence := e.execution) else x)
  {
    NamesAre(e);
    EnteredIs(h, e, now);
    FindIsTheRow(Entered(h, e, now).value, ClientIdOf(e).value);
    hide Inv, PrepareStep, Find, Entered, ClientIdOf, FingerprintIn, KnownAs, AskedFor, WellFormed, BindStep;
  }
}

/**
 How an item ends and how it is retried: for each of the three ends exactly the steps that reach it,
 and for a retry exactly what is written, both said about whole steps in the item's own columns.
 */
module LifecycleEnds {
  import opened Outcomes
  import opened BrokerItems
  import opened Lifecycle

  /** The step is one of the item's own task. */
  predicate OwnStep(h: Hub, e: Event, id: ItemId) {
    OnTask(e) && TaskIn(h, e.s) && h.tasks[e.s].id == id
  }

  /** Neither an operator nor uncertainty owns the item. */
  predicate Unowned(x: Item) {
    x.state != Uncertain && !x.recovery
  }

  predicate Active(x: Item) {
    x.state == Queued || x.state == Running || x.state == CancelRequested
  }

  /** The batch's lease has run out while some of its work is unfinished. */
  ghost predicate LeaseOver(h: Hub, b: BatchId, now: Time) {
    && b in h.headers && h.headers[b].lease.Some? && h.headers[b].lease.value <= now
    && exists id | id in h.items :: id.0 == b && Active(h.items[id])
  }

  /** The steps of a task that look at its batch's lease. */
  predicate LooksAtLease(h: Hub, e: Event) {
    OnTask(e) && TaskIn(h, e.s) &&
    var p, x := h.tasks[e.s].phase, ItemOf(h, e.s);
    match e
    case Begin(_, _, _) => p.Fresh? && Unowned(x)
    case Accept(_, _) => p.Posted?
    case Poll(_) => p.Polling? && Unowned(x)
    case Succeed(_) => (p.Polling? || p.Recovering?) && Unowned(x)
    case Reconciled(_, _) => p.Recovering?
    case _ => false
  }

  /** The step finds the lease of batch `b` over and fences it. */
  ghost predicate Lapses(h: Hub, e: Event, b: BatchId, now: Time) {
    LeaseOver(h, b, now) && (e == ExpireBatch(b) || (LooksAtLease(h, e) && h.tasks[e.s].id.0 == b))
  }

  /** No retry is due: the job is not a lost Voice job, and its failure is final, its batch cancelled, or its kind of retry used up. */
  predicate GivenUp(x: Item, m: Modality, cancelled: bool, f: Failure, now: Time) {
    && !(m == Voice && x.jobId.Some? && f.transport)
    && ( || !f.retryable
         || cancelled
         || (!f.capacity && f.transport && (x.infra >= 7 || (x.infraSince.Some? && now - x.infraSince.value >= 1800.0)))
         || (!f.capacity && !f.transport && x.tries >= 3))
  }

  /** The worker reported the job done, and nothing stands in the way of taking its result. */
  ghost predicate Succeeds(h: Hub, e: Event, now: Time, id: ItemId) {
    OwnStep(h, e, id) && Unowned(h.items[id]) &&
    var p := h.tasks[e.s].phase;
    || (e.Succeed? && (p.Polling? || p.Recovering?) && !LeaseOver(h, id.0, now) && h.headers[id.0].modality != Voice)
    || (e.Complete? && p.Recording?)
  }

  /** The model is refused at the start, or a failure is not retried. */
  ghost predicate Fails(h: Hub, e: Event, now: Time, id: ItemId) {
    OwnStep(h, e, id) && Unowned(h.items[id]) &&
    var p, x, d := h.tasks[e.s].phase, h.items[id], h.headers[id.0];
    || (e.Begin? && p.Fresh? && e.refused && !LeaseOver(h, id.0, now))
    || (e.Fail? && (p.Posted? || p.Polling? || p.Recording?) && !d.cancelled && (e.failure.terminal || x.jobId.None?)
        && GivenUp(x, d.modality, false, e.failure, now))
    || (e.Reconciled? && p.Recovering?
        && GivenUp(x, d.modality, d.cancelled || LeaseOver(h, id.0, now), if e.last.Some? then e.last.value else p.failure, now))
  }

  /** The batch is cancelled or its lease is over, or the worker confirmed the cancellation. */
  ghost predicate IsCancelled(h: Hub, e: Event, now: Time, id: ItemId)
    requires id in h.items
  {
    var x := h.items[id];
    || (Lapses(h, e, id.0, now) && Active(x) && !(OwnStep(h, e, id) && e.Reconciled? && Unowned(x)))
    || (OwnStep(h, e, id) && e.Begin? && h.tasks[e.s].phase.Fresh? && Unowned(x) && LeaseOver(h, id.0, now))
    || (OwnStep(h, e, id) && e.CancelDone? && h.tasks[e.s].phase.Cancelling?)
    || (OwnStep(h, e, id) && e.Fail? && Working(h.tasks[e.s].phase) && Unowned(x) && h.headers[id.0].cancelled)
    || (e == CancelBatch(id.0) && id.0 in h.headers && x.state == Queued)
  }

  /** The operator's verdict on an item under recovery. */
  predicate Adopted(h: Hub, e: Event, id: ItemId, end: ItemState)
    requires id in h.items
  {
    e == Adopt(id, end) && h.items[id].recovery
  }

  ghost predicate EndsBy(h: Hub, e: Event, now: Time, id: ItemId, end: ItemState)
    requires id in h.items
  {
    match end
    case Done => Succeeds(h, e, now, id) || Adopted(h, e, id, Done)
    case Error => Fails(h, e, now, id) || Adopted(h, e, id, Error)
    case Cancelled => IsCancelled(h, e, now, id) || Adopted(h, e, id, Cancelled)
    case _ => false
  }

  /** Over every event but a restart: an item comes to an end by exactly these steps. */
  lemma EndsIff(h: Hub, e: Event, now: Time, id: ItemId, end: ItemState)
    requires Safe(h) && !e.Restart? && id in h.items && h.items[id].state != end && (end == Done || end == Error || end == Cancelled)
    ensures id in Next(h, e, now).items
    ensures Next(h, e, now).items[id].state == end <==> EndsBy(h, e, now, id, end)
  {
    assert ItemOk(h, id);
    hide Safe, EndsBy, TaskStep, BusyMachines, Expired, DispatchStep, SubmitStep, RestartStep;
    if OnTask(e) {
      if TaskIn(h, e.s) { TaskEnds(h, e, now, id, end); } else { NoTaskNoEnd(h, e, now, id, end); }
    } else {
      OtherEnds(h, e, now, id, end);
    }
  }

  lemma NoTaskNoEnd(h: Hub, e: Event, now: Time, id: ItemId, end: ItemState)
    requires OnTask(e) && !TaskIn(h, e.s) && id in h.items
    ensures !EndsBy(h, e, now, id, end)
  {
    hide LeaseOver, GivenUp;
  }

  lemma LeaseOverIff(h: Hub, b: BatchId, now: Time)
    ensures LeaseOver(h, b, now) <==> Expires(h, b, now)
  {
    if LeaseOver(h, b, now) {
      var id :| id in h.items && id.0 == b && Active(h.items[id]);
      assert Unfinished(h.items[id].state);
    }
    if Expires(h, b, now) {
      var id :| id in h.items && id.0 == b && Unfinished(h.items[id].state);
      assert Active(h.items[id]);
    }
  }

  lemma ExpiredIs(h: Hub, b: BatchId, now: Time, id: ItemId)
    requires id in h.items
    ensures id in Expired(h, b, now).items
    ensures Expired(h, b, now).items[id] ==
            if LeaseOver(h, b, now) && id.0 == b && Active(h.items[id]) then h.items[id].(state := Cancelled, retryAt := None) else h.items[id]
    ensures Expired(h, b, now).tasks == h.tasks && Expired(h, b, now).machines == h.machines && Expired(h, b, now).tallies == h.tallies
    ensures Expired(h, b, now).headers ==
            if LeaseOver(h, b, now) then h.headers[b := h.headers[b].(cancelled := true)] else h.headers
  {
    LeaseOverIff(h, b, now);
    hide Expires, LeaseOver;
  }

  lemma OtherEnds(h: Hub, e: Event, now: Time, id: ItemId, end: ItemState)
    requires !OnTask(e) && !e.Restart? && id in h.items && id.0 in h.headers && h.items[id].state != end && (end == Done || end == Error || end == Cancelled)
    ensures id in Next(h, e, now).items
    ensures Next(h, e, now).items[id].state == end <==> EndsBy(h, e, now, id, end)
  {
    OtherStates(h, e, now, id);
    OtherCauses(h, e, now, id);
    hide LeaseOver, Next, Fails, Succeeds, IsCancelled, Active;
  }

  lemma OtherCauses(h: Hub, e: Event, now: Time, id: ItemId)
    requires !OnTask(e) && id in h.items
    ensures !Succeeds(h, e, now, id) && !Fails(h, e, now, id)
    ensures IsCancelled(h, e, now, id) <==>
            || (e == ExpireBatch(id.0) && LeaseOver(h, id.0, now) && Active(h.items[id]))
            || (e == CancelBatch(id.0) && id.0 in h.headers && h.items[id].state == Queued)
  {
    hide LeaseOver, GivenUp, Unowned, Active;
  }

  lemma DispatchStates(h: Hub, e: Event, id: ItemId)
    requires e.Dispatch? && id in h.items
    ensures var h' := DispatchStep(h, e.id, e.studio, e.reserve);
            id in h'.items && (h'.items[id] == h.items[id] || h'.items[id].state == Running)
  {
    hide BusyMachines;
  }

  lemma CancelStates(h: Hub, e: Event, id: ItemId)
    requires e.CancelBatch? && e.batch in h.headers && id in h.items
    ensures var h' := CancelStep(h, e.batch);
            id in h'.items && h'.items[id].state == if e.batch == id.0 && h.items[id].state == Queued then Cancelled else h.items[id].state
  {
  }

  lemma TakeOverStates(h: Hub, o: ItemId, id: ItemId)
    requires o in h.items && o.0 in h.headers && id in h.items
    ensures var h' := TakeOverStep(h, o);
            id in h'.items && (h'.items[id].state == h.items[id].state || h'.items[id].state == Uncertain)
  {
  }

  lemma AdoptStates(h: Hub, o: ItemId, end: ItemState, id: ItemId)
    requires id in h.items
    ensures id in AdoptStep(h, o, end).items
    ensures o == id && h.items[id].recovery && (end.Done? || end.Error? || end.Cancelled?) ==> AdoptStep(h, o, end).items[id].state == end
    ensures !(o == id && h.items[id].recovery && (end.Done? || end.Error? || end.Cancelled?)) ==> AdoptStep(h, o, end).items[id] == h.items[id]
  {
  }

  /** What a step of no task makes of the item's state. */
  ghost predicate LeftAs(h: Hub, e: Event, now: Time, id: ItemId, h': Hub)
    requires id in h.items
  {
    id in h'.items &&
    var x, st := h.items[id], h'.items[id].state;
    if e == CancelBatch(id.0) && x.state == Queued then st == Cancelled
    else if e == ExpireBatch(id.0) && LeaseOver(h, id.0, now) && Active(x) then st == Cancelled
    else if e.Adopt? && e.id == id && x.recovery && (e.end.Done? || e.end.Error? || e.end.Cancelled?) then st == e.end
    else st == x.state || st == Running || st == Uncertain
  }

  lemma OtherStates(h: Hub, e: Event, now: Time, id: ItemId)
    requires !OnTask(e) && !e.Restart? && id in h.items && id.0 in h.headers
    ensures LeftAs(h, e, now, id, Next(h, e, now))
  {
    hide LeaseOver, BusyMachines, Expired, SubmitStep, DispatchStep, CancelStep, TakeOverStep, AdoptStep, RestartStep, TaskStep;
    if e.Submit? || e.Dispatch? {
      hide Active;
      if e.Submit? { SubmitLeavesItems(h, e.newBatch, e.header, e.size, id); } else { DispatchStates(h, e, id); }
    } else if e.ExpireBatch? {
      ExpiredIs(h, e.batch, now, id);
    } else if e.CancelBatch? {
      if e.batch in h.headers { CancelStates(h, e, id); }
    } else if e.TakeOver? || e.Adopt? {
      hide Active;
      if e.Adopt? { AdoptStates(h, e.id, e.end, id); } else if e.id in h.items && e.id.0 in h.headers { TakeOverStates(h, e.id, id); }
    } else {
      hide Active;
    }
  }

  lemma TaskEnds(h: Hub, e: Event, now: Time, id: ItemId, end: ItemState)
    requires OnTask(e) && TaskIn(h, e.s) && id in h.items && h.items[id].state != end && (end == Done || end == Error || end == Cancelled)
    ensures id in TaskStep(h, e, now).items
    ensures TaskStep(h, e, now).items[id].state == end <==> EndsBy(h, e, now, id, end)
  {
    var h' := TaskStep(h, e, now);
    hide EndsBy, BeginStep, AcceptStep, PollStep, SucceedStep, CompleteStep, FailStep, ReconciledStep, HandoffStep, Finish;
    match e
    case Begin(_, _, _) => BeginEnds(h, e, now, id, end, h');
    case Accept(_, _) => AcceptEnds(h, e, now, id, end, h');
    case Poll(_) => PollEnds(h, e, now, id, end, h');
    case Succeed(_) => SucceedEnds(h, e, now, id, end, h');
    case Complete(_) => CompleteEnds(h, e, now, id, end, h');
    case Fail(_, _) => FailEnds(h, e, now, id, end, h');
    case Reconciled(_, _) => ReconciledEnds(h, e, now, id, end, h');
    case HandoffDone(_, _) => HandoffDoneEnds(h, e, now, id, end, h');
    case CancelDone(_) => CancelDoneEnds(h, e, now, id, end, h');
  }

  lemma BeginStates(h: Hub, s: StudioId, refused: bool, peerChanged: bool, now: Time, id: ItemId)
    requires TaskIn(h, s) && id in h.items
    ensures id in BeginStep(h, s, refused, peerChanged, now).items
    ensures var x, st := h.items[id], BeginStep(h, s, refused, peerChanged, now).items[id].state;
            if h.tasks[s].id == id && Unowned(x)
            then st == if LeaseOver(h, id.0, now) then Cancelled else if refused then Error else if peerChanged then Queued else x.state
            else if Unowned(ItemOf(h, s)) && id.0 == h.tasks[s].id.0 && LeaseOver(h, id.0, now) && Active(x) then st == Cancelled
            else st == x.state
  {
    var b := h.tasks[s].id.0;
    ExpiredIs(h, b, now, id);
    ExpiredIs(h, b, now, h.tasks[s].id);
    LeaseOverIff(h, b, now);
    hide LeaseOver, Expires, Expired;
  }

  lemma BeginEnds(h: Hub, e: Event, now: Time, id: ItemId, end: ItemState, h': Hub)
    requires e.Begin? && TaskIn(h, e.s) && id in h.items && h.items[id].state != end && (end == Done || end == Error || end == Cancelled)
    requires h' == if h.tasks[e.s].phase.Fresh? then BeginStep(h, e.s, e.refused, e.peerChanged, now) else h
    ensures id in h'.items
    ensures h'.items[id].state == end <==> EndsBy(h, e, now, id, end)
  {
    hide EndsBy, BeginStep;
    if !h.tasks[e.s].phase.Fresh? { LateBeginEnds(h, e, now, id, end); }
    else if h.tasks[e.s].id == id { OwnBeginEnds(h, e, now, id, end); }
    else { OtherBeginEnds(h, e, now, id, end); }
  }

  lemma LateBeginEnds(h: Hub, e: Event, now: Time, id: ItemId, end: ItemState)
    requires e.Begin? && TaskIn(h, e.s) && !h.tasks[e.s].phase.Fresh? && id in h.items
    ensures !EndsBy(h, e, now, id, end)
  {
    hide LeaseOver, GivenUp, Unowned, Active;
  }

  lemma OwnBeginEnds(h: Hub, e: Event, now: Time, id: ItemId, end: ItemState)
    requires e.Begin? && TaskIn(h, e.s) && h.tasks[e.s] == Task(id, Fresh) && id in h.items
    requires h.items[id].state != end && (end == Done || end == Error || end == Cancelled)
    ensures id in BeginStep(h, e.s, e.refused, e.peerChanged, now).items
    ensures BeginStep(h, e.s, e.refused, e.peerChanged, now).items[id].state == end <==> EndsBy(h, e, now, id, end)
  {
    BeginStates(h, e.s, e.refused, e.peerChanged, now, id);
    hide LeaseOver, BeginStep, GivenUp, Unowned, Active;
  }

  lemma OtherBeginEnds(h: Hub, e: Event, now: Time, id: ItemId, end: ItemState)
    requires e.Begin? && TaskIn(h, e.s) && h.tasks[e.s].phase.Fresh? && h.tasks[e.s].id != id && id in h.items
    requires h.items[id].state != end && (end == Done || end == Error || end == Cancelled)
    ensures id in BeginStep(h, e.s, e.refused, e.peerChanged, now).items
    ensures BeginStep(h, e.s, e.refused, e.peerChanged, now).items[id].state == end <==> EndsBy(h, e, now, id, end)
  {
    BeginStates(h, e.s, e.refused, e.peerChanged, now, id);
    hide LeaseOver, BeginStep, GivenUp, Unowned, Active;
  }

  lemma AcceptStates(h: Hub, s: StudioId, job: string, now: Time, id: ItemId)
    requires TaskIn(h, s) && id in h.items
    ensures id in AcceptStep(h, s, job, now).items
    ensures var x, st := h.items[id], AcceptStep(h, s, job, now).items[id].state;
            if id.0 == h.tasks[s].id.0 && LeaseOver(h, id.0, now) && Active(x) then st == Cancelled else st == x.state
  {
    var mine := h.tasks[s].id;
    var a := h.(items := h.items[mine := h.items[mine].(jobId := Some(job))]);
    AcceptedLease(h, mine, job, now);
    LeaseOverIff(a, mine.0, now);
    ExpiredIs(a, mine.0, now, id);
    ExpiredIs(a, mine.0, now, mine);
    hide LeaseOver, Expires, Expired;
  }

  lemma AcceptEnds(h: Hub, e: Event, now: Time, id: ItemId, end: ItemState, h': Hub)
    requires e.Accept? && TaskIn(h, e.s) && id in h.items && h.items[id].state != end && (end == Done || end == Error || end == Cancelled)
    requires h' == if h.tasks[e.s].phase.Posted? then AcceptStep(h, e.s, e.job, now) else h
    ensures id in h'.items
    ensures h'.items[id].state == end <==> EndsBy(h, e, now, id, end)
  {
    AcceptStates(h, e.s, e.job, now, id);
    hide LeaseOver, AcceptStep, GivenUp, Unowned;
    if end.Done? { hide Fails, IsCancelled; } else if end.Error? { hide Succeeds, IsCancelled; } else { hide Succeeds, Fails; }
  }

  /** A job id changes nothing about the lease. */
  lemma AcceptedLease(h: Hub, mine: ItemId, job: string, now: Time)
    requires mine in h.items
    ensures LeaseOver(h, mine.0, now) <==> LeaseOver(h.(items := h.items[mine := h.items[mine].(jobId := Some(job))]), mine.0, now)
  {
    var a := h.(items := h.items[mine := h.items[mine].(jobId := Some(job))]);
    if LeaseOver(h, mine.0, now) {
      var id :| id in h.items && id.0 == mine.0 && Active(h.items[id]);
      assert id in a.items && Active(a.items[id]);
    }
    if LeaseOver(a, mine.0, now) {
      var id :| id in a.items && id.0 == mine.0 && Active(a.items[id]);
      assert id in h.items && Active(h.items[id]);
    }
  }

  lemma PollStates(h: Hub, s: StudioId, now: Time, id: ItemId)
    requires TaskIn(h, s) && id in h.items
    ensures id in PollStep(h, s, now).items
    ensures var x, st := h.items[id], PollStep(h, s, now).items[id].state;
            if Unowned(ItemOf(h, s)) && id.0 == h.tasks[s].id.0 && LeaseOver(h, id.0, now) && Active(x) then st == Cancelled else st == x.state
  {
    var b := h.tasks[s].id.0;
    ExpiredIs(h, b, now, id);
    ExpiredIs(h, b, now, h.tasks[s].id);
    LeaseOverIff(h, b, now);
    hide LeaseOver, Expires, Expired;
  }

  lemma PollEnds(h: Hub, e: Event, now: Time, id: ItemId, end: ItemState, h': Hub)
    requires e.Poll? && TaskIn(h, e.s) && id in h.items && h.items[id].state != end && (end == Done || end == Error || end == Cancelled)
    requires h' == if h.tasks[e.s].phase.Polling? then PollStep(h, e.s, now) else h
    ensures id in h'.items
    ensures h'.items[id].state == end <==> EndsBy(h, e, now, id, end)
  {
    PollStates(h, e.s, now, id);
    hide LeaseOver, PollStep, GivenUp, Unowned;
    if end.Done? { hide Fails, IsCancelled; } else if end.Error? { hide Succeeds, IsCancelled; } else { hide Succeeds, Fails; }
  }

  lemma SucceedStates(h: Hub, s: StudioId, now: Time, id: ItemId)
    requires TaskIn(h, s) && id in h.items
    ensures id in SucceedStep(h, s, now).items
    ensures var x, st := h.items[id], SucceedStep(h, s, now).items[id].state;
            if h.tasks[s].id == id && Unowned(x) && !LeaseOver(h, id.0, now)
            then st == if HeaderOf(h, s).modality == Voice then x.state else Done
            else if Unowned(ItemOf(h, s)) && id.0 == h.tasks[s].id.0 && LeaseOver(h, id.0, now) && Active(x) then st == Cancelled
            else st == x.state
  {
    var b := h.tasks[s].id.0;
    ExpiredIs(h, b, now, id);
    ExpiredIs(h, b, now, h.tasks[s].id);
    LeaseOverIff(h, b, now);
    hide LeaseOver, Expires, Expired;
  }

  lemma SucceedEnds(h: Hub, e: Event, now: Time, id: ItemId, end: ItemState, h': Hub)
    requires e.Succeed? && TaskIn(h, e.s) && id in h.items && h.items[id].state != end && (end == Done || end == Error || end == Cancelled)
    requires h' == if h.tasks[e.s].phase.Polling? || h.tasks[e.s].phase.Recovering? then SucceedStep(h, e.s, now) else h
    ensures id in h'.items
    ensures h'.items[id].state == end <==> EndsBy(h, e, now, id, end)
  {
    SucceedStates(h, e.s, now, id);
    hide LeaseOver, SucceedStep, GivenUp, Unowned;
    if end.Done? { hide Fails, IsCancelled; } else if end.Error? { hide Succeeds, IsCancelled; } else { hide Succeeds, Fails; }
  }

  lemma CloseStates(h: Hub, s: StudioId, released: bool, now: Time, id: ItemId)
    requires TaskIn(h, s) && id in h.items
    ensures id in CompleteStep(h, s).items && id in HandoffStep(h, s, released, now).items
    ensures CompleteStep(h, s).items[id].state == if h.tasks[s].id == id && Unowned(h.items[id]) then Done else h.items[id].state
    ensures HandoffStep(h, s, released, now).items[id].state == if h.tasks[s].id == id then Queued else h.items[id].state
  {
    hide Avoiding;
  }

  lemma CompleteEnds(h: Hub, e: Event, now: Time, id: ItemId, end: ItemState, h': Hub)
    requires e.Complete? && TaskIn(h, e.s) && id in h.items && h.items[id].state != end && (end == Done || end == Error || end == Cancelled)
    requires h' == if h.tasks[e.s].phase.Recording? then CompleteStep(h, e.s) else h
    ensures id in h'.items
    ensures h'.items[id].state == end <==> EndsBy(h, e, now, id, end)
  {
    CloseStates(h, e.s, false, now, id);
    hide LeaseOver, GivenUp, CompleteStep, Unowned;
  }

  lemma HandoffDoneEnds(h: Hub, e: Event, now: Time, id: ItemId, end: ItemState, h': Hub)
    requires e.HandoffDone? && TaskIn(h, e.s) && id in h.items && h.items[id].state != end && (end == Done || end == Error || end == Cancelled)
    requires h' == if h.tasks[e.s].phase.Handoff? then HandoffStep(h, e.s, e.released, now) else h
    ensures id in h'.items
    ensures h'.items[id].state == end <==> EndsBy(h, e, now, id, end)
  {
    CloseStates(h, e.s, e.released, now, id);
    hide LeaseOver, GivenUp, HandoffStep, Unowned;
  }

  lemma CancelDoneEnds(h: Hub, e: Event, now: Time, id: ItemId, end: ItemState, h': Hub)
    requires e.CancelDone? && TaskIn(h, e.s) && id in h.items && h.items[id].state != end && (end == Done || end == Error || end == Cancelled)
    requires h' == if h.tasks[e.s].phase.Cancelling? then Finish(h, e.s, ItemOf(h, e.s).(state := Cancelled)) else h
    ensures id in h'.items
    ensures h'.items[id].state == end <==> EndsBy(h, e, now, id, end)
  {
    hide LeaseOver, GivenUp, Unowned;
  }

  /** The classifier records an error exactly when the failure is given up, and ends the item in no other way. */
  lemma ClassifyStates(g: Hub, s: StudioId, f: Failure, now: Time, id: ItemId)
    requires TaskIn(g, s) && id in g.items
    ensures id in Classify(g, s, f, now).items
    ensures var x, st := g.items[id], Classify(g, s, f, now).items[id].state;
            if id != g.tasks[s].id then st == x.state
            else if GivenUp(x, HeaderOf(g, s).modality, HeaderOf(g, s).cancelled, f, now) then st == Error
            else st == Uncertain || st == Queued || (st == x.state && !HeaderOf(g, s).cancelled)
  {
    hide Avoiding, Delay;
    if id != g.tasks[s].id { OtherStays(g, s, f, now, id); hide Classify; }
  }

  lemma OtherStays(g: Hub, s: StudioId, f: Failure, now: Time, id: ItemId)
    requires TaskIn(g, s) && id in g.items && id != g.tasks[s].id
    ensures id in Classify(g, s, f, now).items && Classify(g, s, f, now).items[id] == g.items[id]
  {
    hide Avoiding, Delay;
  }

  lemma FailStates(h: Hub, s: StudioId, f: Failure, now: Time, id: ItemId)
    requires TaskIn(h, s) && id in h.items
    ensures id in FailStep(h, s, f, now).items
    ensures var x, st := h.items[id], FailStep(h, s, f, now).items[id].state;
            if id != h.tasks[s].id || !Unowned(x) then st == x.state
            else if HeaderOf(h, s).cancelled then st == Cancelled
            else if (f.terminal || x.jobId.None?) && GivenUp(x, HeaderOf(h, s).modality, false, f, now) then st == Error
            else st == x.state || st == Uncertain || st == Queued
  {
    ClassifyStates(h, s, f, now, id);
    hide Classify, GivenUp;
  }

  lemma FailEnds(h: Hub, e: Event, now: Time, id: ItemId, end: ItemState, h': Hub)
    requires e.Fail? && TaskIn(h, e.s) && id in h.items && h.items[id].state != end && (end == Done || end == Error || end == Cancelled)
    requires h' == if Working(h.tasks[e.s].phase) then FailStep(h, e.s, e.failure, now) else h
    ensures id in h'.items
    ensures h'.items[id].state == end <==> EndsBy(h, e, now, id, end)
  {
    FailStates(h, e.s, e.failure, now, id);
    hide LeaseOver, GivenUp, FailStep, Unowned;
    assert OwnStep(h, e, id) <==> h.tasks[e.s].id == id;
    assert !Adopted(h, e, id, end);
    hide OwnStep, Adopted;
    if end.Done? { hide Fails, IsCancelled; } else if end.Error? { hide Succeeds, IsCancelled; } else { hide Succeeds, Fails; }
  }

  lemma ReconciledStates(h: Hub, s: StudioId, last: Option<Failure>, now: Time, id: ItemId)
    requires TaskIn(h, s) && id in h.items && h.tasks[s].phase.Recovering?
    ensures id in ReconciledStep(h, s, last, now).items
    ensures var x, st := h.items[id], ReconciledStep(h, s, last, now).items[id].state;
            var over, f := LeaseOver(h, h.tasks[s].id.0, now), if last.Some? then last.value else h.tasks[s].phase.failure;
            if id == h.tasks[s].id && Unowned(x) then
              if GivenUp(x, HeaderOf(h, s).modality, HeaderOf(h, s).cancelled || over, f, now) then st == Error
              else st == Uncertain || st == Queued || (st == x.state && !over)
            else if id.0 == h.tasks[s].id.0 && over && Active(x) then st == Cancelled
            else st == x.state
  {
    var g, f := Expired(h, h.tasks[s].id.0, now), if last.Some? then last.value else h.tasks[s].phase.failure;
    ExpiredIs(h, h.tasks[s].id.0, now, id);
    ExpiredIs(h, h.tasks[s].id.0, now, h.tasks[s].id);
    hide LeaseOver, Expires, Expired, Classify;
    ClassifyStates(g, s, f, now, id);
    if id == h.tasks[s].id {
      GivenUpSame(h.items[id], g.items[id], HeaderOf(h, s).modality, HeaderOf(g, s).cancelled, f, now);
    }
    hide GivenUp;
  }

  /** Whether a failure is given up does not depend on the state the item is in. */
  lemma GivenUpSame(x: Item, y: Item, m: Modality, cancelled: bool, f: Failure, now: Time)
    requires x.jobId == y.jobId && x.infra == y.infra && x.infraSince == y.infraSince && x.tries == y.tries
    ensures GivenUp(x, m, cancelled, f, now) <==> GivenUp(y, m, cancelled, f, now)
  {
  }

  lemma ReconciledEnds(h: Hub, e: Event, now: Time, id: ItemId, end: ItemState, h': Hub)
    requires e.Reconciled? && TaskIn(h, e.s) && id in h.items && h.items[id].state != end && (end == Done || end == Error || end == Cancelled)
    requires h' == if h.tasks[e.s].phase.Recovering? then ReconciledStep(h, e.s, e.last, now) else h
    ensures id in h'.items
    ensures h'.items[id].state == end <==> EndsBy(h, e, now, id, end)
  {
    hide EndsBy, ReconciledStep;
    if !h.tasks[e.s].phase.Recovering? { EarlyReconciledEnds(h, e, now, id, end); }
    else if h.tasks[e.s].id == id { OwnReconciledEnds(h, e, now, id, end); }
    else { OtherReconciledEnds(h, e, now, id, end); }
  }

  lemma EarlyReconciledEnds(h: Hub, e: Event, now: Time, id: ItemId, end: ItemState)
    requires e.Reconciled? && TaskIn(h, e.s) && !h.tasks[e.s].phase.Recovering? && id in h.items
    ensures !EndsBy(h, e, now, id, end)
  {
    hide LeaseOver, GivenUp, Unowned, Active;
  }

  lemma OwnReconciledEnds(h: Hub, e: Event, now: Time, id: ItemId, end: ItemState)
    requires e.Reconciled? && TaskIn(h, e.s) && h.tasks[e.s].phase.Recovering? && h.tasks[e.s].id == id && id in h.items
    requires h.items[id].state != end && (end == Done || end == Error || end == Cancelled)
    ensures id in ReconciledStep(h, e.s, e.last, now).items
    ensures ReconciledStep(h, e.s, e.last, now).items[id].state == end <==> EndsBy(h, e, now, id, end)
  {
    ReconciledStates(h, e.s, e.last, now, id);
    hide LeaseOver, GivenUp, ReconciledStep, Unowned, Active;
  }

  lemma OtherReconciledEnds(h: Hub, e: Event, now: Time, id: ItemId, end: ItemState)
    requires e.Reconciled? && TaskIn(h, e.s) && h.tasks[e.s].phase.Recovering? && h.tasks[e.s].id != id && id in h.items
    requires h.items[id].state != end && (end == Done || end == Error || end == Cancelled)
    ensures id in ReconciledStep(h, e.s, e.last, now).items
    ensures ReconciledStep(h, e.s, e.last, now).items[id].state == end <==> EndsBy(h, e, now, id, end)
  {
    ReconciledStates(h, e.s, e.last, now, id);
    hide LeaseOver, GivenUp, ReconciledStep, Unowned, Active;
  }

  // ---------------------------------------------------------------- what a retry and a start write

  /** One try fewer, never below none. */
  function OneTryBack(tries: nat): nat {
    if tries == 0 then 0 else tries - 1
  }

  /** How long a connection failure is waited out, by how many there were before. */
  const INFRA_WAITS: seq<Time> := [5.0, 15.0, 30.0, 60.0, 120.0, 300.0, 300.0]

  /** The item `x` of a requeue by event `e`, on machine `m` and after failure `f` where there was one. */
  function Requeued(x: Item, e: Event, f: Failure, m: Machine, now: Time): Item {
    var y := x.(state := Queued, reserved := 0.0);
    match e
    case Begin(_, _, _) => y.(studio := None, jobId := None, tries := OneTryBack(x.tries))
    case HandoffDone(_, released) =>
      y.(tries := OneTryBack(x.tries), avoid := x.avoid[m := now + 90.0], retryAt := Some(now + if released then 3.0 else 30.0))
    case _ =>
      if f.transport && x.infra < |INFRA_WAITS| then
        y.(infra := x.infra + 1, infraSince := if x.infraSince.Some? then x.infraSince else Some(now),
           avoid := x.avoid[m := now + 90.0], retryAt := Some(now + INFRA_WAITS[x.infra]))
      else y.(retryAt := Some(now + if x.tries <= 1 then 3.0 else 10.0))
  }

  function FailureOf(h: Hub, e: Event): Failure
    requires OnTask(e) && TaskIn(h, e.s)
  {
    if e.Fail? then e.failure
    else if e.Reconciled? && e.last.Some? then e.last.value
    else if h.tasks[e.s].phase.Recovering? then h.tasks[e.s].phase.failure
    else Failure(false, false, false, false)
  }

  /** Every requeue writes exactly its refund, its wait and the machine to leave alone, and gives the worker back. */
  lemma RequeueWrites(h: Hub, e: Event, now: Time)
    requires Requeues(h, e, now)
    ensures var id, h' := h.tasks[e.s].id, Next(h, e, now);
            && id in h'.items && h'.items[id] == Requeued(h.items[id], e, FailureOf(h, e), h.machines[e.s], now)
            && e.s !in h'.tasks
  {
    hide Expires;
    match e
    case Fail(s, f) => RetryWrites(h, s, f, now); hide Classify;
    case Reconciled(s, last) => RetryWrites(h, s, FailureOf(h, e), now); hide Classify;
    case _ =>
  }

  lemma RetryWrites(h: Hub, s: StudioId, f: Failure, now: Time)
    requires TaskIn(h, s) && RetryLeft(h, s, f, now)
    ensures var id, h' := h.tasks[s].id, Classify(h, s, f, now);
            && id in h'.items && s !in h'.tasks
            && h'.items[id] == Requeued(h.items[id], Fail(s, f), f, h.machines[s], now)
  {
  }

  /** A start takes the worker, counts a try and promises the memory; the item forgets its last job and wait. */
  lemma StartWrites(h: Hub, e: Event, now: Time, id: ItemId)
    requires Starts(h, e, id) && id in h.items
    ensures var h' := Next(h, e, now);
            && id in h'.items && e.studio in h'.tasks && h'.tasks[e.studio].id == id && id !in h'.held
            && h'.items[id] == h.items[id].(state := Running, retryAt := None, studio := Some(e.studio), jobId := None,
                                            tries := h.items[id].tries + 1, reserved := e.reserve)
            && h'.reserved == h.reserved + e.reserve
  {
    hide BusyMachines;
  }

  /** An accepted post records the worker's job id, and is cancelled at once in a cancelled or lapsed batch. */
  lemma AcceptanceIsRecorded(h: Hub, s: StudioId, job: string, now: Time)
    requires TaskIn(h, s) && h.tasks[s].phase.Posted?
    ensures var id, h' := h.tasks[s].id, Next(h, Accept(s, job), now);
            && id in h'.items && h'.items[id].jobId == Some(job) && s in h'.tasks && h'.tasks[s].id == id
            && (h'.tasks[s].phase == if LeaseOver(h, id.0, now) || h.headers[id.0].cancelled then Cancelling else Polling)
  {
    var mine := h.tasks[s].id;
    var a := h.(items := h.items[mine := h.items[mine].(jobId := Some(job))]);
    AcceptedLease(h, mine, job, now);
    LeaseOverIff(a, mine.0, now);
    ExpiredIs(a, mine.0, now, mine);
    hide LeaseOver, Expires, Expired;
  }

  // ---------------------------------------------------------------- where a task goes

  /** The failure a step ends with waits for memory: it is a lack of it, may be retried, and the batch is not cancelled. */
  ghost predicate WaitsForMemory(h: Hub, e: Event, now: Time)
    requires OnTask(e) && TaskIn(h, e.s)
  {
    var p, x, d, f := h.tasks[e.s].phase, ItemOf(h, e.s), HeaderOf(h, e.s), FailureOf(h, e);
    && Unowned(x) && !d.cancelled && f.retryable && f.capacity
    && !(d.modality == Voice && x.jobId.Some? && f.transport)
    && ((e.Fail? && Working(p) && (f.terminal || x.jobId.None?)) || (e.Reconciled? && p.Recovering? && !LeaseOver(h, h.tasks[e.s].id.0, now)))
  }

  /** The steps that take a task into the phase `to`. */
  ghost predicate Enters(h: Hub, e: Event, now: Time, to: Phase)
    requires OnTask(e) && TaskIn(h, e.s)
  {
    var p, x, d, over := h.tasks[e.s].phase, ItemOf(h, e.s), HeaderOf(h, e.s), LeaseOver(h, h.tasks[e.s].id.0, now);
    match to
    case Fresh => false
    case Posted => e.Begin? && p.Fresh? && Unowned(x) && !over && !e.refused && !e.peerChanged
    case Polling => e.Accept? && p.Posted? && !over && !d.cancelled
    case Recording => e.Succeed? && (p.Polling? || p.Recovering?) && Unowned(x) && !over && d.modality == Voice
    case Recovering(f) => e == Fail(e.s, f) && Working(p) && Unowned(x) && !d.cancelled && !f.terminal && x.jobId.Some?
    case Handoff => WaitsForMemory(h, e, now)
    case Cancelling => (over || d.cancelled) && ((e.Accept? && p.Posted?) || (e.Poll? && p.Polling? && Unowned(x)))
  }

  /** A task goes on by exactly these steps; by every other step of its own it stays where it is or is over. */
  lemma EntersIff(h: Hub, e: Event, now: Time, to: Phase)
    requires OnTask(e) && TaskIn(h, e.s) && h.tasks[e.s].phase != to
    ensures var h' := Next(h, e, now);
            e.s in h'.tasks && h'.tasks[e.s].phase == to <==> Enters(h, e, now, to)
  {
    var b := h.tasks[e.s].id.0;
    LeaseOverIff(h, b, now);
    hide LeaseOver, Expires, TaskStep, Enters;
    if e.Begin? { BeginEnters(h, e, now, to); }
    else if e.Accept? { AcceptEnters(h, e, now, to); }
    else if e.Fail? { FailEnters(h, e, now, to); }
    else if e.Reconciled? { ReconciledEnters(h, e, now, to); }
    else if e.Poll? { PollEnters(h, e, now, to); }
    else if e.Succeed? { SucceedEnters(h, e, now, to); }
    else { CloseEnters(h, e, now, to); }
  }

  lemma BeginEnters(h: Hub, e: Event, now: Time, to: Phase)
    requires e.Begin? && TaskIn(h, e.s) && h.tasks[e.s].phase != to && (LeaseOver(h, h.tasks[e.s].id.0, now) <==> Expires(h, h.tasks[e.s].id.0, now))
    ensures e.s in TaskStep(h, e, now).tasks && TaskStep(h, e, now).tasks[e.s].phase == to <==> Enters(h, e, now, to)
  {
    ExpiredIs(h, h.tasks[e.s].id.0, now, h.tasks[e.s].id);
    hide LeaseOver, Expires, Expired, FailureOf;
  }

  lemma AcceptEnters(h: Hub, e: Event, now: Time, to: Phase)
    requires e.Accept? && TaskIn(h, e.s) && h.tasks[e.s].phase != to
    ensures e.s in TaskStep(h, e, now).tasks && TaskStep(h, e, now).tasks[e.s].phase == to <==> Enters(h, e, now, to)
  {
    if h.tasks[e.s].phase.Posted? { AcceptanceIsRecorded(h, e.s, e.job, now); } else { hide AcceptStep; }
    hide LeaseOver, AcceptStep, FailureOf;
  }

  lemma ClassifyEnters(g: Hub, s: StudioId, f: Failure, now: Time)
    requires TaskIn(g, s)
    ensures var x, d, g' := ItemOf(g, s), HeaderOf(g, s), Classify(g, s, f, now);
            if f.retryable && f.capacity && !d.cancelled && !(d.modality == Voice && x.jobId.Some? && f.transport)
            then s in g'.tasks && g'.tasks[s].phase == Handoff else s !in g'.tasks
  {
    hide Avoiding, Delay;
  }

  lemma FailEnters(h: Hub, e: Event, now: Time, to: Phase)
    requires e.Fail? && TaskIn(h, e.s) && h.tasks[e.s].phase != to
    ensures e.s in TaskStep(h, e, now).tasks && TaskStep(h, e, now).tasks[e.s].phase == to <==> Enters(h, e, now, to)
  {
    if Working(h.tasks[e.s].phase) { FailGoes(h, e, now); }
    hide LeaseOver, FailStep, WaitsForMemory;
  }

  lemma FailGoes(h: Hub, e: Event, now: Time)
    requires e.Fail? && TaskIn(h, e.s) && Working(h.tasks[e.s].phase)
    ensures var h' := FailStep(h, e.s, e.failure, now);
            if Unowned(ItemOf(h, e.s)) && !HeaderOf(h, e.s).cancelled && !e.failure.terminal && ItemOf(h, e.s).jobId.Some?
            then e.s in h'.tasks && h'.tasks[e.s].phase == Recovering(e.failure)
            else if WaitsForMemory(h, e, now) then e.s in h'.tasks && h'.tasks[e.s].phase == Handoff
            else e.s !in h'.tasks
  {
    ClassifyEnters(h, e.s, e.failure, now);
    hide LeaseOver, Classify;
  }

  lemma ReconciledEnters(h: Hub, e: Event, now: Time, to: Phase)
    requires e.Reconciled? && TaskIn(h, e.s) && h.tasks[e.s].phase != to
    ensures e.s in TaskStep(h, e, now).tasks && TaskStep(h, e, now).tasks[e.s].phase == to <==> Enters(h, e, now, to)
  {
    if h.tasks[e.s].phase.Recovering? {
      ReconciledGoes(h, e, now);
    } else {
      hide ReconciledStep;
    }
    hide LeaseOver, ReconciledStep, WaitsForMemory;
  }

  lemma ReconciledGoes(h: Hub, e: Event, now: Time)
    requires e.Reconciled? && TaskIn(h, e.s) && h.tasks[e.s].phase.Recovering?
    ensures var h' := ReconciledStep(h, e.s, e.last, now);
            if WaitsForMemory(h, e, now) then e.s in h'.tasks && h'.tasks[e.s].phase == Handoff else e.s !in h'.tasks
  {
    var b := h.tasks[e.s].id.0;
    var g := Expired(h, b, now);
    ExpiredIs(h, b, now, h.tasks[e.s].id);
    ClassifyEnters(g, e.s, FailureOf(h, e), now);
    hide LeaseOver, Expires, Expired, Classify;
  }

  lemma PollEnters(h: Hub, e: Event, now: Time, to: Phase)
    requires e.Poll? && TaskIn(h, e.s) && h.tasks[e.s].phase != to
    ensures e.s in TaskStep(h, e, now).tasks && TaskStep(h, e, now).tasks[e.s].phase == to <==> Enters(h, e, now, to)
  {
    ExpiredIs(h, h.tasks[e.s].id.0, now, h.tasks[e.s].id);
    LeaseOverIff(h, h.tasks[e.s].id.0, now);
    hide LeaseOver, Expires, Expired, FailureOf;
  }

  lemma SucceedEnters(h: Hub, e: Event, now: Time, to: Phase)
    requires e.Succeed? && TaskIn(h, e.s) && h.tasks[e.s].phase != to
    ensures e.s in TaskStep(h, e, now).tasks && TaskStep(h, e, now).tasks[e.s].phase == to <==> Enters(h, e, now, to)
  {
    ExpiredIs(h, h.tasks[e.s].id.0, now, h.tasks[e.s].id);
    LeaseOverIff(h, h.tasks[e.s].id.0, now);
    hide LeaseOver, Expires, Expired, FailureOf;
  }

  lemma CloseEnters(h: Hub, e: Event, now: Time, to: Phase)
    requires (e.Complete? || e.HandoffDone? || e.CancelDone?) && TaskIn(h, e.s) && h.tasks[e.s].phase != to
    ensures e.s in TaskStep(h, e, now).tasks && TaskStep(h, e, now).tasks[e.s].phase == to <==> Enters(h, e, now, to)
  {
    hide LeaseOver, Avoiding, FailureOf;
  }

  // ---------------------------------------------------------------- a restart

  /** The saved batch's lease has run out while some of its saved work is unfinished. */
  ghost predicate SavedLeaseOver(h: Hub, b: BatchId, now: Time) {
    && b in h.savedHeaders && h.savedHeaders[b].lease.Some? && h.savedHeaders[b].lease.value <= now
    && exists id | id in h.saved :: id.0 == b && Active(h.saved[id])
  }

  lemma SavedLeaseOverIff(h: Hub, b: BatchId, now: Time)
    ensures SavedLeaseOver(h, b, now) <==> SavedExpires(h, b, now)
  {
    if SavedLeaseOver(h, b, now) {
      var id :| id in h.saved && id.0 == b && Active(h.saved[id]);
      assert Unfinished(h.saved[id].state);
    }
    if SavedExpires(h, b, now) {
      var id :| id in h.saved && id.0 == b && Unfinished(h.saved[id].state);
      assert Active(h.saved[id]);
    }
  }

  /**
   A restart starts from the saved rows with nothing running and nothing promised: fenced work of a lapsed
   lease is cancelled, active Voice work is uncertain, other running work is queued without worker and job.
   */
  lemma RestartIs(h: Hub, now: Time, id: ItemId)
    requires id in h.saved && id.0 in h.savedHeaders
    ensures var h' := Next(h, Restart, now);
            && h'.tasks == map[] && h'.held == {} && h'.leases == map[] && h'.reserved == 0.0
            && id in h'.items && id in h'.saved && h'.saved[id] == h'.items[id]
            && var x, over := h.saved[id], SavedLeaseOver(h, id.0, now);
            && h'.items[id] ==
               (if over && Active(x) then x.(state := Cancelled, retryAt := None)
                else if !over && h.savedHeaders[id.0].modality == Voice && (x.state == Running || x.state == CancelRequested)
                then x.(state := Uncertain, retryAt := None, recovery := true)
                else if x.state == Running then x.(state := Queued, studio := None, jobId := None)
                else x)
            && id.0 in h'.headers && h'.headers[id.0] == h.savedHeaders[id.0].(cancelled := h.savedHeaders[id.0].cancelled || over)
  {
    SavedLeaseOverIff(h, id.0, now);
    hide SavedExpires, SavedLeaseOver;
  }
}

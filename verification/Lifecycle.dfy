/**
 The life of one batch item: listed by the dispatcher, started, posted to a worker, polled, reconciled,
 retried, fenced, or handed to an operator.  A step is the code between two awaits, so everything
 another coroutine may do in between is another step.  `tallies` only count what happened.
 */
module Lifecycle {
  import opened Outcomes
  import opened BrokerItems

  type ItemId = (BatchId, nat)

  const MAX_TRIES := 3
  const MAX_INFRA_TRIES := 8
  const INFRA_RETRY_WINDOW_S: Time := 1800.0
  const RETRY_DELAYS_S: seq<Time> := [3.0, 10.0]
  const INFRA_RETRY_DELAYS_S: seq<Time> := [5.0, 15.0, 30.0, 60.0, 120.0, 300.0, 300.0]
  const CAPACITY_RETRY_S: Time := 30.0
  const HANDED_OVER_RETRY_S: Time := 3.0
  const FAILED_WORKER_AVOID_S: Time := 90.0

  /** The `k`-th delay of a list, the last one for every later try. */
  function Delay(delays: seq<Time>, k: nat): Time
    requires |delays| > 0
  {
    if k < |delays| then delays[k] else delays[|delays| - 1]
  }

  datatype Header = Header(modality: Modality, cancelled: bool, lease: Option<Time>)

  /** The classifiers' answers about one exception; `terminal` says the worker itself reported the end. */
  datatype Failure = Failure(retryable: bool, capacity: bool, transport: bool, terminal: bool)

  datatype Phase = Fresh | Posted | Polling | Recording | Recovering(failure: Failure) | Handoff | Cancelling

  datatype Task = Task(id: ItemId, phase: Phase)

  /** Dispatches and refunds since the last Hub start, the item's counters at that start, and posts ever. */
  datatype Tally = Tally(dispatched: nat, refunded: nat, posted: nat, baseTries: nat, baseInfra: nat)

  datatype Hub = Hub(
    machines: map<StudioId, Machine>,
    headers: map<BatchId, Header>, items: map<ItemId, Item>,
    savedHeaders: map<BatchId, Header>, saved: map<ItemId, Item>,
    tasks: map<StudioId, Task>, held: set<ItemId>, leases: map<Machine, string>, reserved: Gb,
    tallies: map<ItemId, Tally>)

  datatype Event =
    | Submit(newBatch: BatchId, header: Header, size: nat)
    | Hold(ids: set<ItemId>)
    | Dispatch(id: ItemId, studio: StudioId, reserve: Gb)
    | Begin(s: StudioId, refused: bool, peerChanged: bool)
    | Accept(s: StudioId, job: string)
    | Poll(s: StudioId)
    | Succeed(s: StudioId)
    | Complete(s: StudioId)
    | Fail(s: StudioId, failure: Failure)
    | Reconciled(s: StudioId, last: Option<Failure>)
    | HandoffDone(s: StudioId, released: bool)
    | CancelDone(s: StudioId)
    | CancelBatch(batch: BatchId)
    | ExpireBatch(batch: BatchId)
    | TakeOver(id: ItemId)
    | Adopt(id: ItemId, end: ItemState)
    | Save(batch: BatchId)
    | Acquire(m: Machine, owner: string, renderWaits: bool)
    | Free(m: Machine, owner: string)
    | Restart

  // ---------------------------------------------------------------- parts of steps

  predicate Owns(x: Item) {
    x.state.Uncertain? || x.recovery
  }

  function MarkUncertain(x: Item): Item {
    x.(state := Uncertain, retryAt := None, recovery := true)
  }

  function BusyMachines(h: Hub): set<Machine> {
    h.leases.Keys + set s | s in h.tasks && s in h.machines :: h.machines[s]
  }

  function Clip(g: Gb): Gb {
    if g < 0.0 then 0.0 else g
  }

  predicate TaskIn(h: Hub, s: StudioId) {
    s in h.tasks && s in h.machines && h.tasks[s].id in h.items && h.tasks[s].id.0 in h.headers && h.tasks[s].id in h.tallies
  }

  function ItemOf(h: Hub, s: StudioId): Item
    requires TaskIn(h, s)
  {
    h.items[h.tasks[s].id]
  }

  function HeaderOf(h: Hub, s: StudioId): Header
    requires TaskIn(h, s)
  {
    h.headers[h.tasks[s].id.0]
  }

  function Count(h: Hub, id: ItemId, t: Tally): Hub {
    h.(tallies := h.tallies[id := t])
  }

  function InPhase(h: Hub, s: StudioId, p: Phase): Hub
    requires TaskIn(h, s)
  {
    h.(tasks := h.tasks[s := h.tasks[s].(phase := p)])
  }

  /** The `finally` block: the item is left as `x`, its worker and its reservation are given back. */
  function Finish(h: Hub, s: StudioId, x: Item): Hub
    requires TaskIn(h, s)
  {
    h.(items := h.items[h.tasks[s].id := x.(reserved := 0.0)], tasks := h.tasks - {s}, reserved := Clip(h.reserved - x.reserved))
  }

  function Refund(h: Hub, s: StudioId): Hub
    requires TaskIn(h, s)
  {
    var id := h.tasks[s].id;
    Count(h, id, h.tallies[id].(refunded := h.tallies[id].refunded + 1))
  }

  /** A lapsed lease with unfinished work fences the whole batch. */
  predicate Expires(h: Hub, b: BatchId, now: Time) {
    b in h.headers && LeaseExpired(h.headers[b].lease, now) && exists id | id in h.items :: id.0 == b && Unfinished(h.items[id].state)
  }

  function Expired(h: Hub, b: BatchId, now: Time): Hub {
    if !Expires(h, b, now) then h
    else h.(headers := h.headers[b := h.headers[b].(cancelled := true)],
            items := map id | id in h.items :: if id.0 == b then Fence(h.items[id]) else h.items[id])
  }

  // ---------------------------------------------------------------- steps of a task

  function BeginStep(h: Hub, s: StudioId, refused: bool, peerChanged: bool, now: Time): Hub
    requires TaskIn(h, s)
  {
    var x, id := ItemOf(h, s), h.tasks[s].id;
    if Owns(x) then Finish(h, s, x)
    else if Expires(h, id.0, now) then var e := Expired(h, id.0, now); Finish(e, s, e.items[id].(state := Cancelled))
    else if refused then Finish(h, s, x.(state := Error))
    else if peerChanged then Finish(Refund(h, s), s, x.(state := Queued, studio := None, jobId := None, tries := Back(x.tries)))
    else InPhase(Count(h, id, h.tallies[id].(posted := h.tallies[id].posted + 1)), s, Posted)
  }

  function AcceptStep(h: Hub, s: StudioId, job: string, now: Time): Hub
    requires TaskIn(h, s)
  {
    var id := h.tasks[s].id;
    var a := h.(items := h.items[id := h.items[id].(jobId := Some(job))]);
    var e := Expired(a, id.0, now);
    if Expires(a, id.0, now) || a.headers[id.0].cancelled then InPhase(e, s, Cancelling) else InPhase(a, s, Polling)
  }

  function PollStep(h: Hub, s: StudioId, now: Time): Hub
    requires TaskIn(h, s)
  {
    var x, id := ItemOf(h, s), h.tasks[s].id;
    if Owns(x) then Finish(h, s, x)
    else if Expires(h, id.0, now) || h.headers[id.0].cancelled then InPhase(Expired(h, id.0, now), s, Cancelling)
    else h
  }

  /** The worker reports the job done: adopt it, for Voice only after its audio was checked. */
  function SucceedStep(h: Hub, s: StudioId, now: Time): Hub
    requires TaskIn(h, s)
  {
    var x, id := ItemOf(h, s), h.tasks[s].id;
    if Owns(x) then Finish(h, s, x)
    else if Expires(h, id.0, now) then var e := Expired(h, id.0, now); Finish(e, s, e.items[id])
    else if h.headers[id.0].modality == Voice then InPhase(h, s, Recording)
    else Finish(h, s, x.(state := Done))
  }

  function CompleteStep(h: Hub, s: StudioId): Hub
    requires TaskIn(h, s)
  {
    var x := ItemOf(h, s);
    if Owns(x) then Finish(h, s, x) else Finish(h, s, x.(state := Done))
  }

  /** The retry classifier. */
  function Classify(h: Hub, s: StudioId, f: Failure, now: Time): Hub
    requires TaskIn(h, s)
  {
    var x, cancelled := ItemOf(h, s), HeaderOf(h, s).cancelled;
    var since := if x.infraSince.Some? then x.infraSince.value else now;
    if HeaderOf(h, s).modality == Voice && x.jobId.Some? && f.transport then Finish(h, s, MarkUncertain(x))
    else if f.retryable && f.capacity && !cancelled then InPhase(h, s, Handoff)
    else if f.retryable && f.transport && !cancelled then
      if x.infra + 1 < MAX_INFRA_TRIES && now - since < INFRA_RETRY_WINDOW_S
      then Finish(h, s, x.(state := Queued, infra := x.infra + 1, infraSince := Some(since), avoid := Avoiding(h, s, now),
                           retryAt := Some(now + Delay(INFRA_RETRY_DELAYS_S, x.infra))))
      else Finish(h, s, x.(state := Error, infra := x.infra + 1, infraSince := Some(since), avoid := Avoiding(h, s, now), retryAt := None))
    else if f.retryable && x.tries < MAX_TRIES && !cancelled
    then Finish(h, s, x.(state := Queued, retryAt := Some(now + Delay(RETRY_DELAYS_S, Back(x.tries)))))
    else Finish(h, s, x.(state := Error, retryAt := None))
  }

  function FailStep(h: Hub, s: StudioId, f: Failure, now: Time): Hub
    requires TaskIn(h, s)
  {
    var x := ItemOf(h, s);
    if Owns(x) then Finish(h, s, x)
    else if HeaderOf(h, s).cancelled then Finish(h, s, x.(state := Cancelled))
    else if f.terminal || x.jobId.None? then Classify(h, s, f, now)
    else InPhase(h, s, Recovering(f))
  }

  /** Reconciliation ended: with the worker's own end of the job, or without one. */
  function ReconciledStep(h: Hub, s: StudioId, last: Option<Failure>, now: Time): Hub
    requires TaskIn(h, s) && h.tasks[s].phase.Recovering?
  {
    var e := Expired(h, h.tasks[s].id.0, now);
    var x := e.items[h.tasks[s].id];
    if Owns(x) then Finish(e, s, x)
    else Classify(e, s, if last.Some? then last.value else h.tasks[s].phase.failure, now)
  }

  /** The capacity requeue, after the idle siblings answered; nothing is looked at again. */
  function HandoffStep(h: Hub, s: StudioId, released: bool, now: Time): Hub
    requires TaskIn(h, s)
  {
    var x := ItemOf(h, s);
    Finish(Refund(h, s), s, x.(state := Queued, tries := Back(x.tries), avoid := Avoiding(h, s, now),
                               retryAt := Some(now + if released then HANDED_OVER_RETRY_S else CAPACITY_RETRY_S)))
  }

  function TaskStep(h: Hub, e: Event, now: Time): Hub
    requires OnTask(e) && TaskIn(h, e.s)
  {
    var p := h.tasks[e.s].phase;
    match e
    case Begin(s, refused, peerChanged) => if p.Fresh? then BeginStep(h, s, refused, peerChanged, now) else h
    case Accept(s, job) => if p.Posted? then AcceptStep(h, s, job, now) else h
    case Poll(s) => if p.Polling? then PollStep(h, s, now) else h
    case Succeed(s) => if p.Polling? || p.Recovering? then SucceedStep(h, s, now) else h
    case Complete(s) => if p.Recording? then CompleteStep(h, s) else h
    case Fail(s, f) => if p.Posted? || p.Polling? || p.Recording? then FailStep(h, s, f, now) else h
    case Reconciled(s, last) => if p.Recovering? then ReconciledStep(h, s, last, now) else h
    case HandoffDone(s, released) => if p.Handoff? then HandoffStep(h, s, released, now) else h
    case CancelDone(s) => if p.Cancelling? then Finish(h, s, ItemOf(h, s).(state := Cancelled)) else h
  }

  /** The machine that just failed this item is left alone for a while. */
  function Avoiding(h: Hub, s: StudioId, now: Time): map<Machine, Time>
    requires TaskIn(h, s)
  {
    ItemOf(h, s).avoid[h.machines[s] := now + FAILED_WORKER_AVOID_S]
  }

  predicate OnTask(e: Event) {
    e.Begin? || e.Accept? || e.Poll? || e.Succeed? || e.Complete? || e.Fail? || e.Reconciled? || e.HandoffDone? || e.CancelDone?
  }

  // ---------------------------------------------------------------- other steps

  /** An item as a Hub restart reloads it from the ledger. */
  function Restore(x: Item, d: Header, expired: bool): Item {
    if expired then Fence(x)
    else if d.modality == Voice && (x.state.Running? || x.state.CancelRequested?) then MarkUncertain(x)
    else if x.state.Running? then x.(state := Queued, studio := None, jobId := None)
    else x
  }

  predicate SavedExpires(h: Hub, b: BatchId, now: Time) {
    b in h.savedHeaders && LeaseExpired(h.savedHeaders[b].lease, now)
    && exists id | id in h.saved :: id.0 == b && Unfinished(h.saved[id].state)
  }

  function RestoredItems(h: Hub, now: Time): map<ItemId, Item> {
    map id | id in h.saved && id.0 in h.savedHeaders :: Restore(h.saved[id], h.savedHeaders[id.0], SavedExpires(h, id.0, now))
  }

  function RestoredHeaders(h: Hub, now: Time): map<BatchId, Header> {
    map b | b in h.savedHeaders ::
      if SavedExpires(h, b, now) then h.savedHeaders[b].(cancelled := true) else h.savedHeaders[b]
  }

  function Restarted(t: Tally, x: Item): Tally {
    Tally(0, 0, t.posted, x.tries, x.infra)
  }

  function RestartedTallies(h: Hub, now: Time): map<ItemId, Tally> {
    map id | id in h.tallies :: if id in RestoredItems(h, now) then Restarted(h.tallies[id], RestoredItems(h, now)[id]) else h.tallies[id]
  }

  function RestartStep(h: Hub, now: Time): Hub {
    var items, headers := RestoredItems(h, now), RestoredHeaders(h, now);
    h.(headers := headers, items := items, savedHeaders := headers, saved := items, tasks := map[], held := {}, leases := map[], reserved := 0.0,
        tallies := RestartedTallies(h, now))
  }

  /** Operator recovery of a Voice item that is active or uncertain; saved at once. */
  function TakeOverStep(h: Hub, id: ItemId): Hub
    requires id in h.items && id.0 in h.headers
  {
    var x := h.items[id];
    if h.headers[id.0].modality != Voice || !(x.state.Running? || x.state.CancelRequested? || x.state.Uncertain?) then h
    else h.(items := h.items[id := MarkUncertain(x)], saved := h.saved[id := MarkUncertain(x)])
  }

  /** The operator's reconciliation found how the worker's job ended. */
  function AdoptStep(h: Hub, id: ItemId, end: ItemState): Hub {
    if id in h.items && h.items[id].recovery && (end.Done? || end.Error? || end.Cancelled?)
    then h.(items := h.items[id := h.items[id].(state := end)]) else h
  }

  function SaveStep(h: Hub, b: BatchId): Hub
    requires b in h.headers
  {
    h.(savedHeaders := h.savedHeaders[b := h.headers[b]],
       saved := h.saved + map id | id in h.items && id.0 == b :: h.items[id])
  }

  function CancelStep(h: Hub, b: BatchId): Hub
    requires b in h.headers
  {
    h.(headers := h.headers[b := h.headers[b].(cancelled := true)],
       items := map id | id in h.items ::
         if id.0 == b && h.items[id].state.Queued? then h.items[id].(state := Cancelled, retryAt := None) else h.items[id])
  }

  /** Start an item the dispatcher still has on its list; neither its state nor its batch is looked at again. */
  function DispatchStep(h: Hub, id: ItemId, s: StudioId, reserve: Gb): Hub {
    if id !in h.held || id !in h.items || id !in h.tallies || s !in h.machines || h.machines[s] in BusyMachines(h) || reserve < 0.0 then h
    else Count(h, id, h.tallies[id].(dispatched := h.tallies[id].dispatched + 1))
           .(items := h.items[id := Started(h.items[id], s, reserve)], tasks := h.tasks[s := Task(id, Fresh)],
             held := h.held - {id}, reserved := h.reserved + reserve)
  }

  /** A new batch: queued items, saved at once. */
  function SubmitStep(h: Hub, b: BatchId, d: Header, n: nat): Hub {
    if b in h.headers || b in h.savedHeaders || exists id | id in h.tallies :: id.0 == b then h else
    var queued := map i | 0 <= i < n :: (b, i) := NEW_ITEM;
    h.(headers := h.headers[b := d], items := h.items + queued, savedHeaders := h.savedHeaders[b := d], saved := h.saved + queued,
       tallies := h.tallies + map i | 0 <= i < n :: (b, i) := Tally(0, 0, 0, 0, 0))
  }

  function Next(h: Hub, e: Event, now: Time): Hub {
    match e
    case Submit(b, d, n) => SubmitStep(h, b, d, n)
    case Hold(ids) => h.(held := set id | id in ids && id in h.items && h.items[id].state.Queued?)
    case Dispatch(id, s, reserve) => DispatchStep(h, id, s, reserve)
    case CancelBatch(b) => if b in h.headers then CancelStep(h, b) else h
    case ExpireBatch(b) => Expired(h, b, now)
    case TakeOver(id) => if id in h.items && id.0 in h.headers then TakeOverStep(h, id) else h
    case Adopt(id, end) => AdoptStep(h, id, end)
    case Save(b) => if b in h.headers then SaveStep(h, b) else h
    case Acquire(m, owner, renderWaits) =>
      if m in BusyMachines(h) || renderWaits then h else h.(leases := h.leases[m := owner])
    case Free(m, owner) => if m in h.leases && h.leases[m] == owner then h.(leases := h.leases - {m}) else h
    case Restart => RestartStep(h, now)
    case _ => if TaskIn(h, e.s) then TaskStep(h, e, now) else h
  }

  ghost function Run(h: Hub, es: seq<(Event, Time)>): Hub
    decreases es
  {
    if es == [] then h else Run(Next(h, es[0].0, es[0].1), es[1..])
  }

  // ---------------------------------------------------------------- exclusion and reservations

  function Reserves(h: Hub): map<StudioId, Gb> {
    map s | s in h.tasks && h.tasks[s].id in h.items :: h.items[h.tasks[s].id].reserved
  }

  ghost function Sum(m: map<StudioId, Gb>): Gb {
    if m == map[] then 0.0 else
    var s :| s in m;
    m[s] + Sum(m - {s})
  }

  lemma {:induction false} SumRemoves(m: map<StudioId, Gb>, s: StudioId)
    requires s in m
    ensures Sum(m) == m[s] + Sum(m - {s})
    decreases |m|
  {
    var t :| t in m && Sum(m) == m[t] + Sum(m - {t});
    if t != s {
      SumRemoves(m - {t}, s);
      SumRemoves(m - {s}, t);
      assert m - {t} - {s} == m - {s} - {t};
    }
  }

  lemma {:induction false} SumIsNotNegative(m: map<StudioId, Gb>)
    requires forall s | s in m :: m[s] >= 0.0
    ensures Sum(m) >= 0.0
    decreases |m|
  {
    if m != map[] {
      var t :| t in m && Sum(m) == m[t] + Sum(m - {t});
      SumIsNotNegative(m - {t});
    }
  }

  lemma SumAdds(m: map<StudioId, Gb>, s: StudioId, g: Gb)
    requires s !in m
    ensures Sum(m[s := g]) == Sum(m) + g
  {
    SumRemoves(m[s := g], s);
    assert m[s := g] - {s} == m;
  }

  predicate TaskOk(h: Hub, s: StudioId) {
    && TaskIn(h, s) && !ItemOf(h, s).state.Queued? && ItemOf(h, s).tries >= 1 && ItemOf(h, s).reserved >= 0.0
    && h.machines[s] !in h.leases
  }

  predicate ItemOk(h: Hub, id: ItemId)
    requires id in h.items
  {
    id.0 in h.headers && id in h.tallies && (h.items[id].state.Uncertain? ==> h.items[id].recovery)
  }

  predicate SavedOk(h: Hub, id: ItemId)
    requires id in h.saved
  {
    id in h.tallies && (h.saved[id].state.Uncertain? ==> h.saved[id].recovery)
  }

  /** What a listed item can have become: cancelled, or adopted by an operator who took it over earlier. */
  predicate Listable(x: Item) {
    x.state.Queued? || x.state.Cancelled? || (x.recovery && (x.state.Done? || x.state.Error?))
  }

  /** Whatever the dispatcher still lists has no task. */
  ghost predicate HeldOk(h: Hub, id: ItemId) {
    && id in h.items && Listable(h.items[id])
    && forall s | s in h.tasks :: h.tasks[s].id != id
  }

  /** One machine runs at most one thing, and one item at most one task. */
  ghost predicate Exclusive(h: Hub) {
    forall s, t | s in h.tasks && t in h.tasks && s != t ::
      h.tasks[s].id != h.tasks[t].id && (s in h.machines && t in h.machines ==> h.machines[s] != h.machines[t])
  }

  ghost predicate Safe(h: Hub) {
    && (forall s {:trigger TaskOk(h, s)} | s in h.tasks :: TaskOk(h, s))
    && (forall id {:trigger ItemOk(h, id)} | id in h.items :: ItemOk(h, id))
    && (forall id {:trigger SavedOk(h, id)} | id in h.saved :: SavedOk(h, id))
    && (forall id {:trigger HeldOk(h, id)} | id in h.held :: HeldOk(h, id))
    && Exclusive(h)
    && h.reserved == Sum(Reserves(h))
  }

  lemma SafeAt(h: Hub, s: StudioId)
    requires Safe(h) && s in h.tasks
    ensures TaskOk(h, s) && ItemOk(h, h.tasks[s].id) && h.tasks[s].id !in h.held
    ensures h.reserved >= ItemOf(h, s).reserved
    ensures Sum(Reserves(h)) == ItemOf(h, s).reserved + Sum(Reserves(h) - {s})
  {
    assert TaskOk(h, s);
    assert ItemOk(h, h.tasks[s].id);
    forall id | id in h.held ensures id != h.tasks[s].id { assert HeldOk(h, id); }
    SumRemoves(Reserves(h), s);
    forall t | t in Reserves(h) ensures Reserves(h)[t] >= 0.0 { assert TaskOk(h, t); }
    SumIsNotNegative(Reserves(h) - {s});
  }

  lemma TaskFacts(h: Hub, s: StudioId)
    requires Safe(h) && s in h.tasks
    ensures TaskIn(h, s) && ItemOf(h, s).tries >= 1 && !ItemOf(h, s).state.Queued? && (ItemOf(h, s).state.Uncertain? ==> ItemOf(h, s).recovery)
  {
    SafeAt(h, s);
  }

  /** `h'` keeps every task's promise: it has no new tasks, and each remaining one has an item that still runs. */
  ghost predicate Follows(h: Hub, h': Hub) {
    && h'.machines == h.machines && h'.leases == h.leases && h'.held == h.held && h'.saved == h.saved
    && h'.headers.Keys == h.headers.Keys && h'.tallies.Keys == h.tallies.Keys && h'.items.Keys == h.items.Keys
    && (forall s | s in h'.tasks :: s in h.tasks && h'.tasks[s].id == h.tasks[s].id)
    && (forall s | s in h'.tasks && h'.tasks[s].id in h'.items :: Keeps(h.items[h'.tasks[s].id], h'.items[h'.tasks[s].id]))
    && (forall id | id in h.items :: Sane(h'.items[id]) && (id in h.held ==> Ready(h.items[id], h'.items[id])))
  }

  predicate Keeps(x: Item, x': Item) {
    x'.reserved == x.reserved && x'.tries == x.tries && (!x.state.Queued? ==> !x'.state.Queued?)
  }

  predicate Sane(x: Item) {
    x.state.Uncertain? ==> x.recovery
  }

  predicate Ready(x: Item, x': Item) {
    Listable(x) ==> Listable(x')
  }

  lemma FollowsTask(h: Hub, h': Hub, s: StudioId)
    requires Safe(h) && Follows(h, h') && s in h'.tasks
    ensures TaskOk(h', s)
  {
    assert TaskOk(h, s);
  }

  lemma FollowsHeld(h: Hub, h': Hub, id: ItemId)
    requires Safe(h) && Follows(h, h') && id in h'.held
    ensures HeldOk(h', id)
  {
    assert HeldOk(h, id);
  }

  lemma FollowsIsSafe(h: Hub, h': Hub)
    requires Safe(h) && Follows(h, h') && h'.reserved == Sum(Reserves(h'))
    ensures Safe(h')
  {
    hide TaskOk, HeldOk, Reserves, Sum, Keeps, Ready;
    forall t | t in h'.tasks ensures TaskOk(h', t) { FollowsTask(h, h', t); }
    forall id | id in h'.held ensures HeldOk(h', id) { FollowsHeld(h, h', id); }
    forall id | id in h'.items ensures ItemOk(h', id) { assert ItemOk(h, id); }
    forall id | id in h'.saved ensures SavedOk(h', id) { assert SavedOk(h, id); }
  }

  /** Giving a worker back returns exactly what its item had reserved; nothing is clipped. */
  lemma FinishIsSafe(h: Hub, s: StudioId, x: Item)
    requires Safe(h) && TaskIn(h, s) && x.reserved == ItemOf(h, s).reserved && Sane(x)
    ensures Safe(Finish(h, s, x)) && Finish(h, s, x).reserved == h.reserved - x.reserved
  {
    SafeAt(h, s);
    var h' := Finish(h, s, x);
    FinishFollows(h, s, x);
    assert Reserves(h') == Reserves(h) - {s} by { hide Safe, TaskOk, Sum; OthersDiffer(h, s); }
    hide Follows, Safe, TaskOk, ItemOk, Reserves, Sum;
    FollowsIsSafe(h, h');
  }

  lemma OthersDiffer(h: Hub, s: StudioId)
    requires Safe(h) && s in h.tasks
    ensures forall t | t in h.tasks && t != s :: h.tasks[t].id != h.tasks[s].id
  {
  }

  lemma FinishFollows(h: Hub, s: StudioId, x: Item)
    requires Safe(h) && TaskIn(h, s) && Sane(x)
    ensures Follows(h, Finish(h, s, x))
  {
    OthersDiffer(h, s);
    SafeAt(h, s);
    forall id | id in h.items ensures Sane(h.items[id]) { assert ItemOk(h, id); }
    assert h.tasks[s].id !in h.held;
    hide Safe, TaskOk, ItemOk, Sum, Reserves, Listable, Clip;
  }

  /** Only the phase, the tallies, or fields of the item that nobody shares. */
  lemma QuietIsSafe(h: Hub, h': Hub, s: StudioId)
    requires Safe(h) && TaskIn(h, s)
    requires h' == h.(items := h'.items, tasks := h'.tasks, tallies := h'.tallies)
    requires h'.tallies.Keys == h.tallies.Keys && h'.tasks.Keys == h.tasks.Keys && h'.items.Keys == h.items.Keys
    requires forall t | t in h.tasks :: h'.tasks[t].id == h.tasks[t].id
    requires forall id | id in h.items :: h'.items[id] == h.items[id].(jobId := h'.items[id].jobId)
    ensures Safe(h')
  {
    forall id | id in h.items ensures Sane(h'.items[id]) { assert ItemOk(h, id); }
    assert Reserves(h') == Reserves(h) by { hide Safe, Sum; }
    assert Follows(h, h') by { hide Safe, Sum, Reserves; }
    hide Follows;
    FollowsIsSafe(h, h');
  }

  /** An item left alone or taken out of work. */
  predicate Withdrawn(x: Item, x': Item) {
    x' == x || (Unfinished(x.state) && x' == x.(state := Cancelled, retryAt := None))
  }

  lemma WithdrawalKeeps(x: Item, x': Item)
    requires Withdrawn(x, x')
    ensures Keeps(x, x') && Ready(x, x') && (Sane(x) ==> Sane(x')) && x'.reserved == x.reserved
  {
  }

  /** Taking items out of work, whichever, leaves every task and reservation as it was. */
  lemma WithdrawalIsSafe(h: Hub, h': Hub)
    requires Safe(h) && h' == h.(headers := h'.headers, items := h'.items)
    requires h'.headers.Keys == h.headers.Keys && h'.items.Keys == h.items.Keys
    requires forall id | id in h.items :: Withdrawn(h.items[id], h'.items[id])
    ensures Safe(h')
  {
    forall id | id in h.items ensures Sane(h.items[id]) { assert ItemOk(h, id); }
    assert h.reserved == Sum(Reserves(h));
    hide Safe, Sum, Withdrawn, Keeps, Ready, Sane;
    forall id | id in h.items
      ensures Keeps(h.items[id], h'.items[id]) && Ready(h.items[id], h'.items[id]) && Sane(h'.items[id]) && h'.items[id].reserved == h.items[id].reserved
    {
      WithdrawalKeeps(h.items[id], h'.items[id]);
    }
    assert Reserves(h') == Reserves(h);
    hide Reserves;
    FollowsIsSafe(h, h');
  }

  /** An expiry takes the unfinished items of one batch out of work, and nothing else. */
  lemma ExpiryWithdraws(h: Hub, b: BatchId, now: Time)
    ensures var h' := Expired(h, b, now);
            && h' == h.(headers := h'.headers, items := h'.items) && h'.headers.Keys == h.headers.Keys && h'.items.Keys == h.items.Keys
            && forall id | id in h.items :: Withdrawn(h.items[id], h'.items[id]) && (h'.items[id] == h.items[id] || h'.items[id] == Fence(h.items[id]))
  {
    if Expires(h, b, now) {
      hide Withdrawn, Fence;
      forall id | id in h.items ensures Withdrawn(h.items[id], h.items[id]) && Withdrawn(h.items[id], Fence(h.items[id])) {
        FenceWithdraws(h.items[id]);
      }
    } else {
      hide Expired, Fence;
    }
  }

  lemma FenceWithdraws(x: Item)
    ensures Withdrawn(x, x) && Withdrawn(x, Fence(x))
  {
  }

  lemma ExpiryIsSafe(h: Hub, b: BatchId, now: Time)
    requires Safe(h)
    ensures Safe(Expired(h, b, now)) && Expired(h, b, now).tasks == h.tasks && Expired(h, b, now).items.Keys == h.items.Keys
    ensures forall s | TaskIn(h, s) :: TaskIn(Expired(h, b, now), s)
    ensures forall id | id in h.items :: Expired(h, b, now).items[id] == h.items[id] || Expired(h, b, now).items[id] == Fence(h.items[id])
  {
    hide Safe;
    ExpiryWithdraws(h, b, now);
    hide Expired, Withdrawn;
    WithdrawalIsSafe(h, Expired(h, b, now));
  }

  lemma PhaseIsSafe(h: Hub, s: StudioId, p: Phase)
    requires Safe(h) && TaskIn(h, s)
    ensures Safe(InPhase(h, s, p))
  {
    hide Safe;
    QuietIsSafe(h, InPhase(h, s, p), s);
  }

  lemma CountIsSafe(h: Hub, s: StudioId, t: Tally)
    requires Safe(h) && TaskIn(h, s)
    ensures Safe(Count(h, h.tasks[s].id, t)) && TaskIn(Count(h, h.tasks[s].id, t), s)
  {
    hide Safe;
    QuietIsSafe(h, Count(h, h.tasks[s].id, t), s);
  }

  lemma BeginIsSafe(h: Hub, s: StudioId, refused: bool, peerChanged: bool, now: Time)
    requires Safe(h) && TaskIn(h, s)
    ensures Safe(BeginStep(h, s, refused, peerChanged, now))
  {
    SafeAt(h, s);
    hide Safe, Finish, InPhase, Count, Expired, Expires;
    var x, id := ItemOf(h, s), h.tasks[s].id;
    if Owns(x) { FinishIsSafe(h, s, x); }
    else if Expires(h, id.0, now) { ExpiredBeginIsSafe(h, s, now); }
    else if refused { FinishIsSafe(h, s, x.(state := Error)); }
    else if peerChanged { RefundIsSafe(h, s, x.(state := Queued, studio := None, jobId := None, tries := Back(x.tries))); }
    else { PostIsSafe(h, s); }
  }

  lemma ExpiredBeginIsSafe(h: Hub, s: StudioId, now: Time)
    requires Safe(h) && TaskIn(h, s)
    ensures var e := Expired(h, h.tasks[s].id.0, now);
            TaskIn(e, s) && e.tasks == h.tasks && Safe(Finish(e, s, ItemOf(e, s).(state := Cancelled)))
  {
    ExpiryIsSafe(h, h.tasks[s].id.0, now);
    hide Safe, Finish, Expired;
    var e := Expired(h, h.tasks[s].id.0, now);
    FinishIsSafe(e, s, ItemOf(e, s).(state := Cancelled));
  }

  lemma PostIsSafe(h: Hub, s: StudioId)
    requires Safe(h) && TaskIn(h, s)
    ensures var t := h.tallies[h.tasks[s].id]; var c := Count(h, h.tasks[s].id, t.(posted := t.posted + 1));
            TaskIn(c, s) && Safe(InPhase(c, s, Posted))
  {
    var t := h.tallies[h.tasks[s].id];
    CountIsSafe(h, s, t.(posted := t.posted + 1));
    CountKeepsTask(h, s, t.(posted := t.posted + 1));
    hide Safe, Count, InPhase;
    PhaseIsSafe(Count(h, h.tasks[s].id, t.(posted := t.posted + 1)), s, Posted);
  }

  lemma CountKeepsTask(h: Hub, s: StudioId, t: Tally)
    requires TaskIn(h, s)
    ensures TaskIn(Count(h, h.tasks[s].id, t), s) && Count(h, h.tasks[s].id, t).tasks == h.tasks
  {
  }

  lemma RefundIsSafe(h: Hub, s: StudioId, x: Item)
    requires Safe(h) && TaskIn(h, s) && x.reserved == ItemOf(h, s).reserved && Sane(x)
    ensures TaskIn(Refund(h, s), s) && Safe(Finish(Refund(h, s), s, x))
  {
    hide Safe, Finish;
    CountIsSafe(h, s, h.tallies[h.tasks[s].id].(refunded := h.tallies[h.tasks[s].id].refunded + 1));
    FinishIsSafe(Refund(h, s), s, x);
  }

  lemma AcceptIsSafe(h: Hub, s: StudioId, job: string, now: Time)
    requires Safe(h) && TaskIn(h, s)
    ensures Safe(AcceptStep(h, s, job, now))
  {
    hide Safe, InPhase, Expired, Expires;
    var id := h.tasks[s].id;
    var a := h.(items := h.items[id := h.items[id].(jobId := Some(job))]);
    QuietIsSafe(h, a, s);
    ExpiryIsSafe(a, id.0, now);
    PhaseIsSafe(a, s, Polling);
    PhaseIsSafe(Expired(a, id.0, now), s, Cancelling);
  }

  lemma PollIsSafe(h: Hub, s: StudioId, now: Time)
    requires Safe(h) && TaskIn(h, s)
    ensures Safe(PollStep(h, s, now))
  {
    SafeAt(h, s);
    hide Safe, InPhase, Expired, Expires, Finish;
    ExpiryIsSafe(h, h.tasks[s].id.0, now);
    FinishIsSafe(h, s, ItemOf(h, s));
    PhaseIsSafe(Expired(h, h.tasks[s].id.0, now), s, Cancelling);
  }

  lemma SucceedIsSafe(h: Hub, s: StudioId, now: Time)
    requires Safe(h) && TaskIn(h, s)
    ensures Safe(SucceedStep(h, s, now))
  {
    SafeAt(h, s);
    var x, id := ItemOf(h, s), h.tasks[s].id;
    ExpiryIsSafe(h, id.0, now);
    var e := Expired(h, id.0, now);
    SafeAt(e, s);
    hide Safe, InPhase, Expired, Expires, Finish;
    FinishIsSafe(h, s, x);
    FinishIsSafe(h, s, x.(state := Done));
    FinishIsSafe(e, s, e.items[id]);
    PhaseIsSafe(h, s, Recording);
  }

  lemma ClassifyIsSafe(h: Hub, s: StudioId, f: Failure, now: Time)
    requires Safe(h) && TaskIn(h, s)
    ensures Safe(Classify(h, s, f, now))
  {
    hide Safe, InPhase, Finish, Delay, Avoiding;
    var x := ItemOf(h, s);
    var h' := Classify(h, s, f, now);
    var since := if x.infraSince.Some? then x.infraSince.value else now;
    FinishIsSafe(h, s, MarkUncertain(x));
    PhaseIsSafe(h, s, Handoff);
    FinishIsSafe(h, s, x.(state := Queued, infra := x.infra + 1, infraSince := Some(since), avoid := Avoiding(h, s, now),
                          retryAt := Some(now + Delay(INFRA_RETRY_DELAYS_S, x.infra))));
    FinishIsSafe(h, s, x.(state := Error, infra := x.infra + 1, infraSince := Some(since), avoid := Avoiding(h, s, now), retryAt := None));
    FinishIsSafe(h, s, x.(state := Queued, retryAt := Some(now + Delay(RETRY_DELAYS_S, Back(x.tries)))));
    FinishIsSafe(h, s, x.(state := Error, retryAt := None));
  }

  lemma FailIsSafe(h: Hub, s: StudioId, f: Failure, now: Time)
    requires Safe(h) && TaskIn(h, s)
    ensures Safe(FailStep(h, s, f, now))
  {
    SafeAt(h, s);
    hide Safe, InPhase, Finish, Classify, TaskOk, ItemOk;
    if Owns(ItemOf(h, s)) { FinishIsSafe(h, s, ItemOf(h, s)); }
    else if HeaderOf(h, s).cancelled { FinishIsSafe(h, s, ItemOf(h, s).(state := Cancelled)); }
    else if f.terminal || ItemOf(h, s).jobId.None? { ClassifyIsSafe(h, s, f, now); }
    else { PhaseIsSafe(h, s, Recovering(f)); }
  }

  lemma ReconciledIsSafe(h: Hub, s: StudioId, last: Option<Failure>, now: Time)
    requires Safe(h) && TaskIn(h, s) && h.tasks[s].phase.Recovering?
    ensures Safe(ReconciledStep(h, s, last, now))
  {
    ExpiryIsSafe(h, h.tasks[s].id.0, now);
    var e := Expired(h, h.tasks[s].id.0, now);
    SafeAt(e, s);
    hide Safe, Expired, Finish, Classify;
    FinishIsSafe(e, s, e.items[h.tasks[s].id]);
    ClassifyIsSafe(e, s, if last.Some? then last.value else h.tasks[s].phase.failure, now);
  }

  lemma HandoffIsSafe(h: Hub, s: StudioId, released: bool, now: Time)
    requires Safe(h) && TaskIn(h, s)
    ensures Safe(HandoffStep(h, s, released, now))
  {
    var x := ItemOf(h, s);
    hide Safe, Finish, Avoiding, Refund;
    RefundIsSafe(h, s, x.(state := Queued, tries := Back(x.tries), avoid := Avoiding(h, s, now),
                          retryAt := Some(now + if released then HANDED_OVER_RETRY_S else CAPACITY_RETRY_S)));
  }

  lemma CloseIsSafe(h: Hub, s: StudioId, end: ItemState)
    requires Safe(h) && TaskIn(h, s) && (end.Done? || end.Cancelled?)
    ensures Safe(Finish(h, s, ItemOf(h, s).(state := end))) && Safe(CompleteStep(h, s))
  {
    SafeAt(h, s);
    var x := ItemOf(h, s);
    hide Safe, Finish, TaskOk, ItemOk;
    FinishIsSafe(h, s, x);
    FinishIsSafe(h, s, x.(state := end));
    FinishIsSafe(h, s, x.(state := Done));
  }

  lemma TaskStepIsSafe(h: Hub, e: Event, now: Time)
    requires Safe(h) && OnTask(e) && TaskIn(h, e.s)
    ensures Safe(TaskStep(h, e, now))
  {
    hide Safe, Finish, BeginStep, AcceptStep, PollStep, SucceedStep, CompleteStep, FailStep, ReconciledStep, HandoffStep;
    match e
    case Begin(s, refused, peerChanged) => BeginIsSafe(h, s, refused, peerChanged, now);
    case Accept(s, job) => AcceptIsSafe(h, s, job, now);
    case Poll(s) => PollIsSafe(h, s, now);
    case Succeed(s) => SucceedIsSafe(h, s, now);
    case Complete(s) => CloseIsSafe(h, s, Done);
    case Fail(s, f) => FailIsSafe(h, s, f, now);
    case Reconciled(s, last) => if h.tasks[s].phase.Recovering? { ReconciledIsSafe(h, s, last, now); }
    case HandoffDone(s, released) => HandoffIsSafe(h, s, released, now);
    case CancelDone(s) => CloseIsSafe(h, s, Cancelled);
  }

  lemma HoldIsSafe(h: Hub, ids: set<ItemId>)
    requires Safe(h)
    ensures Safe(h.(held := set id | id in ids && id in h.items && h.items[id].state.Queued?))
  {
    var h' := h.(held := set id | id in ids && id in h.items && h.items[id].state.Queued?);
    forall t | t in h'.tasks ensures TaskOk(h', t) { assert TaskOk(h, t); }
    forall id | id in h'.items ensures ItemOk(h', id) { assert ItemOk(h, id); }
    forall id | id in h'.saved ensures SavedOk(h', id) { assert SavedOk(h, id); }
    forall id | id in h'.held ensures HeldOk(h', id) {
      forall s | s in h.tasks ensures h.tasks[s].id != id { assert TaskOk(h, s); }
    }
    assert Reserves(h') == Reserves(h);
  }

  ghost predicate Dispatches(h: Hub, h': Hub, id: ItemId, s: StudioId, reserve: Gb) {
    && id in h.items && id in h.held && s in h.machines && reserve >= 0.0 && h.machines[s] !in BusyMachines(h)
    && h' == h.(items := h.items[id := Started(h.items[id], s, reserve)], tasks := h.tasks[s := Task(id, Fresh)],
                held := h.held - {id}, reserved := h.reserved + reserve, tallies := h'.tallies)
    && h'.tallies.Keys == h.tallies.Keys
  }

  lemma DispatchShape(h: Hub, id: ItemId, s: StudioId, reserve: Gb)
    requires DispatchStep(h, id, s, reserve) != h
    ensures Dispatches(h, DispatchStep(h, id, s, reserve), id, s, reserve)
  {
  }

  lemma FreeMachineHasNoTask(h: Hub, s: StudioId)
    requires Safe(h) && s in h.machines && h.machines[s] !in BusyMachines(h)
    ensures s !in h.tasks && h.machines[s] !in h.leases
    ensures forall t | t in h.tasks :: t in h.machines && h.machines[t] != h.machines[s]
  {
    forall t | t in h.tasks ensures t in h.machines && h.machines[t] != h.machines[s] { assert TaskOk(h, t); }
  }

  lemma DispatchReserves(h: Hub, h': Hub, id: ItemId, s: StudioId, reserve: Gb)
    requires Dispatches(h, h', id, s, reserve) && s !in h.tasks && forall t | t in h.tasks :: h.tasks[t].id != id
    ensures Sum(Reserves(h')) == Sum(Reserves(h)) + reserve
  {
    hide BusyMachines, Sum;
    assert Reserves(h') == Reserves(h)[s := reserve];
    SumAdds(Reserves(h), s, reserve);
  }

  lemma DispatchKeepsTask(h: Hub, h': Hub, id: ItemId, s: StudioId, reserve: Gb, t: StudioId)
    requires Dispatches(h, h', id, s, reserve) && ItemOk(h, id) && h.machines[s] !in h.leases && t in h'.tasks
    requires t != s ==> TaskOk(h, t) && h.tasks[t].id != id
    ensures TaskOk(h', t)
  {
    hide BusyMachines;
  }

  lemma DispatchKeepsHeld(h: Hub, h': Hub, id: ItemId, s: StudioId, reserve: Gb, o: ItemId)
    requires Dispatches(h, h', id, s, reserve) && o in h'.held && HeldOk(h, o)
    ensures HeldOk(h', o)
  {
    hide BusyMachines;
  }

  /** A dispatch takes a machine nobody holds and promises the memory it was admitted with. */
  lemma DispatchIsSafe(h: Hub, id: ItemId, s: StudioId, reserve: Gb)
    requires Safe(h)
    ensures Safe(DispatchStep(h, id, s, reserve))
  {
    hide DispatchStep, Reserves, Sum, BusyMachines;
    var h' := DispatchStep(h, id, s, reserve);
    if h' != h {
      DispatchShape(h, id, s, reserve);
      assert HeldOk(h, id) && ItemOk(h, id);
      FreeMachineHasNoTask(h, s);
      DispatchReserves(h, h', id, s, reserve);
      forall t | t in h'.tasks ensures TaskOk(h', t) {
        if t != s { assert TaskOk(h, t); }
        DispatchKeepsTask(h, h', id, s, reserve, t);
      }
      forall o | o in h'.held ensures HeldOk(h', o) {
        assert HeldOk(h, o);
        DispatchKeepsHeld(h, h', id, s, reserve, o);
      }
      hide TaskOk, HeldOk;
      forall o | o in h'.items ensures ItemOk(h', o) { assert ItemOk(h, o); }
      forall o | o in h'.saved ensures SavedOk(h', o) { assert SavedOk(h, o); }
    }
  }

  lemma CancelIsSafe(h: Hub, b: BatchId)
    requires Safe(h) && b in h.headers
    ensures Safe(CancelStep(h, b))
  {
    hide Safe;
    WithdrawalIsSafe(h, CancelStep(h, b));
  }

  /** An operator never takes an item the dispatcher still lists: it is neither active nor uncertain. */
  lemma TakeOverIsSafe(h: Hub, id: ItemId)
    requires Safe(h) && id in h.items && id.0 in h.headers
    ensures Safe(TakeOverStep(h, id))
  {
    var h' := TakeOverStep(h, id);
    if h' != h {
      var x := h.items[id];
      var mid := h.(items := h.items[id := MarkUncertain(x)]);
      TakenItemIsSafe(h, id);
      assert ItemOk(h, id);
      hide Safe;
      SavedIsSafe(mid, id, MarkUncertain(x));
      assert h' == mid.(saved := mid.saved[id := MarkUncertain(x)]);
    }
  }

  lemma TakenItemIsSafe(h: Hub, id: ItemId)
    requires Safe(h) && id in h.items && (h.items[id].state.Running? || h.items[id].state.CancelRequested? || h.items[id].state.Uncertain?)
    ensures Safe(h.(items := h.items[id := MarkUncertain(h.items[id])]))
  {
    var h' := h.(items := h.items[id := MarkUncertain(h.items[id])]);
    forall o | o in h.items ensures Sane(h'.items[o]) { assert ItemOk(h, o); }
    assert Reserves(h') == Reserves(h) by { hide Safe, Sum; }
    assert Follows(h, h') by { hide Safe, Sum, Reserves; }
    hide Follows;
    FollowsIsSafe(h, h');
  }

  lemma SavedIsSafe(h: Hub, id: ItemId, x: Item)
    requires Safe(h) && id in h.tallies && Sane(x)
    ensures Safe(h.(saved := h.saved[id := x]))
  {
    var h' := h.(saved := h.saved[id := x]);
    forall o | o in h'.saved ensures SavedOk(h', o) { if o in h.saved { assert SavedOk(h, o); } }
    hide SavedOk;
    assert Reserves(h') == Reserves(h) by { hide Safe, Sum; }
    hide Reserves, Sum, Listable;
    forall o | o in h'.items ensures ItemOk(h', o) { assert ItemOk(h, o); }
    forall t | t in h'.tasks ensures TaskOk(h', t) { assert TaskOk(h, t); }
    forall o | o in h'.held ensures HeldOk(h', o) { assert HeldOk(h, o); }
  }

  lemma AdoptIsSafe(h: Hub, id: ItemId, end: ItemState)
    requires Safe(h) && id in h.items && h.items[id].recovery && (end.Done? || end.Error? || end.Cancelled?)
    ensures Safe(h.(items := h.items[id := h.items[id].(state := end)]))
  {
    var h' := h.(items := h.items[id := h.items[id].(state := end)]);
    forall o | o in h.items ensures Sane(h'.items[o]) { assert ItemOk(h, o); }
    assert Reserves(h') == Reserves(h) by { hide Safe, Sum; }
    assert Follows(h, h') by { hide Safe, Sum, Reserves; }
    hide Follows;
    FollowsIsSafe(h, h');
  }

  lemma SaveIsSafe(h: Hub, b: BatchId)
    requires Safe(h) && b in h.headers
    ensures Safe(SaveStep(h, b))
  {
    var h' := SaveStep(h, b);
    forall t | t in h'.tasks ensures TaskOk(h', t) { assert TaskOk(h, t); }
    forall o | o in h'.items ensures ItemOk(h', o) { assert ItemOk(h, o); }
    forall o | o in h'.saved ensures SavedOk(h', o) {
      if o in h.items { assert ItemOk(h, o); }
      if o in h.saved { assert SavedOk(h, o); }
    }
    forall o | o in h'.held ensures HeldOk(h', o) { assert HeldOk(h, o); }
    assert Reserves(h') == Reserves(h);
  }

  lemma LeaseIsSafe(h: Hub, leases: map<Machine, string>)
    requires Safe(h) && forall m | m in leases && m !in h.leases :: m !in BusyMachines(h)
    ensures Safe(h.(leases := leases))
  {
    var h' := h.(leases := leases);
    forall t | t in h'.tasks ensures TaskOk(h', t) { assert TaskOk(h, t); }
    forall o | o in h'.items ensures ItemOk(h', o) { assert ItemOk(h, o); }
    forall o | o in h'.saved ensures SavedOk(h', o) { assert SavedOk(h, o); }
    forall o | o in h'.held ensures HeldOk(h', o) { assert HeldOk(h, o); }
    assert Reserves(h') == Reserves(h);
  }

  lemma RestoredIsOk(h: Hub, now: Time, o: ItemId)
    requires Safe(h) && o in RestoredItems(h, now)
    ensures o.0 in RestoredHeaders(h, now) && o in h.tallies && Sane(RestoredItems(h, now)[o])
  {
    assert SavedOk(h, o);
    RestoreIsSane(h.saved[o], h.savedHeaders[o.0], SavedExpires(h, o.0, now));
  }

  /** With nothing running and nothing listed, only the items themselves have to be in order. */
  lemma QuietHubIsSafe(h: Hub)
    requires h.tasks == map[] && h.held == {} && h.reserved == 0.0
    requires forall o | o in h.items :: ItemOk(h, o)
    requires forall o | o in h.saved :: SavedOk(h, o)
    ensures Safe(h)
  {
    assert Reserves(h) == map[];
    hide ItemOk, SavedOk, TaskOk, HeldOk;
  }

  lemma RestartIsSafe(h: Hub, now: Time)
    requires Safe(h)
    ensures Safe(RestartStep(h, now))
  {
    hide RestoredItems, RestoredHeaders, TaskOk, HeldOk, Safe;
    var h' := RestartStep(h, now);
    forall o | o in h'.items ensures ItemOk(h', o) && SavedOk(h', o) { RestoredIsOk(h, now, o); }
    hide ItemOk, SavedOk;
    QuietHubIsSafe(h');
  }

  lemma RestoreIsSane(x: Item, d: Header, expired: bool)
    requires Sane(x)
    ensures Sane(Restore(x, d, expired))
  {
  }

  lemma SubmitIsSafe(h: Hub, b: BatchId, d: Header, n: nat)
    requires Safe(h)
    ensures Safe(SubmitStep(h, b, d, n))
  {
    var h' := SubmitStep(h, b, d, n);
    if h' != h {
      assert forall i :: (b, i) !in h.tallies;
      forall o | o in h.items ensures o.0 != b { assert ItemOk(h, o); }
      forall o | o in h.saved ensures o.0 != b { assert SavedOk(h, o); }
      hide Safe, TaskOk, ItemOk, SavedOk, HeldOk, Reserves;
      SubmitShape(h, b, d, n);
      hide SubmitStep, Extends;
      ExtendsIsSafe(h, h', b);
    }
  }

  /** `h'` is `h` with one more batch of new items. */
  ghost predicate Extends(h: Hub, h': Hub, b: BatchId) {
    && h' == h.(headers := h'.headers, items := h'.items, savedHeaders := h'.savedHeaders, saved := h'.saved, tallies := h'.tallies)
    && b in h'.headers && (forall c | c in h.headers :: c in h'.headers)
    && (forall o | o in h.items :: o in h'.items && h'.items[o] == h.items[o])
    && (forall o | o in h.saved :: o in h'.saved && h'.saved[o] == h.saved[o])
    && (forall o | o in h'.items && o !in h.items :: o.0 == b && h'.items[o] == NEW_ITEM && o in h'.tallies)
    && (forall o | o in h'.saved && o !in h.saved :: o.0 == b && h'.saved[o] == NEW_ITEM && o in h'.tallies)
    && (forall o | o in h.tallies :: o in h'.tallies)
  }

  lemma SubmitShape(h: Hub, b: BatchId, d: Header, n: nat)
    requires SubmitStep(h, b, d, n) != h
    requires forall o | o in h.items :: o.0 != b
    requires forall o | o in h.saved :: o.0 != b
    ensures Extends(h, SubmitStep(h, b, d, n), b)
  {
  }

  lemma ExtendsTask(h: Hub, h': Hub, b: BatchId, t: StudioId)
    requires Extends(h, h', b) && TaskOk(h, t)
    ensures TaskOk(h', t)
  {
  }

  lemma ExtendsItem(h: Hub, h': Hub, b: BatchId, o: ItemId)
    requires Extends(h, h', b) && o in h'.items && (o in h.items ==> ItemOk(h, o))
    ensures ItemOk(h', o)
  {
  }

  lemma ExtendsSaved(h: Hub, h': Hub, b: BatchId, o: ItemId)
    requires Extends(h, h', b) && o in h'.saved && (o in h.saved ==> SavedOk(h, o))
    ensures SavedOk(h', o)
  {
  }

  lemma ExtendsHeld(h: Hub, h': Hub, b: BatchId, o: ItemId)
    requires Extends(h, h', b) && HeldOk(h, o)
    ensures HeldOk(h', o)
  {
  }

  lemma ExtendsReserves(h: Hub, h': Hub, b: BatchId)
    requires Extends(h, h', b) && forall t | t in h.tasks :: h.tasks[t].id in h.items
    ensures Reserves(h') == Reserves(h)
  {
  }

  lemma ExtendsShared(h: Hub, h': Hub, b: BatchId)
    requires Extends(h, h', b)
    ensures h'.tasks == h.tasks && h'.held == h.held && h'.reserved == h.reserved && h'.machines == h.machines
  {
  }

  lemma ExtendsIsSafe(h: Hub, h': Hub, b: BatchId)
    requires Safe(h) && Extends(h, h', b)
    ensures Safe(h')
  {
    ExtendsShared(h, h', b);
    forall t | t in h.tasks ensures h.tasks[t].id in h.items { assert TaskOk(h, t); }
    ExtendsReserves(h, h', b);
    hide Extends, TaskOk, ItemOk, SavedOk, HeldOk, Reserves, Sum;
    forall o | o in h'.items ensures ItemOk(h', o) { assert o in h.items ==> ItemOk(h, o); ExtendsItem(h, h', b, o); }
    forall o | o in h'.saved ensures SavedOk(h', o) { assert o in h.saved ==> SavedOk(h, o); ExtendsSaved(h, h', b, o); }
    forall t | t in h'.tasks ensures TaskOk(h', t) { assert TaskOk(h, t); ExtendsTask(h, h', b, t); }
    forall o | o in h'.held ensures HeldOk(h', o) { assert HeldOk(h, o); ExtendsHeld(h, h', b, o); }
  }

  /** Every step, in any order, keeps one holder per machine and the reservations exact. */
  lemma NextIsSafe(h: Hub, e: Event, now: Time)
    requires Safe(h)
    ensures Safe(Next(h, e, now))
  {
    hide Safe, TaskStep, DispatchStep, CancelStep, TakeOverStep, SaveStep, RestartStep, SubmitStep, Expired, BusyMachines;
    match e
    case Submit(b, d, n) => SubmitIsSafe(h, b, d, n);
    case Hold(ids) => HoldIsSafe(h, ids);
    case Dispatch(id, s, reserve) => DispatchIsSafe(h, id, s, reserve);
    case CancelBatch(b) => if b in h.headers { CancelIsSafe(h, b); }
    case ExpireBatch(b) => ExpiryIsSafe(h, b, now);
    case TakeOver(id) => if id in h.items && id.0 in h.headers { TakeOverIsSafe(h, id); }
    case Adopt(id, end) => if id in h.items && h.items[id].recovery && (end.Done? || end.Error? || end.Cancelled?) { AdoptIsSafe(h, id, end); }
    case Save(b) => if b in h.headers { SaveIsSafe(h, b); }
    case Acquire(m, owner, renderWaits) => if m !in BusyMachines(h) { LeaseIsSafe(h, h.leases[m := owner]); }
    case Free(m, owner) => LeaseIsSafe(h, h.leases - {m});
    case Restart => RestartIsSafe(h, now);
    case _ => if TaskIn(h, e.s) { TaskStepIsSafe(h, e, now); }
  }

  ghost predicate Init(h: Hub) {
    h == Hub(h.machines, map[], map[], map[], map[], map[], {}, map[], 0.0, map[])
  }

  lemma InitIsSafe(h: Hub)
    requires Init(h)
    ensures Safe(h)
  {
  }

  lemma {:induction false} RunIsSafe(h: Hub, es: seq<(Event, Time)>)
    requires Safe(h)
    ensures Safe(Run(h, es))
    decreases es
  {
    if es != [] {
      NextIsSafe(h, es[0].0, es[0].1);
      RunIsSafe(Next(h, es[0].0, es[0].1), es[1..]);
    }
  }

  /** Over every run: a machine runs one item or holds one external lease, never two of anything. */
  lemma OneHolderPerMachine(h: Hub, es: seq<(Event, Time)>, s: StudioId, t: StudioId)
    requires Init(h)
    requires var g := Run(h, es); s in g.tasks && t in g.tasks && s in g.machines && t in g.machines && g.machines[s] == g.machines[t]
    ensures s == t && Run(h, es).machines[s] !in Run(h, es).leases
  {
    InitIsSafe(h);
    RunIsSafe(h, es);
    assert TaskOk(Run(h, es), s);
  }

  /** Over every run the promised memory is the sum over running items, so giving one back never clips. */
  lemma ReservationsAreConserved(h: Hub, es: seq<(Event, Time)>, s: StudioId, x: Item)
    requires Init(h) && TaskIn(Run(h, es), s) && x.reserved == ItemOf(Run(h, es), s).reserved && Sane(x)
    ensures var g := Run(h, es);
            && g.reserved == Sum(Reserves(g)) && g.reserved - x.reserved >= 0.0
            && Finish(g, s, x).reserved == g.reserved - x.reserved
            && Sum(Reserves(Finish(g, s, x))) == Sum(Reserves(g)) - x.reserved
  {
    InitIsSafe(h);
    RunIsSafe(h, es);
    SafeAt(Run(h, es), s);
    FinishIsSafe(Run(h, es), s, x);
  }

  // ---------------------------------------------------------------- bounded retries

  /** Most unrefunded dispatches between two Hub starts: the last try, two ordinary retries, seven transport retries. */
  const MAX_DISPATCHES := MAX_TRIES - 1 + MAX_INFRA_TRIES - 1 + 1

  function Max(a: nat, b: nat): nat {
    if a < b then b else a
  }

  predicate Counted(x: Item, t: Tally) {
    && x.tries + t.refunded == t.dispatched + t.baseTries && t.baseInfra <= x.infra
    && t.dispatched <= t.refunded + MAX_DISPATCHES
    && (Unfinished(x.state) ==> x.infra <= MAX_INFRA_TRIES - 1)
  }

  /** Room for one more dispatch. */
  predicate Eligible(x: Item, t: Tally) {
    x.infra <= MAX_INFRA_TRIES - 1 && t.baseInfra <= x.infra && x.tries <= Max(MAX_TRIES - 1, t.baseTries) + x.infra - t.baseInfra
  }

  predicate Underway(x: Item, t: Tally) {
    x.infra <= MAX_INFRA_TRIES - 1 && t.baseInfra <= x.infra && x.tries <= Max(MAX_TRIES - 1, t.baseTries) + 1 + x.infra - t.baseInfra
  }

  predicate CountOk(h: Hub, id: ItemId)
    requires id in h.items
  {
    id in h.tallies && Counted(h.items[id], h.tallies[id]) && (h.items[id].state.Queued? || id in h.held ==> Eligible(h.items[id], h.tallies[id]))
  }

  predicate TaskCountOk(h: Hub, s: StudioId) {
    TaskIn(h, s) && Underway(ItemOf(h, s), h.tallies[h.tasks[s].id])
  }

  predicate SavedCountOk(x: Item) {
    Unfinished(x.state) ==> x.infra <= MAX_INFRA_TRIES - 1
  }

  ghost predicate Counts(h: Hub) {
    && (forall id {:trigger CountOk(h, id)} | id in h.items :: CountOk(h, id))
    && (forall s {:trigger TaskCountOk(h, s)} | s in h.tasks :: TaskCountOk(h, s))
    && (forall id | id in h.saved :: SavedCountOk(h.saved[id]))
  }

  lemma CountAt(h: Hub, s: StudioId)
    requires Counts(h) && TaskIn(h, s)
    ensures Counted(ItemOf(h, s), h.tallies[h.tasks[s].id]) && Underway(ItemOf(h, s), h.tallies[h.tasks[s].id])
  {
    assert TaskCountOk(h, s) && CountOk(h, h.tasks[s].id);
  }

  /** Leaving a task with item `x` and tally `t`. */
  predicate Settles(x: Item, t: Tally) {
    Counted(x, t) && (x.state.Queued? ==> Eligible(x, t))
  }

  lemma FinishCounts(h: Hub, s: StudioId, t: Tally, x: Item)
    requires Safe(h) && Counts(h) && TaskIn(h, s) && Settles(x, t)
    ensures TaskIn(Count(h, h.tasks[s].id, t), s) && Counts(Finish(Count(h, h.tasks[s].id, t), s, x))
  {
    SafeAt(h, s);
    OthersDiffer(h, s);
    hide Safe, Counted, Eligible, Underway, TaskOk, ItemOk, Sum, Reserves;
    SettlesReserved(x, t);
    var h' := Finish(Count(h, h.tasks[s].id, t), s, x);
    forall id | id in h'.items ensures CountOk(h', id) {
      if id != h.tasks[s].id { assert CountOk(h, id); }
    }
    forall r | r in h'.tasks ensures TaskCountOk(h', r) { assert TaskCountOk(h, r); }
  }

  lemma SettlesReserved(x: Item, t: Tally)
    requires Settles(x, t)
    ensures Counted(x.(reserved := 0.0), t) && (x.state.Queued? ==> Eligible(x.(reserved := 0.0), t))
  {
  }

  lemma PlainFinishCounts(h: Hub, s: StudioId, x: Item)
    requires Safe(h) && Counts(h) && TaskIn(h, s) && Settles(x, h.tallies[h.tasks[s].id])
    ensures Counts(Finish(h, s, x))
  {
    var id := h.tasks[s].id;
    assert Count(h, id, h.tallies[id]) == h by { assert h.tallies[id := h.tallies[id]] == h.tallies; }
    FinishCounts(h, s, h.tallies[id], x);
  }

  lemma WithdrawalCounts(h: Hub, h': Hub)
    requires Counts(h) && h' == h.(headers := h'.headers, items := h'.items)
    requires h'.headers.Keys == h.headers.Keys && h'.items.Keys == h.items.Keys
    requires forall id | id in h.items :: Withdrawn(h.items[id], h'.items[id])
    ensures Counts(h')
  {
    forall id | id in h'.items ensures CountOk(h', id) { assert CountOk(h, id); }
    forall r | r in h'.tasks ensures TaskCountOk(h', r) { assert TaskCountOk(h, r); }
  }

  lemma ExpiryCounts(h: Hub, b: BatchId, now: Time)
    requires Counts(h)
    ensures Counts(Expired(h, b, now))
  {
    hide Counts, Expires;
    ExpiryWithdraws(h, b, now);
    hide Expired, Withdrawn;
    WithdrawalCounts(h, Expired(h, b, now));
  }

  lemma PhaseCounts(h: Hub, s: StudioId, p: Phase)
    requires Counts(h) && TaskIn(h, s)
    ensures Counts(InPhase(h, s, p))
  {
    var h' := InPhase(h, s, p);
    hide Counted, Eligible, Underway;
    forall id | id in h'.items ensures CountOk(h', id) { assert CountOk(h, id); }
    forall r | r in h'.tasks ensures TaskCountOk(h', r) { assert TaskCountOk(h, r); }
  }

  /** The classifier requeues only an item that has a retry left. */
  lemma ClassifyCounts(h: Hub, s: StudioId, f: Failure, now: Time)
    requires Safe(h) && Counts(h) && TaskIn(h, s)
    ensures Counts(Classify(h, s, f, now))
  {
    hide Safe, Counts, Finish, InPhase, Delay, Avoiding;
    CountAt(h, s);
    var x := ItemOf(h, s);
    var since := if x.infraSince.Some? then x.infraSince.value else now;
    if HeaderOf(h, s).modality == Voice && x.jobId.Some? && f.transport { PlainFinishCounts(h, s, MarkUncertain(x)); }
    else if f.retryable && f.capacity && !HeaderOf(h, s).cancelled { PhaseCounts(h, s, Handoff); }
    else if f.retryable && f.transport && !HeaderOf(h, s).cancelled {
      if x.infra + 1 < MAX_INFRA_TRIES && now - since < INFRA_RETRY_WINDOW_S {
        PlainFinishCounts(h, s, x.(state := Queued, infra := x.infra + 1, infraSince := Some(since), avoid := Avoiding(h, s, now),
                                   retryAt := Some(now + Delay(INFRA_RETRY_DELAYS_S, x.infra))));
      } else {
        PlainFinishCounts(h, s, x.(state := Error, infra := x.infra + 1, infraSince := Some(since), avoid := Avoiding(h, s, now), retryAt := None));
      }
    } else if f.retryable && x.tries < MAX_TRIES && !HeaderOf(h, s).cancelled {
      PlainFinishCounts(h, s, x.(state := Queued, retryAt := Some(now + Delay(RETRY_DELAYS_S, Back(x.tries)))));
    } else {
      PlainFinishCounts(h, s, x.(state := Error, retryAt := None));
    }
  }

  lemma RefundCounts(h: Hub, s: StudioId, x: Item)
    requires Safe(h) && Counts(h) && TaskIn(h, s) && x.state.Queued? && x.infra == ItemOf(h, s).infra
    requires ItemOf(h, s).tries >= 1 && x.tries == ItemOf(h, s).tries - 1
    ensures TaskIn(Refund(h, s), s) && Counts(Finish(Refund(h, s), s, x))
  {
    hide Safe, Counts, Finish, Sum, Reserves;
    CountAt(h, s);
    FinishCounts(h, s, h.tallies[h.tasks[s].id].(refunded := h.tallies[h.tasks[s].id].refunded + 1), x);
  }

  lemma BeginCounts(h: Hub, s: StudioId, refused: bool, peerChanged: bool, now: Time)
    requires Safe(h) && Counts(h) && TaskIn(h, s)
    ensures Counts(BeginStep(h, s, refused, peerChanged, now))
  {
    hide Safe, Counts, Finish, InPhase, Count, Refund, Expired, Expires, Eligible, Underway;
    TaskFacts(h, s);
    CountAt(h, s);
    var x, id := ItemOf(h, s), h.tasks[s].id;
    if Owns(x) { PlainFinishCounts(h, s, x); }
    else if Expires(h, id.0, now) { ExpiredBeginCounts(h, s, now); }
    else if refused { PlainFinishCounts(h, s, x.(state := Error)); }
    else if peerChanged { RefundCounts(h, s, x.(state := Queued, studio := None, jobId := None, tries := Back(x.tries))); }
    else { PostCounts(h, s); }
  }

  lemma ExpiredBeginCounts(h: Hub, s: StudioId, now: Time)
    requires Safe(h) && Counts(h) && TaskIn(h, s)
    ensures var e := Expired(h, h.tasks[s].id.0, now);
            TaskIn(e, s) && e.tasks == h.tasks && Counts(Finish(e, s, ItemOf(e, s).(state := Cancelled)))
  {
    hide Safe, Counts, Finish, Expired, Eligible, Underway;
    var e := Expired(h, h.tasks[s].id.0, now);
    ExpiryIsSafe(h, h.tasks[s].id.0, now);
    ExpiryCounts(h, h.tasks[s].id.0, now);
    CountAt(e, s);
    PlainFinishCounts(e, s, ItemOf(e, s).(state := Cancelled));
  }

  lemma PostCounts(h: Hub, s: StudioId)
    requires Counts(h) && TaskIn(h, s)
    ensures var t := h.tallies[h.tasks[s].id];
            Counts(InPhase(Count(h, h.tasks[s].id, t.(posted := t.posted + 1)), s, Posted))
  {
    var t := h.tallies[h.tasks[s].id];
    var h' := Count(h, h.tasks[s].id, t.(posted := t.posted + 1));
    forall id | id in h'.items ensures CountOk(h', id) { assert CountOk(h, id); }
    forall r | r in h'.tasks ensures TaskCountOk(h', r) { assert TaskCountOk(h, r); }
    hide Counts;
    PhaseCounts(h', s, Posted);
  }

  lemma AcceptCounts(h: Hub, s: StudioId, job: string, now: Time)
    requires Counts(h) && TaskIn(h, s)
    ensures Counts(AcceptStep(h, s, job, now))
  {
    var id := h.tasks[s].id;
    var a := h.(items := h.items[id := h.items[id].(jobId := Some(job))]);
    forall o | o in a.items ensures CountOk(a, o) { assert CountOk(h, o); }
    forall r | r in a.tasks ensures TaskCountOk(a, r) { assert TaskCountOk(h, r); }
    hide Counts, InPhase;
    ExpiryCounts(a, id.0, now);
    PhaseCounts(a, s, Polling);
    PhaseCounts(Expired(a, id.0, now), s, Cancelling);
  }

  lemma PollCounts(h: Hub, s: StudioId, now: Time)
    requires Safe(h) && Counts(h) && TaskIn(h, s)
    ensures Counts(PollStep(h, s, now))
  {
    SafeAt(h, s);
    CountAt(h, s);
    hide Safe, Counts, InPhase, Finish;
    if Owns(ItemOf(h, s)) { PlainFinishCounts(h, s, ItemOf(h, s)); }
    ExpiryCounts(h, h.tasks[s].id.0, now);
    PhaseCounts(Expired(h, h.tasks[s].id.0, now), s, Cancelling);
  }

  lemma SucceedCounts(h: Hub, s: StudioId, now: Time)
    requires Safe(h) && Counts(h) && TaskIn(h, s)
    ensures Counts(SucceedStep(h, s, now))
  {
    SafeAt(h, s);
    CountAt(h, s);
    var x, id := ItemOf(h, s), h.tasks[s].id;
    ExpiryIsSafe(h, id.0, now);
    ExpiryCounts(h, id.0, now);
    var e := Expired(h, id.0, now);
    SafeAt(e, s);
    CountAt(e, s);
    hide Safe, Counts, InPhase, Finish, Expired, Expires;
    PlainFinishCounts(e, s, e.items[id]);
    PlainFinishCounts(h, s, x.(state := Done));
    PhaseCounts(h, s, Recording);
    PlainFinishCounts(h, s, x);
  }

  lemma FailCounts(h: Hub, s: StudioId, f: Failure, now: Time)
    requires Safe(h) && Counts(h) && TaskIn(h, s)
    ensures Counts(FailStep(h, s, f, now))
  {
    SafeAt(h, s);
    CountAt(h, s);
    hide Safe, Counts, InPhase, Finish, Classify;
    if Owns(ItemOf(h, s)) { PlainFinishCounts(h, s, ItemOf(h, s)); }
    else if HeaderOf(h, s).cancelled { PlainFinishCounts(h, s, ItemOf(h, s).(state := Cancelled)); }
    else if f.terminal || ItemOf(h, s).jobId.None? { ClassifyCounts(h, s, f, now); }
    else { PhaseCounts(h, s, Recovering(f)); }
  }

  lemma ReconciledCounts(h: Hub, s: StudioId, last: Option<Failure>, now: Time)
    requires Safe(h) && Counts(h) && TaskIn(h, s) && h.tasks[s].phase.Recovering?
    ensures Counts(ReconciledStep(h, s, last, now))
  {
    ExpiryIsSafe(h, h.tasks[s].id.0, now);
    ExpiryCounts(h, h.tasks[s].id.0, now);
    var e := Expired(h, h.tasks[s].id.0, now);
    SafeAt(e, s);
    CountAt(e, s);
    hide Safe, Counts, Expired, Finish, Classify;
    if Owns(ItemOf(e, s)) { PlainFinishCounts(e, s, ItemOf(e, s)); }
    ClassifyCounts(e, s, if last.Some? then last.value else h.tasks[s].phase.failure, now);
  }

  lemma CloseCounts(h: Hub, s: StudioId)
    requires Safe(h) && Counts(h) && TaskIn(h, s)
    ensures Counts(Finish(h, s, ItemOf(h, s).(state := Cancelled))) && Counts(CompleteStep(h, s))
  {
    SafeAt(h, s);
    CountAt(h, s);
    var x := ItemOf(h, s);
    hide Safe, Counts, Finish;
    PlainFinishCounts(h, s, x.(state := Cancelled));
    if Owns(x) { PlainFinishCounts(h, s, x); } else { PlainFinishCounts(h, s, x.(state := Done)); }
  }

  lemma HandoffCounts(h: Hub, s: StudioId, released: bool, now: Time)
    requires Safe(h) && Counts(h) && TaskIn(h, s)
    ensures Counts(HandoffStep(h, s, released, now))
  {
    SafeAt(h, s);
    var x := ItemOf(h, s);
    hide Safe, Counts, Finish, Avoiding, Refund;
    RefundCounts(h, s, x.(state := Queued, tries := Back(x.tries), avoid := Avoiding(h, s, now),
                          retryAt := Some(now + if released then HANDED_OVER_RETRY_S else CAPACITY_RETRY_S)));
  }

  lemma TaskStepCounts(h: Hub, e: Event, now: Time)
    requires Safe(h) && Counts(h) && OnTask(e) && TaskIn(h, e.s)
    ensures Counts(TaskStep(h, e, now))
  {
    hide Safe, Counts, TaskStep;
    if e.Begin? || e.Accept? || e.Poll? || e.Succeed? { EarlyStepCounts(h, e, now); } else { LateStepCounts(h, e, now); }
  }

  lemma EarlyStepCounts(h: Hub, e: Event, now: Time)
    requires Safe(h) && Counts(h) && (e.Begin? || e.Accept? || e.Poll? || e.Succeed?) && TaskIn(h, e.s)
    ensures Counts(TaskStep(h, e, now))
  {
    hide Safe, Counts, BeginStep, AcceptStep, PollStep, SucceedStep;
    match e
    case Begin(s, refused, peerChanged) => BeginCounts(h, s, refused, peerChanged, now);
    case Accept(s, job) => AcceptCounts(h, s, job, now);
    case Poll(s) => PollCounts(h, s, now);
    case Succeed(s) => SucceedCounts(h, s, now);
  }

  lemma LateStepCounts(h: Hub, e: Event, now: Time)
    requires Safe(h) && Counts(h) && (e.Complete? || e.Fail? || e.Reconciled? || e.HandoffDone? || e.CancelDone?) && TaskIn(h, e.s)
    ensures Counts(TaskStep(h, e, now))
  {
    hide Safe, Counts, Finish, CompleteStep, FailStep, ReconciledStep, HandoffStep;
    match e
    case Complete(s) => CloseCounts(h, s);
    case Fail(s, f) => FailCounts(h, s, f, now);
    case Reconciled(s, last) => if h.tasks[s].phase.Recovering? { ReconciledCounts(h, s, last, now); }
    case HandoffDone(s, released) => HandoffCounts(h, s, released, now);
    case CancelDone(s) => CloseCounts(h, s);
  }

  lemma DispatchCounts(h: Hub, id: ItemId, s: StudioId, reserve: Gb)
    requires Safe(h) && Counts(h)
    ensures Counts(DispatchStep(h, id, s, reserve))
  {
    var h' := DispatchStep(h, id, s, reserve);
    if h' != h {
      assert HeldOk(h, id) && ItemOk(h, id);
      assert CountOk(h, id);
      hide Safe, ItemOk, BusyMachines;
      forall o | o in h'.items ensures CountOk(h', o) { assert CountOk(h, o); }
      forall r | r in h'.tasks ensures TaskCountOk(h', r) { if r != s { assert TaskCountOk(h, r); } }
    }
  }

  /** Steps that change which items are listed, owned or saved, but no counter. */
  lemma OtherCounts(h: Hub, h': Hub)
    requires Counts(h) && h'.tallies == h.tallies && h'.items.Keys == h.items.Keys && h'.machines == h.machines
    requires h'.headers.Keys == h.headers.Keys && (forall s | s in h'.tasks :: s in h.tasks && h'.tasks[s] == h.tasks[s])
    requires forall id | id in h.items ::
               && h'.items[id].tries == h.items[id].tries && h'.items[id].infra == h.items[id].infra
               && (Unfinished(h'.items[id].state) ==> Unfinished(h.items[id].state))
               && (h'.items[id].state.Queued? || id in h'.held ==> h.items[id].state.Queued? || id in h.held)
    requires forall id | id in h'.saved :: (id in h.saved && h'.saved[id] == h.saved[id]) || (id in h.items && Follow(h.items[id], h'.saved[id]))
    ensures Counts(h')
  {
    forall id | id in h'.items ensures CountOk(h', id) { assert CountOk(h, id); }
    forall r | r in h'.tasks ensures TaskCountOk(h', r) { assert TaskCountOk(h, r); }
    forall id | id in h'.saved ensures SavedCountOk(h'.saved[id]) { if id in h.items { assert CountOk(h, id); } }
  }

  predicate Follow(x: Item, y: Item) {
    y.infra == x.infra && (Unfinished(y.state) ==> Unfinished(x.state))
  }

  lemma RestartCounts(h: Hub, now: Time)
    requires Safe(h) && Counts(h)
    ensures Counts(RestartStep(h, now))
  {
    var h' := RestartStep(h, now);
    forall id | id in h'.items ensures CountOk(h', id) && SavedCountOk(h'.saved[id]) {
      assert SavedOk(h, id) && SavedCountOk(h.saved[id]);
      RestoreCounts(h.saved[id], h.savedHeaders[id.0], SavedExpires(h, id.0, now), h.tallies[id]);
    }
  }

  lemma RestoreCounts(x: Item, d: Header, expired: bool, t: Tally)
    requires SavedCountOk(x)
    ensures var x' := Restore(x, d, expired);
            SavedCountOk(x') && Counted(x', Restarted(t, x')) && (x'.state.Queued? ==> Eligible(x', Restarted(t, x')))
  {
  }

  lemma SubmitTallies(h: Hub, b: BatchId, d: Header, n: nat)
    requires SubmitStep(h, b, d, n) != h
    requires forall o | o in h.items :: o.0 != b
    ensures var h' := SubmitStep(h, b, d, n);
            && (forall o | o in h.tallies :: o in h'.tallies && h'.tallies[o] == h.tallies[o])
            && (forall o | o in h'.items && o !in h.items :: o in h'.tallies && h'.tallies[o] == Tally(0, 0, 0, 0, 0))
  {
    assert forall i :: (b, i) !in h.tallies;
  }

  lemma ExtendsCounts(h: Hub, h': Hub, b: BatchId)
    requires Counts(h) && Extends(h, h', b)
    requires forall o | o in h.tallies :: o in h'.tallies && h'.tallies[o] == h.tallies[o]
    requires forall o | o in h'.items && o !in h.items :: o in h'.tallies && h'.tallies[o] == Tally(0, 0, 0, 0, 0)
    ensures Counts(h')
  {
    forall o | o in h'.items ensures CountOk(h', o) { if o in h.items { assert CountOk(h, o); } }
    forall r | r in h'.tasks ensures TaskCountOk(h', r) { assert TaskCountOk(h, r); }
  }

  lemma SubmitCounts(h: Hub, b: BatchId, d: Header, n: nat)
    requires Safe(h) && Counts(h)
    ensures Counts(SubmitStep(h, b, d, n))
  {
    var h' := SubmitStep(h, b, d, n);
    if h' != h {
      assert forall i :: (b, i) !in h.tallies;
      forall o | o in h.items ensures o.0 != b { assert ItemOk(h, o); }
      forall o | o in h.saved ensures o.0 != b { assert SavedOk(h, o); }
      hide Safe, Counts, Extends, SubmitStep;
      SubmitShape(h, b, d, n);
      SubmitTallies(h, b, d, n);
      ExtendsCounts(h, h', b);
    }
  }

  /** The steps that touch no task and no counter. */
  predicate Bookkeeping(e: Event) {
    e.Hold? || e.CancelBatch? || e.TakeOver? || e.Adopt? || e.Save? || e.Acquire? || e.Free?
  }

  lemma SaveCounts(h: Hub, b: BatchId)
    requires Counts(h) && b in h.headers
    ensures Counts(SaveStep(h, b))
  {
    OtherCounts(h, SaveStep(h, b));
  }

  lemma TakeOverCounts(h: Hub, id: ItemId)
    requires Counts(h) && id in h.items && id.0 in h.headers
    ensures Counts(TakeOverStep(h, id))
  {
    var h' := TakeOverStep(h, id);
    if h' != h {
      OwnerKeepsCount(h.items[id], h.tallies[id]) by { assert CountOk(h, id); }
      hide Counted, Eligible, Underway, SavedCountOk;
      forall o | o in h'.items ensures CountOk(h', o) { assert CountOk(h, o); }
      forall r | r in h'.tasks ensures TaskCountOk(h', r) {
        assert TaskCountOk(h, r);
        OwnerKeepsCount(ItemOf(h, r), h.tallies[h.tasks[r].id]);
      }
    }
  }

  /** Taking an item over changes none of its counters. */
  lemma OwnerKeepsCount(x: Item, t: Tally)
    ensures Counted(x, t) ==> Counted(MarkUncertain(x), t)
    ensures Eligible(MarkUncertain(x), t) == Eligible(x, t) && Underway(MarkUncertain(x), t) == Underway(x, t)
    ensures SavedCountOk(MarkUncertain(x))
  {
  }

  lemma CancelCounts(h: Hub, b: BatchId)
    requires Counts(h) && b in h.headers
    ensures Counts(CancelStep(h, b))
  {
    hide Counts;
    WithdrawalCounts(h, CancelStep(h, b));
  }

  lemma AdoptCounts(h: Hub, id: ItemId, end: ItemState)
    requires Counts(h) && id in h.items && !Unfinished(end)
    ensures Counts(h.(items := h.items[id := h.items[id].(state := end)]))
  {
    OtherCounts(h, h.(items := h.items[id := h.items[id].(state := end)]));
  }

  lemma HoldCounts(h: Hub, ids: set<ItemId>)
    requires Counts(h)
    ensures Counts(h.(held := set id | id in ids && id in h.items && h.items[id].state.Queued?))
  {
    OtherCounts(h, h.(held := set id | id in ids && id in h.items && h.items[id].state.Queued?));
  }

  lemma LeaseCounts(h: Hub, leases: map<Machine, string>)
    requires Counts(h)
    ensures Counts(h.(leases := leases))
  {
    OtherCounts(h, h.(leases := leases));
  }

  lemma BookkeepingCounts(h: Hub, e: Event, now: Time)
    requires Counts(h) && Bookkeeping(e)
    ensures Counts(Next(h, e, now))
  {
    hide Counts, BusyMachines, SaveStep, TakeOverStep, CancelStep;
    if e.Save? { if e.batch in h.headers { SaveCounts(h, e.batch); } }
    else if e.TakeOver? { if e.id in h.items && e.id.0 in h.headers { TakeOverCounts(h, e.id); } }
    else if e.CancelBatch? { if e.batch in h.headers { CancelCounts(h, e.batch); } }
    else if e.Hold? { HoldCounts(h, e.ids); }
    else if e.Adopt? {
      if e.id in h.items && h.items[e.id].recovery && !Unfinished(e.end) { AdoptCounts(h, e.id, e.end); }
    }
    else if e.Acquire? { LeaseCounts(h, h.leases[e.m := e.owner]); }
    else { LeaseCounts(h, h.leases - {e.m}); }
  }

  lemma NextCounts(h: Hub, e: Event, now: Time)
    requires Safe(h) && Counts(h)
    ensures Counts(Next(h, e, now))
  {
    hide Safe, Counts, TaskStep, DispatchStep, RestartStep, SubmitStep, Expired, BusyMachines;
    if e.Submit? { SubmitCounts(h, e.newBatch, e.header, e.size); }
    else if e.Dispatch? { DispatchCounts(h, e.id, e.studio, e.reserve); }
    else if e.ExpireBatch? { ExpiryCounts(h, e.batch, now); }
    else if e.Restart? { RestartCounts(h, now); }
    else if Bookkeeping(e) { BookkeepingCounts(h, e, now); }
    else if TaskIn(h, e.s) { TaskStepCounts(h, e, now); }
  }

  lemma {:induction false} RunCounts(h: Hub, es: seq<(Event, Time)>)
    requires Safe(h) && Counts(h)
    ensures Safe(Run(h, es)) && Counts(Run(h, es))
    decreases es
  {
    if es != [] {
      NextIsSafe(h, es[0].0, es[0].1);
      NextCounts(h, es[0].0, es[0].1);
      RunCounts(Next(h, es[0].0, es[0].1), es[1..]);
    }
  }

  /**
   Over every run, however it is interleaved: since the last Hub start an item was dispatched at most ten
   times not counting refunded dispatches, and its tries grew by exactly the unrefunded ones.
   */
  lemma BoundedRetries(h: Hub, es: seq<(Event, Time)>, id: ItemId)
    requires Init(h) && id in Run(h, es).items
    ensures id in Run(h, es).tallies
    ensures var x, t := Run(h, es).items[id], Run(h, es).tallies[id];
            t.dispatched <= t.refunded + 10 && x.tries - t.baseTries == t.dispatched - t.refunded
  {
    InitIsSafe(h);
    RunCounts(h, es);
    assert CountOk(Run(h, es), id);
  }

  // ---------------------------------------------------------------- accepted Voice work

  /** No item appears or disappears, nothing is listed or unlisted, and no task is new, changes hands or starts over. */
  predicate Shrinks(h: Hub, h': Hub) {
    && h'.held == h.held && h'.items.Keys == h.items.Keys
    && forall t | t in h'.tasks :: t in h.tasks && h'.tasks[t].id == h.tasks[t].id && (h'.tasks[t].phase.Fresh? ==> h.tasks[t].phase.Fresh?)
  }

  /** A task's step changes its own item, and takes others out of work at most. */
  predicate Local(h: Hub, h': Hub, s: StudioId, id: ItemId) {
    && s in h.tasks && Shrinks(h, h') && h'.saved == h.saved && h'.savedHeaders == h.savedHeaders && id in h'.items && id in h.items
    && (forall o | o in h.tallies && o != h.tasks[s].id :: o in h'.tallies && h'.tallies[o] == h.tallies[o])
    && (id != h.tasks[s].id ==> Withdrawn(h.items[id], h'.items[id]))
  }

  lemma ExpiryIsLocal(h: Hub, g: Hub, s: StudioId, id: ItemId, b: BatchId, now: Time)
    requires Local(h, g, s, id)
    ensures Local(h, Expired(g, b, now), s, id)
  {
  }

  lemma FinishIsLocal(h: Hub, g: Hub, s: StudioId, x: Item, id: ItemId)
    requires TaskIn(g, s) && Local(h, g, s, id) && g.tasks[s].id == h.tasks[s].id
    ensures Local(h, Finish(g, s, x), s, id)
  {
  }

  lemma PhaseIsLocal(h: Hub, g: Hub, s: StudioId, p: Phase, id: ItemId)
    requires TaskIn(g, s) && Local(h, g, s, id) && !p.Fresh?
    ensures Local(h, InPhase(g, s, p), s, id)
  {
  }

  lemma ClassifyIsLocal(h: Hub, g: Hub, s: StudioId, f: Failure, now: Time, id: ItemId)
    requires TaskIn(g, s) && Local(h, g, s, id) && g.tasks[s].id == h.tasks[s].id
    ensures Local(h, Classify(g, s, f, now), s, id)
  {
    hide Delay, Avoiding, Local, Finish, InPhase;
    forall x ensures Local(h, Finish(g, s, x), s, id) { FinishIsLocal(h, g, s, x, id); }
    PhaseIsLocal(h, g, s, Handoff, id);
  }

  lemma BeginIsLocal(h: Hub, s: StudioId, refused: bool, peerChanged: bool, now: Time, id: ItemId)
    requires TaskIn(h, s) && id in h.items
    ensures Local(h, BeginStep(h, s, refused, peerChanged, now), s, id)
  {
    var mine := h.tasks[s].id;
    var g := Expired(h, mine.0, now);
    assert Local(h, h, s, id);
    ExpiryIsLocal(h, h, s, id, mine.0, now);
    ExpiryKeepsTask(h, mine.0, now, s);
    PostIsLocal(h, s, id);
    hide Expires, Finish, InPhase, Expired, Local, Refund, Count;
    forall x ensures Local(h, Finish(h, s, x), s, id) { FinishIsLocal(h, h, s, x, id); }
    forall x ensures Local(h, Finish(g, s, x), s, id) { FinishIsLocal(h, g, s, x, id); }
    RefundKeepsTask(h, s);
    forall x ensures Local(h, Finish(Refund(h, s), s, x), s, id) { FinishIsLocal(h, Refund(h, s), s, x, id); }
  }

  lemma PostIsLocal(h: Hub, s: StudioId, id: ItemId)
    requires TaskIn(h, s) && id in h.items
    ensures var mine := h.tasks[s].id; var c := Count(h, mine, h.tallies[mine].(posted := h.tallies[mine].posted + 1));
            && TaskIn(c, s) && Local(h, InPhase(c, s, Posted), s, id) && Local(h, Refund(h, s), s, id)
  {
    var mine := h.tasks[s].id;
    var c := Count(h, mine, h.tallies[mine].(posted := h.tallies[mine].posted + 1));
    assert TaskIn(c, s) && Local(h, c, s, id) && Local(h, Refund(h, s), s, id);
    hide Local, Count, InPhase, Refund;
    PhaseIsLocal(h, c, s, Posted, id);
  }

  lemma RefundKeepsTask(h: Hub, s: StudioId)
    requires TaskIn(h, s)
    ensures TaskIn(Refund(h, s), s) && Refund(h, s).tasks == h.tasks
  {
  }

  lemma AcceptIsLocal(h: Hub, s: StudioId, job: string, now: Time, id: ItemId)
    requires TaskIn(h, s) && id in h.items
    ensures Local(h, AcceptStep(h, s, job, now), s, id)
  {
    var mine := h.tasks[s].id;
    var a := h.(items := h.items[mine := h.items[mine].(jobId := Some(job))]);
    assert Local(h, a, s, id);
    ExpiryIsLocal(h, a, s, id, mine.0, now);
    ExpiryKeepsTask(a, mine.0, now, s);
    PhaseIsLocal(h, a, s, Polling, id);
    PhaseIsLocal(h, Expired(a, mine.0, now), s, Cancelling, id);
    hide Expires, Expired, InPhase, Local;
  }

  lemma PollIsLocal(h: Hub, s: StudioId, now: Time, id: ItemId)
    requires TaskIn(h, s) && id in h.items
    ensures Local(h, PollStep(h, s, now), s, id)
  {
    var mine := h.tasks[s].id;
    assert Local(h, h, s, id);
    ExpiryIsLocal(h, h, s, id, mine.0, now);
    ExpiryKeepsTask(h, mine.0, now, s);
    FinishIsLocal(h, h, s, ItemOf(h, s), id);
    PhaseIsLocal(h, Expired(h, mine.0, now), s, Cancelling, id);
    hide Expires, Expired, InPhase, Local, Finish;
  }

  lemma LateStepsAreLocal(h: Hub, e: Event, now: Time, id: ItemId)
    requires OnTask(e) && !(e.Begin? || e.Accept? || e.Poll?) && TaskIn(h, e.s) && id in h.items
    ensures Local(h, TaskStep(h, e, now), e.s, id)
  {
    hide Delay, Avoiding, Expires, Finish, InPhase, Classify, Expired;
    var b := h.tasks[e.s].id.0;
    var g := Expired(h, b, now);
    assert Local(h, h, e.s, id);
    ExpiryIsLocal(h, h, e.s, id, b, now);
    ExpiryKeepsTask(h, b, now, e.s);
    forall x ensures Local(h, Finish(h, e.s, x), e.s, id) { FinishIsLocal(h, h, e.s, x, id); }
    forall x ensures Local(h, Finish(g, e.s, x), e.s, id) { FinishIsLocal(h, g, e.s, x, id); }
    forall x ensures TaskIn(Refund(h, e.s), e.s) && Local(h, Finish(Refund(h, e.s), e.s, x), e.s, id) { FinishIsLocal(h, Refund(h, e.s), e.s, x, id); }
    forall p: Phase | !p.Fresh? ensures Local(h, InPhase(h, e.s, p), e.s, id) { PhaseIsLocal(h, h, e.s, p, id); }
    forall f ensures Local(h, Classify(h, e.s, f, now), e.s, id) { ClassifyIsLocal(h, h, e.s, f, now, id); }
    forall f ensures Local(h, Classify(g, e.s, f, now), e.s, id) { ClassifyIsLocal(h, g, e.s, f, now, id); }
  }

  lemma ExpiryKeepsTask(h: Hub, b: BatchId, now: Time, s: StudioId)
    requires TaskIn(h, s)
    ensures TaskIn(Expired(h, b, now), s) && Expired(h, b, now).tasks == h.tasks
  {
  }

  lemma StepTouchesOne(h: Hub, e: Event, now: Time, id: ItemId)
    requires OnTask(e) && TaskIn(h, e.s) && id in h.items
    ensures Local(h, TaskStep(h, e, now), e.s, id)
  {
    assert Local(h, h, e.s, id);
    if e.Begin? {
      hide BeginStep, Local;
      BeginIsLocal(h, e.s, e.refused, e.peerChanged, now, id);
    } else if e.Accept? {
      hide AcceptStep, Local;
      AcceptIsLocal(h, e.s, e.job, now, id);
    } else if e.Poll? {
      hide PollStep, Local;
      PollIsLocal(h, e.s, now, id);
    } else {
      hide TaskStep, Local;
      LateStepsAreLocal(h, e, now, id);
    }
  }

  /** What a step makes of its own item while an operator, or uncertainty, owns it. */
  predicate LetsGo(h: Hub, h': Hub, e: Event)
    requires OnTask(e) && TaskIn(h, e.s)
  {
    var x, id := ItemOf(h, e.s), h.tasks[e.s].id;
    var blind := e.HandoffDone? && h.tasks[e.s].phase.Handoff?;
    && id in h'.items && h'.saved == h.saved && h'.savedHeaders == h.savedHeaders
    && (x.recovery ==> h'.items[id].recovery)
    && id in h'.tallies && h'.tallies[id].posted == h.tallies[id].posted
    && (if blind then h'.items[id].state.Queued?
        else h'.items[id].state == Fence(x).state || h'.items[id].state == x.state || h'.items[id].state.Cancelled?)
    && (!e.Accept? && !blind ==> h'.items[id].jobId == x.jobId && h'.items[id].studio == x.studio)
  }

  lemma AcceptLetsGo(h: Hub, e: Event, now: Time)
    requires e.Accept? && TaskIn(h, e.s) && Owns(ItemOf(h, e.s))
    ensures LetsGo(h, AcceptStep(h, e.s, e.job, now), e)
  {
    hide Expires;
  }

  lemma PollLetsGo(h: Hub, e: Event, now: Time)
    requires (e.Begin? || e.Poll? || e.Succeed? || e.Complete? || e.Fail?) && TaskIn(h, e.s) && Owns(ItemOf(h, e.s))
    ensures LetsGo(h, TaskStep(h, e, now), e)
  {
    assert TaskStep(h, e, now) == h || TaskStep(h, e, now) == Finish(h, e.s, ItemOf(h, e.s)) by { hide Expired, Expires, InPhase, Finish, Classify; }
    hide TaskStep;
  }

  lemma HandoffLetsGo(h: Hub, e: Event, now: Time)
    requires (e.HandoffDone? || e.CancelDone?) && TaskIn(h, e.s) && Owns(ItemOf(h, e.s))
    ensures LetsGo(h, TaskStep(h, e, now), e)
  {
    hide Avoiding;
  }

  /** An owned item's task can only end it or let go of it, except for the unchecked capacity requeue. */
  lemma OwnStepOnOwned(h: Hub, e: Event, now: Time)
    requires OnTask(e) && TaskIn(h, e.s) && Owns(ItemOf(h, e.s))
    ensures LetsGo(h, TaskStep(h, e, now), e)
  {
    if e.Accept? { AcceptLetsGo(h, e, now); hide AcceptStep; }
    else if e.Reconciled? { if h.tasks[e.s].phase.Recovering? { ReconciledLetsGo(h, e, now); hide ReconciledStep; } }
    else if e.HandoffDone? || e.CancelDone? { hide TaskStep, LetsGo; HandoffLetsGo(h, e, now); }
    else { hide TaskStep, LetsGo; PollLetsGo(h, e, now); }
  }

  lemma ReconciledLetsGo(h: Hub, e: Event, now: Time)
    requires e.Reconciled? && TaskIn(h, e.s) && Owns(ItemOf(h, e.s)) && h.tasks[e.s].phase.Recovering?
    ensures LetsGo(h, ReconciledStep(h, e.s, e.last, now), e)
  {
    hide Expires, Classify;
    var g := Expired(h, h.tasks[e.s].id.0, now);
    FenceKeepsOwner(ItemOf(h, e.s));
  }

  lemma FenceKeepsOwner(x: Item)
    requires Owns(x)
    ensures Owns(Fence(x)) && Fence(x).recovery == x.recovery
  {
  }

  lemma UncertainIsKnown(h: Hub, id: ItemId)
    requires Safe(h) && id in h.items && h.items[id].state.Uncertain?
    ensures id.0 in h.headers && id !in h.held
  {
    assert ItemOk(h, id);
    forall o | o in h.held ensures o != id { assert HeldOk(h, o); }
  }

  lemma QuietKeepsUncertain(e: Event, x: Item, x': Item)
    requires Quiet(e, x, x') && x.state.Uncertain?
    ensures !x'.state.Queued? && !x'.state.Running? && x'.jobId == x.jobId && x'.studio == x.studio
  {
  }

  lemma UncertainThroughTask(h: Hub, e: Event, now: Time, id: ItemId)
    requires OnTask(e) && TaskIn(h, e.s) && id in h.items && h.items[id].state.Uncertain?
    ensures id in TaskStep(h, e, now).items
    ensures var x' := TaskStep(h, e, now).items[id];
            && (x'.state.Queued? || x'.state.Running? <==> e.HandoffDone? && h.tasks[e.s] == Task(id, Handoff))
            && (x'.state.Uncertain? && !e.Accept? ==> x'.jobId == h.items[id].jobId && x'.studio == h.items[id].studio)
  {
    hide TaskStep;
    if h.tasks[e.s].id == id { OwnStepOnOwned(h, e, now); } else { StepTouchesOne(h, e, now, id); }
  }

  /**
   No step returns an uncertain item to queued or running, except one: a capacity requeue that was
   waiting for its siblings when the item became uncertain.  Every other step that leaves it uncertain
   keeps the worker and the job it names.
   */
  lemma UncertainStays(h: Hub, e: Event, now: Time, id: ItemId)
    requires Safe(h) && id in h.items && h.items[id].state.Uncertain? && !e.Restart?
    ensures id in Next(h, e, now).items
    ensures var x' := Next(h, e, now).items[id];
            && (x'.state.Queued? || x'.state.Running? <==> e.HandoffDone? && e.s in h.tasks && h.tasks[e.s] == Task(id, Handoff))
            && (x'.state.Uncertain? && !e.Accept? ==> x'.jobId == h.items[id].jobId && x'.studio == h.items[id].studio)
  {
    if OnTask(e) {
      hide Safe, TaskStep;
      if e.s in h.tasks { TaskFacts(h, e.s); }
      if TaskIn(h, e.s) { UncertainThroughTask(h, e, now, id); }
    } else {
      hide Safe, Next, Withdrawn;
      UncertainIsKnown(h, id);
      QuietOnOwned(h, e, now, id);
      QuietKeepsUncertain(e, h.items[id], Next(h, e, now).items[id]);
    }
  }

  /** What the steps outside a task can make of an item. */
  predicate Quiet(e: Event, x: Item, x': Item) {
    && (Withdrawn(x, x') || (e.TakeOver? && x' == MarkUncertain(x)) || (e.Adopt? && x' == x.(state := e.end) && !Unfinished(e.end) && !e.end.Uncertain?))
    && x'.jobId == x.jobId && x'.studio == x.studio && (x.recovery ==> x'.recovery)
  }

  lemma QuietOnOwned(h: Hub, e: Event, now: Time, id: ItemId)
    requires !OnTask(e) && !e.Restart? && id in h.items && id.0 in h.headers && (e.Dispatch? ==> id !in h.held)
    ensures id in Next(h, e, now).items && Quiet(e, h.items[id], Next(h, e, now).items[id])
  {
    if e.Submit? {
      SubmitLeavesItems(h, e.newBatch, e.header, e.size, id);
      hide SubmitStep;
    } else if e.ExpireBatch? || e.CancelBatch? {
      hide Next, Quiet;
      WithdrawalIsQuiet(h, e, now, id);
    } else if e.Dispatch? {
      DispatchLeavesItems(h, e.id, e.studio, e.reserve, id);
      hide DispatchStep;
    } else {
      hide Next, Quiet;
      RestIsQuiet(h, e, now, id);
    }
  }

  lemma WithdrawalIsQuiet(h: Hub, e: Event, now: Time, id: ItemId)
    requires (e.ExpireBatch? || e.CancelBatch?) && id in h.items
    ensures id in Next(h, e, now).items && Quiet(e, h.items[id], Next(h, e, now).items[id])
  {
    hide Expires, BusyMachines;
  }

  lemma RestIsQuiet(h: Hub, e: Event, now: Time, id: ItemId)
    requires (e.Hold? || e.TakeOver? || e.Adopt? || e.Save? || e.Acquire? || e.Free?) && id in h.items
    ensures id in Next(h, e, now).items && Quiet(e, h.items[id], Next(h, e, now).items[id])
  {
    hide Next, BusyMachines, Quiet;
    if e.TakeOver? { TakeOverIsQuiet(h, e, now, id); } else if e.Adopt? { AdoptIsQuiet(h, e, now, id); } else { NothingIsQuiet(h, e, now, id); }
  }

  lemma TakeOverIsQuiet(h: Hub, e: Event, now: Time, id: ItemId)
    requires e.TakeOver? && id in h.items
    ensures id in Next(h, e, now).items && Quiet(e, h.items[id], Next(h, e, now).items[id])
  {
  }

  lemma AdoptIsQuiet(h: Hub, e: Event, now: Time, id: ItemId)
    requires e.Adopt? && id in h.items
    ensures id in Next(h, e, now).items && Quiet(e, h.items[id], Next(h, e, now).items[id])
  {
    hide BusyMachines, TaskStep, DispatchStep, CancelStep, TakeOverStep, SaveStep, RestartStep, SubmitStep, Expired;
  }

  lemma NothingIsQuiet(h: Hub, e: Event, now: Time, id: ItemId)
    requires (e.Hold? || e.Save? || e.Acquire? || e.Free?) && id in h.items
    ensures id in Next(h, e, now).items && Quiet(e, h.items[id], Next(h, e, now).items[id])
  {
    hide BusyMachines;
    assert Next(h, e, now).items == h.items;
    hide Next;
  }

  lemma SubmitLeavesItems(h: Hub, b: BatchId, d: Header, n: nat, id: ItemId)
    requires id in h.items && id.0 in h.headers
    ensures id in SubmitStep(h, b, d, n).items && SubmitStep(h, b, d, n).items[id] == h.items[id]
  {
  }

  lemma DispatchLeavesItems(h: Hub, o: ItemId, s: StudioId, reserve: Gb, id: ItemId)
    requires id in h.items && id !in h.held
    ensures id in DispatchStep(h, o, s, reserve).items && DispatchStep(h, o, s, reserve).items[id] == h.items[id]
  {
    hide BusyMachines;
  }

  /** What the property misses: an item taken over while its capacity requeue waits is put back on the queue. */
  lemma TakenOverDuringHandoff(h: Hub, s: StudioId, released: bool, now: Time)
    requires Safe(h) && TaskIn(h, s) && h.tasks[s].phase.Handoff? && ItemOf(h, s).state.Running? && HeaderOf(h, s).modality == Voice
    ensures var id := h.tasks[s].id; var taken := Next(h, TakeOver(id), now);
            taken.items[id].state.Uncertain? && Next(taken, HandoffDone(s, released), now).items[id].state.Queued?
  {
    hide Safe, Delay, Avoiding;
  }

  /** The item was taken over or became uncertain, and the ledger knows. */
  predicate Owned(h: Hub, id: ItemId) {
    && id in h.items && h.items[id].recovery && id in h.tallies
    && id in h.saved && h.saved[id].recovery && id.0 in h.savedHeaders
  }

  lemma OwnedIsNotPosted(h: Hub, e: Event, now: Time, id: ItemId)
    requires Safe(h) && Owned(h, id)
    ensures Owned(Next(h, e, now), id) && Next(h, e, now).tallies[id].posted == h.tallies[id].posted
  {
    assert ItemOk(h, id);
    hide Safe;
    if OnTask(e) {
      hide TaskStep, Owned;
      if TaskIn(h, e.s) { TaskKeepsOwned(h, e, now, id); }
    } else {
      hide Owned;
      if e.Restart? {
        hide RestartStep;
        OwnedSurvivesRestart(h, now, id);
      } else {
        hide Next;
        QuietOnPosts(h, e, now, id);
      }
    }
  }

  lemma TaskKeepsOwned(h: Hub, e: Event, now: Time, id: ItemId)
    requires OnTask(e) && TaskIn(h, e.s) && Owned(h, id)
    ensures Owned(TaskStep(h, e, now), id) && TaskStep(h, e, now).tallies[id].posted == h.tallies[id].posted
  {
    hide TaskStep;
    if h.tasks[e.s].id == id { OwnStepOnOwned(h, e, now); } else { StepTouchesOne(h, e, now, id); }
  }

  lemma OwnedSurvivesRestart(h: Hub, now: Time, id: ItemId)
    requires Owned(h, id)
    ensures Owned(RestartStep(h, now), id) && RestartStep(h, now).tallies[id].posted == h.tallies[id].posted
  {
  }

  lemma QuietOnPosts(h: Hub, e: Event, now: Time, id: ItemId)
    requires !OnTask(e) && !e.Restart? && Owned(h, id)
    ensures Owned(Next(h, e, now), id) && Next(h, e, now).tallies[id].posted == h.tallies[id].posted
  {
    hide Expires, BusyMachines;
  }

  /**
   Once an item is owned, no run, Hub restarts and stale requeues included, ever posts it to a worker
   again: accepted Voice work is never replayed behind the operator's back.
   */
  lemma {:induction false} OwnedIsNeverReplayed(h: Hub, es: seq<(Event, Time)>, id: ItemId)
    requires Safe(h) && Owned(h, id)
    ensures Owned(Run(h, es), id) && Run(h, es).tallies[id].posted == h.tallies[id].posted
    decreases es
  {
    if es != [] {
      NextIsSafe(h, es[0].0, es[0].1);
      OwnedIsNotPosted(h, es[0].0, es[0].1, id);
      OwnedIsNeverReplayed(Next(h, es[0].0, es[0].1), es[1..], id);
    }
  }

  // ---------------------------------------------------------------- what a step makes of its own item

  /** The failure hides what became of a Voice job that is known by its id. */
  predicate LosesJob(h: Hub, s: StudioId, f: Failure)
    requires TaskIn(h, s)
  {
    HeaderOf(h, s).modality == Voice && ItemOf(h, s).jobId.Some? && f.transport
  }

  /** The failure's kind of retry is not used up: connection failures have their own count and window. */
  predicate RetryLeft(h: Hub, s: StudioId, f: Failure, now: Time)
    requires TaskIn(h, s)
  {
    var x := ItemOf(h, s);
    && f.retryable && !f.capacity && !HeaderOf(h, s).cancelled && !LosesJob(h, s, f)
    && if f.transport then x.infra + 1 < MAX_INFRA_TRIES && (x.infraSince.Some? ==> now - x.infraSince.value < INFRA_RETRY_WINDOW_S)
       else x.tries < MAX_TRIES
  }

  /** The failure a reconciliation ends with: the worker's own end of the job, else the first one. */
  function Verdict(p: Phase, last: Option<Failure>): Failure
    requires p.Recovering?
  {
    if last.Some? then last.value else p.failure
  }

  predicate Working(p: Phase) {
    p.Posted? || p.Polling? || p.Recording?
  }

  /** The four steps that put their own item back on the queue. */
  predicate Requeues(h: Hub, e: Event, now: Time) {
    OnTask(e) && TaskIn(h, e.s) &&
    var p, x := h.tasks[e.s].phase, ItemOf(h, e.s);
    match e
    case HandoffDone(_, _) => p.Handoff?
    case Begin(_, refused, peerChanged) => p.Fresh? && peerChanged && !refused && !Owns(x) && !Expires(h, h.tasks[e.s].id.0, now)
    case Fail(_, f) => Working(p) && !Owns(x) && (f.terminal || x.jobId.None?) && RetryLeft(h, e.s, f, now)
    case Reconciled(_, last) => p.Recovering? && !Owns(x) && !Expires(h, h.tasks[e.s].id.0, now) && RetryLeft(h, e.s, Verdict(p, last), now)
    case _ => false
  }

  /** The two steps that give up a Voice job whose id is known. */
  predicate Loses(h: Hub, e: Event) {
    OnTask(e) && TaskIn(h, e.s) &&
    var p, x := h.tasks[e.s].phase, ItemOf(h, e.s);
    match e
    case Fail(_, f) => Working(p) && !Owns(x) && !HeaderOf(h, e.s).cancelled && f.terminal && LosesJob(h, e.s, f)
    case Reconciled(_, last) => p.Recovering? && !Owns(x) && LosesJob(h, e.s, Verdict(p, last))
    case _ => false
  }

  predicate SamePosts(h: Hub, h': Hub, id: ItemId) {
    id in h.tallies && id in h'.tallies && h'.tallies[id].posted == h.tallies[id].posted
  }

  /** The item keeps its state or ends. */
  predicate Plain(h: Hub, h': Hub, id: ItemId) {
    && id in h.items && id in h'.items
    && var st := h'.items[id].state;
       st == h.items[id].state || st.Done? || st.Error? || st.Cancelled?
  }

  predicate IsQueued(h: Hub, id: ItemId) {
    id in h.items && h.items[id].state.Queued?
  }

  /** The item is uncertain, and names the worker and the job it named before. */
  predicate LostIn(h: Hub, h': Hub, id: ItemId) {
    && id in h.items && id in h'.items && h'.items[id].state.Uncertain? && h'.items[id].recovery
    && h'.items[id].jobId == h.items[id].jobId && h'.items[id].studio == h.items[id].studio
  }

  lemma ClassifyOutcome(h: Hub, s: StudioId, f: Failure, now: Time)
    requires TaskIn(h, s)
    ensures var id, h' := h.tasks[s].id, Classify(h, s, f, now);
            && SamePosts(h, h', id)
            && if LosesJob(h, s, f) then LostIn(h, h', id) else if RetryLeft(h, s, f, now) then IsQueued(h', id) else Plain(h, h', id)
  {
    hide Delay, Avoiding;
  }

  lemma BeginOutcome(h: Hub, s: StudioId, refused: bool, peerChanged: bool, now: Time)
    requires TaskIn(h, s)
    ensures var id, h' := h.tasks[s].id, BeginStep(h, s, refused, peerChanged, now);
            if peerChanged && !refused && !Owns(ItemOf(h, s)) && !Expires(h, id.0, now) then IsQueued(h', id) else Plain(h, h', id)
  {
    ExpiryKeepsTask(h, h.tasks[s].id.0, now, s);
    hide Expires;
  }

  lemma AcceptOutcome(h: Hub, s: StudioId, job: string, now: Time)
    requires TaskIn(h, s)
    ensures Plain(h, AcceptStep(h, s, job, now), h.tasks[s].id) && SamePosts(h, AcceptStep(h, s, job, now), h.tasks[s].id)
  {
    hide Expires;
  }

  lemma PollOutcome(h: Hub, s: StudioId, now: Time)
    requires TaskIn(h, s)
    ensures Plain(h, PollStep(h, s, now), h.tasks[s].id) && SamePosts(h, PollStep(h, s, now), h.tasks[s].id)
  {
    hide Expires;
  }

  lemma SucceedOutcome(h: Hub, s: StudioId, now: Time)
    requires TaskIn(h, s)
    ensures Plain(h, SucceedStep(h, s, now), h.tasks[s].id) && SamePosts(h, SucceedStep(h, s, now), h.tasks[s].id)
  {
    hide Expires;
  }

  lemma CloseOutcome(h: Hub, s: StudioId, released: bool, now: Time)
    requires TaskIn(h, s)
    ensures var id := h.tasks[s].id; var cancelled := Finish(h, s, ItemOf(h, s).(state := Cancelled));
            && Plain(h, h, id) && SamePosts(h, h, id)
            && Plain(h, CompleteStep(h, s), id) && SamePosts(h, CompleteStep(h, s), id)
            && Plain(h, cancelled, id) && SamePosts(h, cancelled, id)
            && IsQueued(HandoffStep(h, s, released, now), id) && SamePosts(h, HandoffStep(h, s, released, now), id)
  {
    hide Avoiding;
  }

  lemma FailOutcome(h: Hub, s: StudioId, f: Failure, now: Time)
    requires TaskIn(h, s) && Working(h.tasks[s].phase)
    ensures var id, h' := h.tasks[s].id, FailStep(h, s, f, now);
            && SamePosts(h, h', id)
            && if Loses(h, Fail(s, f)) then LostIn(h, h', id)
               else if Requeues(h, Fail(s, f), now) then IsQueued(h', id) else Plain(h, h', id)
  {
    ClassifyOutcome(h, s, f, now);
    FailWithoutVerdict(h, s, f);
    hide Classify, Finish, InPhase, RetryLeft, Plain, LostIn, SamePosts, IsQueued;
  }

  lemma FailWithoutVerdict(h: Hub, s: StudioId, f: Failure)
    requires TaskIn(h, s)
    ensures var id := h.tasks[s].id; var a, b, c := Finish(h, s, ItemOf(h, s)), Finish(h, s, ItemOf(h, s).(state := Cancelled)), InPhase(h, s, Recovering(f));
            Plain(h, a, id) && SamePosts(h, a, id) && Plain(h, b, id) && SamePosts(h, b, id) && Plain(h, c, id) && SamePosts(h, c, id)
    ensures HeaderOf(h, s).cancelled ==> forall now :: !RetryLeft(h, s, f, now)
  {
  }

  lemma ReconciledOutcome(h: Hub, s: StudioId, last: Option<Failure>, now: Time)
    requires TaskIn(h, s) && h.tasks[s].phase.Recovering?
    ensures var id, h' := h.tasks[s].id, ReconciledStep(h, s, last, now);
            && SamePosts(h, h', id)
            && if Loses(h, Reconciled(s, last)) then LostIn(h, h', id)
               else if Requeues(h, Reconciled(s, last), now) then IsQueued(h', id) else Plain(h, h', id)
  {
    var id, f := h.tasks[s].id, Verdict(h.tasks[s].phase, last);
    var g := Expired(h, id.0, now);
    ExpiryOnOwn(h, s, now);
    ClassifyOutcome(g, s, f, now);
    hide Classify, Expired, Expires;
    if Expires(h, id.0, now) { ReconciledAfterExpiry(h, g, s, f, now); }
    hide RetryLeft, Plain, LostIn, SamePosts;
  }

  /** Under a lapsed lease the batch is cancelled, so nothing is retried; a lost Voice job is uncertain all the same. */
  lemma ReconciledAfterExpiry(h: Hub, g: Hub, s: StudioId, f: Failure, now: Time)
    requires TaskIn(h, s) && TaskIn(g, s) && g.tasks == h.tasks && HeaderOf(g, s).cancelled && HeaderOf(g, s).modality == HeaderOf(h, s).modality
    requires Plain(h, g, h.tasks[s].id) && SamePosts(h, g, h.tasks[s].id)
    requires ItemOf(g, s) == ItemOf(h, s).(state := ItemOf(g, s).state, retryAt := ItemOf(g, s).retryAt)
    ensures !RetryLeft(g, s, f, now) && (LosesJob(g, s, f) <==> LosesJob(h, s, f))
    ensures forall h' | Plain(g, h', h.tasks[s].id) :: Plain(h, h', h.tasks[s].id)
    ensures forall h' | LostIn(g, h', h.tasks[s].id) :: LostIn(h, h', h.tasks[s].id)
    ensures forall h' | SamePosts(g, h', h.tasks[s].id) :: SamePosts(h, h', h.tasks[s].id)
    ensures Plain(h, Finish(g, s, ItemOf(g, s)), h.tasks[s].id) && SamePosts(h, Finish(g, s, ItemOf(g, s)), h.tasks[s].id)
  {
  }

  lemma ExpiryOnOwn(h: Hub, s: StudioId, now: Time)
    requires TaskIn(h, s)
    ensures var id := h.tasks[s].id; var g := Expired(h, id.0, now);
            && TaskIn(g, s) && g.tasks == h.tasks && Plain(h, g, id) && SamePosts(h, g, id) && Plain(h, Finish(h, s, ItemOf(h, s)), id) && SamePosts(h, Finish(h, s, ItemOf(h, s)), id)
            && (if Expires(h, id.0, now) then HeaderOf(g, s).cancelled else g == h)
            && HeaderOf(g, s).modality == HeaderOf(h, s).modality
            && ItemOf(g, s) == ItemOf(h, s).(state := ItemOf(g, s).state, retryAt := ItemOf(g, s).retryAt)
            && (Owns(ItemOf(g, s)) <==> Owns(ItemOf(h, s)))
  {
    OwnsThroughExpiry(h, h.tasks[s].id.0, now, h.tasks[s].id);
    ExpiryKeepsTask(h, h.tasks[s].id.0, now, s);
    hide Expires;
  }

  lemma OwnsThroughExpiry(h: Hub, b: BatchId, now: Time, id: ItemId)
    requires id in h.items
    ensures id in Expired(h, b, now).items && (Owns(Expired(h, b, now).items[id]) <==> Owns(h.items[id]))
  {
    hide Expires;
  }

  /** A task's step requeues its item, gives it up as uncertain, or leaves or ends it; only the first step can post it. */
  lemma OwnStepOutcome(h: Hub, e: Event, now: Time)
    requires OnTask(e) && TaskIn(h, e.s)
    ensures var id, h' := h.tasks[e.s].id, TaskStep(h, e, now);
            && (!h.tasks[e.s].phase.Fresh? ==> SamePosts(h, h', id))
            && if Loses(h, e) then LostIn(h, h', id) else if Requeues(h, e, now) then IsQueued(h', id) else Plain(h, h', id)
  {
    hide BeginStep, AcceptStep, PollStep, SucceedStep, CompleteStep, FailStep, ReconciledStep, HandoffStep, Finish;
    hide Plain, SamePosts, LostIn, IsQueued, RetryLeft, LosesJob, Expires;
    CloseOutcome(h, e.s, e.HandoffDone? && e.released, now);
    match e
    case Begin(s, refused, peerChanged) => BeginOutcome(h, s, refused, peerChanged, now);
    case Accept(s, job) => AcceptOutcome(h, s, job, now);
    case Poll(s) => PollOutcome(h, s, now);
    case Succeed(s) => SucceedOutcome(h, s, now);
    case Fail(s, f) => if Working(h.tasks[s].phase) { FailOutcome(h, s, f, now); }
    case Reconciled(s, last) => if h.tasks[s].phase.Recovering? { ReconciledOutcome(h, s, last, now); }
    case _ =>
  }

  // ---------------------------------------------------------------- when work is queued, lost and posted again

  /** Over every event but a restart: an item that is not queued is put back on the queue by exactly those four steps. */
  lemma RequeuedIff(h: Hub, e: Event, now: Time, id: ItemId)
    requires Safe(h) && !e.Restart? && id in h.items && !h.items[id].state.Queued?
    ensures id in Next(h, e, now).items
    ensures Next(h, e, now).items[id].state.Queued? <==> Requeues(h, e, now) && h.tasks[e.s].id == id
  {
    assert ItemOk(h, id);
    hide Safe, TaskStep, Requeues, BusyMachines, DispatchStep;
    if OnTask(e) {
      if TaskIn(h, e.s) { TaskRequeuesOwn(h, e, now, id); } else { NoTaskNoRequeue(h, e, now); }
    } else {
      NoTaskNoRequeue(h, e, now);
      if e.Dispatch? {
        DispatchQueuesNothing(h, e, id);
      } else {
        hide Next;
        QuietOnOwned(h, e, now, id);
      }
    }
  }

  lemma TaskRequeuesOwn(h: Hub, e: Event, now: Time, id: ItemId)
    requires OnTask(e) && TaskIn(h, e.s) && id in h.items && !h.items[id].state.Queued?
    ensures id in TaskStep(h, e, now).items
    ensures TaskStep(h, e, now).items[id].state.Queued? <==> Requeues(h, e, now) && h.tasks[e.s].id == id
  {
    hide TaskStep;
    if h.tasks[e.s].id == id {
      OwnStepOutcome(h, e, now);
      LostIsNotRequeued(h, e, now);
      hide Requeues, Loses;
    } else {
      StepTouchesOne(h, e, now, id);
      hide Requeues;
    }
  }

  lemma LostIsNotRequeued(h: Hub, e: Event, now: Time)
    ensures !(Loses(h, e) && Requeues(h, e, now))
  {
    hide Expires;
  }

  lemma NoTaskNoRequeue(h: Hub, e: Event, now: Time)
    requires !(OnTask(e) && TaskIn(h, e.s))
    ensures !Requeues(h, e, now) && !Loses(h, e)
  {
  }

  lemma DispatchQueuesNothing(h: Hub, e: Event, id: ItemId)
    requires e.Dispatch? && id in h.items
    ensures var h' := DispatchStep(h, e.id, e.studio, e.reserve);
            id in h'.items && (h'.items[id] == h.items[id] || h'.items[id].state.Running?)
  {
    hide BusyMachines;
  }

  /** An operator takes over an active Voice item. */
  predicate TakesOver(h: Hub, e: Event, id: ItemId) {
    && e.TakeOver? && e.id == id && id in h.items && id.0 in h.headers && h.headers[id.0].modality == Voice
    && (h.items[id].state.Running? || h.items[id].state.CancelRequested?)
  }

  /**
   Over every event but a restart: an item becomes uncertain exactly when an operator takes it over, or a
   transport failure loses a Voice job whose id is known while nobody owns it; it names its worker and job.
   */
  lemma LostVoiceJobIsUncertain(h: Hub, e: Event, now: Time, id: ItemId)
    requires Safe(h) && !e.Restart? && id in h.items && !h.items[id].state.Uncertain?
    ensures id in Next(h, e, now).items
    ensures Next(h, e, now).items[id].state.Uncertain? <==> TakesOver(h, e, id) || (Loses(h, e) && h.tasks[e.s].id == id)
    ensures Next(h, e, now).items[id].state.Uncertain? ==>
              Next(h, e, now).items[id].recovery && Next(h, e, now).items[id].jobId == h.items[id].jobId
              && Next(h, e, now).items[id].studio == h.items[id].studio
  {
    assert ItemOk(h, id);
    hide Safe, TaskStep, Loses, Requeues, BusyMachines, DispatchStep;
    if OnTask(e) {
      if TaskIn(h, e.s) { TaskLosesOwn(h, e, now, id); } else { NoTaskNoRequeue(h, e, now); }
    } else {
      NoTaskNoRequeue(h, e, now);
      if e.Dispatch? {
        DispatchQueuesNothing(h, e, id);
      } else if e.TakeOver? {
        hide Next;
        TakeOverIff(h, e, now, id);
      } else {
        hide Next;
        QuietOnOwned(h, e, now, id);
      }
    }
  }

  lemma TaskLosesOwn(h: Hub, e: Event, now: Time, id: ItemId)
    requires OnTask(e) && TaskIn(h, e.s) && id in h.items && !h.items[id].state.Uncertain?
    ensures var h' := TaskStep(h, e, now);
            && id in h'.items && (h'.items[id].state.Uncertain? <==> Loses(h, e) && h.tasks[e.s].id == id)
            && (h'.items[id].state.Uncertain? ==> LostIn(h, h', id))
  {
    hide TaskStep;
    if h.tasks[e.s].id == id { OwnStepOutcome(h, e, now); } else { StepTouchesOne(h, e, now, id); }
    hide Loses, Requeues;
  }

  lemma TakeOverIff(h: Hub, e: Event, now: Time, id: ItemId)
    requires e.TakeOver? && id in h.items && !h.items[id].state.Uncertain?
    ensures id in Next(h, e, now).items
    ensures if TakesOver(h, e, id) then Next(h, e, now).items[id] == MarkUncertain(h.items[id]) else Next(h, e, now).items[id] == h.items[id]
  {
    assert Next(h, e, now) == (if e.id in h.items && e.id.0 in h.headers then TakeOverStep(h, e.id) else h) by { hide TakeOverStep, BusyMachines; }
    hide Next;
  }

  /** Whatever ended a post without a job id, its retries alone decide whether the item is queued again; the modality does not. */
  lemma LostPostIsRequeuedIff(h: Hub, s: StudioId, f: Failure, now: Time)
    requires Safe(h) && TaskIn(h, s) && h.tasks[s].phase.Posted? && !Owns(ItemOf(h, s)) && ItemOf(h, s).jobId.None?
    ensures var x, h' := ItemOf(h, s), Next(h, Fail(s, f), now);
            && h.tasks[s].id in h'.items
            && (h'.items[h.tasks[s].id].state.Queued? <==>
                  && f.retryable && !f.capacity && !HeaderOf(h, s).cancelled
                  && if f.transport then x.infra + 1 < MAX_INFRA_TRIES && (x.infraSince.Some? ==> now - x.infraSince.value < INFRA_RETRY_WINDOW_S)
                     else x.tries < MAX_TRIES)
  {
    TaskFacts(h, s);
    RequeuedIff(h, Fail(s, f), now, h.tasks[s].id);
    hide Safe, Next;
  }

  /** A requeued item as it leaves its task: nobody owns it, and its batch and posts are as they were. */
  lemma RetriedIsIdle(h: Hub, s: StudioId, f: Failure, now: Time)
    requires TaskIn(h, s) && !Owns(ItemOf(h, s)) && RetryLeft(h, s, f, now)
    requires h.tasks.Keys == {s} && h.leases == map[] && HeaderOf(h, s).lease.None?
    ensures var h' := Classify(h, s, f, now);
            Idle(h', h.tasks[s].id, s) && h'.tallies == h.tallies
  {
    hide Delay, Avoiding;
  }

  /**
   The same process posts it a second time: an accepted Voice job whose answer was lost, refused by an
   error status or unreadable, before its id was known.  Only the request id the worker is given, the same
   for every post of an item, can still tell the two apart.
   */
  lemma LostPostIsPostedAgain(h: Hub, s: StudioId, f: Failure, now: Time, later: Time)
    requires TaskIn(h, s) && h.tasks[s].phase.Posted? && !Owns(ItemOf(h, s)) && ItemOf(h, s).jobId.None? && RetryLeft(h, s, f, now)
    requires h.tasks.Keys == {s} && h.leases == map[] && HeaderOf(h, s).lease.None?
    ensures var id := h.tasks[s].id;
            var a := Next(h, Fail(s, f), now);
            var b := Next(a, Hold({id}), later);
            var c := Next(b, Dispatch(id, s, 0.0), later);
            var d := Next(c, Begin(s, false, false), later);
            id in d.tallies && d.tallies[id].posted == h.tallies[id].posted + 1
  {
    RetriedIsIdle(h, s, f, now);
    assert Next(h, Fail(s, f), now) == Classify(h, s, f, now) by { hide Classify, RetryLeft; }
    hide *;
    QueuedIsPosted(Classify(h, s, f, now), h.tasks[s].id, s, later);
  }

  /**
   A known id does not prevent it: when the status request, and then the reconciliation's own, are answered
   with an error status that is no transport failure, the accepted job is requeued and posted again.
   */
  lemma KnownJobIsPostedAgain(h: Hub, s: StudioId, f: Failure, now: Time, later: Time)
    requires TaskIn(h, s) && h.tasks[s].phase.Polling? && !Owns(ItemOf(h, s)) && ItemOf(h, s).jobId.Some? && HeaderOf(h, s).modality == Voice
    requires !f.terminal && RetryLeft(h, s, f, now) && h.tasks.Keys == {s} && h.leases == map[] && HeaderOf(h, s).lease.None?
    ensures !f.transport
    ensures var id := h.tasks[s].id;
            var a := Next(Next(h, Fail(s, f), now), Reconciled(s, None), now);
            var b := Next(a, Hold({id}), later);
            var c := Next(b, Dispatch(id, s, 0.0), later);
            var d := Next(c, Begin(s, false, false), later);
            id in d.tallies && d.tallies[id].posted == h.tallies[id].posted + 1
  {
    var g := InPhase(h, s, Recovering(f));
    var id := h.tasks[s].id;
    assert Next(h, Fail(s, f), now) == g by { hide Classify, Expires; }
    assert TaskIn(g, s) && ItemOf(g, s) == ItemOf(h, s) && HeaderOf(g, s) == HeaderOf(h, s) && g.tasks.Keys == {s} && g.tasks[s] == Task(id, Recovering(f));
    assert RetryLeft(g, s, f, now) && g.tallies == h.tallies && g.leases == h.leases;
    RetriedIsIdle(g, s, f, now);
    assert Next(g, Reconciled(s, None), now) == Classify(g, s, f, now) by { hide Classify, RetryLeft; }
    hide *;
    QueuedIsPosted(Classify(g, s, f, now), id, s, later);
  }

  /** Posted, or not to be posted: not queued, not listed, and no task that has yet to begin. */
  ghost predicate BeyondPost(h: Hub, id: ItemId) {
    && id in h.items && !h.items[id].state.Queued? && id !in h.held && id in h.tallies
    && forall s | s in h.tasks && h.tasks[s].id == id :: !h.tasks[s].phase.Fresh?
  }

  ghost predicate NeverRequeues(h: Hub, es: seq<(Event, Time)>, id: ItemId)
    decreases es
  {
    es == [] || (var e, now := es[0].0, es[0].1;
      !e.Restart? && !(Requeues(h, e, now) && h.tasks[e.s].id == id) && NeverRequeues(Next(h, e, now), es[1..], id))
  }

  lemma BeyondPostStays(h: Hub, e: Event, now: Time, id: ItemId)
    requires Safe(h) && BeyondPost(h, id) && !e.Restart? && !(Requeues(h, e, now) && h.tasks[e.s].id == id)
    ensures BeyondPost(Next(h, e, now), id) && Next(h, e, now).tallies[id].posted == h.tallies[id].posted
  {
    assert ItemOk(h, id);
    RequeuedIff(h, e, now, id);
    hide Safe, TaskStep, Requeues, Expires, BusyMachines;
    if OnTask(e) {
      if TaskIn(h, e.s) { TaskPostsNothing(h, e, now, id); }
    } else {
      QuietPostsNothing(h, e, now, id);
    }
  }

  lemma TaskPostsNothing(h: Hub, e: Event, now: Time, id: ItemId)
    requires OnTask(e) && TaskIn(h, e.s) && BeyondPost(h, id)
    ensures var h' := TaskStep(h, e, now);
            && SamePosts(h, h', id) && id !in h'.held
            && forall s | s in h'.tasks && h'.tasks[s].id == id :: !h'.tasks[s].phase.Fresh?
  {
    hide TaskStep;
    StepTouchesOne(h, e, now, id);
    if h.tasks[e.s].id == id { OwnStepOutcome(h, e, now); }
    hide Requeues, Loses;
  }

  lemma QuietPostsNothing(h: Hub, e: Event, now: Time, id: ItemId)
    requires !OnTask(e) && !e.Restart? && BeyondPost(h, id) && id.0 in h.headers
    ensures var h' := Next(h, e, now);
            && SamePosts(h, h', id) && id !in h'.held
            && forall s | s in h'.tasks && h'.tasks[s].id == id :: !h'.tasks[s].phase.Fresh?
  {
    HeldOnlyByListing(h, e, now, id);
    if e.Dispatch? {
      OtherDispatchPostsNothing(h, e, id);
      hide DispatchStep, BusyMachines;
    } else if e.Submit? {
      SubmitPostsNothing(h, e.newBatch, e.header, e.size, id);
      hide SubmitStep;
    } else {
      QuietLeavesTasks(h, e, now);
      hide Next;
    }
  }

  lemma QuietLeavesTasks(h: Hub, e: Event, now: Time)
    requires !OnTask(e) && !e.Restart? && !e.Dispatch? && !e.Submit?
    ensures Next(h, e, now).tasks == h.tasks && Next(h, e, now).tallies == h.tallies
  {
    hide Expires, BusyMachines;
  }

  lemma SubmitPostsNothing(h: Hub, b: BatchId, d: Header, n: nat, id: ItemId)
    requires id in h.tallies
    ensures SamePosts(h, SubmitStep(h, b, d, n), id) && SubmitStep(h, b, d, n).tasks == h.tasks
  {
    var h' := SubmitStep(h, b, d, n);
    if h' != h {
      assert id.0 != b;
      assert h'.tasks == h.tasks && h'.tallies == h.tallies + map i | 0 <= i < n :: (b, i) := Tally(0, 0, 0, 0, 0);
      hide SubmitStep;
    }
  }

  lemma OtherDispatchPostsNothing(h: Hub, e: Event, id: ItemId)
    requires e.Dispatch? && BeyondPost(h, id)
    ensures var h' := DispatchStep(h, e.id, e.studio, e.reserve);
            && SamePosts(h, h', id) && id !in h'.held
            && forall s | s in h'.tasks && h'.tasks[s].id == id :: !h'.tasks[s].phase.Fresh?
  {
    hide BusyMachines;
  }

  /** Over every run: what was posted is posted again only after one of the four requeuing steps, or a restart. */
  lemma {:induction false} PostedAgainOnlyByRequeue(h: Hub, es: seq<(Event, Time)>, id: ItemId)
    requires Safe(h) && BeyondPost(h, id) && NeverRequeues(h, es, id)
    ensures BeyondPost(Run(h, es), id) && Run(h, es).tallies[id].posted == h.tallies[id].posted
    decreases es
  {
    if es != [] {
      var e, now := es[0].0, es[0].1;
      NextIsSafe(h, e, now);
      BeyondPostStays(h, e, now, id);
      hide Safe, BeyondPost, Next, Requeues;
      PostedAgainOnlyByRequeue(Next(h, e, now), es[1..], id);
    }
  }

  /** The one post an item may still get without being listed again: it is listed now, or its task has yet to begin. */
  ghost predicate MayPost(h: Hub, id: ItemId) {
    id in h.held || exists s | s in h.tasks :: h.tasks[s] == Task(id, Fresh)
  }

  ghost function PostsLeft(h: Hub, id: ItemId): nat
    requires id in h.tallies
  {
    h.tallies[id].posted + if MayPost(h, id) then 1 else 0
  }

  lemma PostsLeftFalls(h: Hub, e: Event, now: Time, id: ItemId)
    requires Safe(h) && id in h.tallies && !e.Restart? && !Relists(h, e, id)
    ensures id in Next(h, e, now).tallies && PostsLeft(Next(h, e, now), id) <= PostsLeft(h, id)
  {
    if id !in h.held { HeldOnlyByListing(h, e, now, id); }
    if OnTask(e) {
      if TaskIn(h, e.s) { TaskPostsLeft(h, e, now, id); }
      hide TaskStep;
    } else if e.Dispatch? {
      DispatchPostsLeft(h, e, id);
      hide DispatchStep;
    } else if e.Submit? {
      SubmitPostsNothing(h, e.newBatch, e.header, e.size, id);
      hide SubmitStep;
    } else {
      QuietLeavesTasks(h, e, now);
      hide Next;
    }
    hide Safe, Relists;
  }

  lemma TaskPostsLeft(h: Hub, e: Event, now: Time, id: ItemId)
    requires Safe(h) && OnTask(e) && TaskIn(h, e.s) && id in h.tallies
    ensures id in TaskStep(h, e, now).tallies && PostsLeft(TaskStep(h, e, now), id) <= PostsLeft(h, id)
  {
    var mine := h.tasks[e.s].id;
    SafeAt(h, e.s);
    OthersDiffer(h, e.s);
    hide Safe;
    if mine != id {
      OtherTaskPosts(h, e, now, id);
    } else if h.tasks[e.s].phase.Fresh? {
      FreshPostsOnce(h, e, now);
    } else {
      StepTouchesOne(h, e, now, id);
      OwnStepOutcome(h, e, now);
    }
    hide TaskStep, Requeues, Loses;
  }

  lemma OtherTaskPosts(h: Hub, e: Event, now: Time, id: ItemId)
    requires OnTask(e) && TaskIn(h, e.s) && id in h.tallies && h.tasks[e.s].id != id
    ensures SamePosts(h, TaskStep(h, e, now), id) && Shrinks(h, TaskStep(h, e, now))
  {
    hide TaskStep;
    StepTouchesOne(h, e, now, h.tasks[e.s].id);
  }

  /** The first step of a task: at most one post, after which the task has begun. */
  lemma FreshPostsOnce(h: Hub, e: Event, now: Time)
    requires OnTask(e) && TaskIn(h, e.s) && h.tasks[e.s].phase.Fresh? && h.tasks[e.s].id !in h.held
    requires forall t | t in h.tasks && t != e.s :: h.tasks[t].id != h.tasks[e.s].id
    ensures h.tasks[e.s].id in TaskStep(h, e, now).tallies
    ensures PostsLeft(TaskStep(h, e, now), h.tasks[e.s].id) <= PostsLeft(h, h.tasks[e.s].id)
  {
    var id := h.tasks[e.s].id;
    assert h.tasks[e.s] == Task(id, Fresh);
    StepTouchesOne(h, e, now, id);
    if e.Begin? { BeginPostsOnce(h, e.s, e.refused, e.peerChanged, now); } else { assert TaskStep(h, e, now) == h; }
    hide TaskStep;
  }

  lemma BeginPostsOnce(h: Hub, s: StudioId, refused: bool, peerChanged: bool, now: Time)
    requires TaskIn(h, s)
    ensures var id, h' := h.tasks[s].id, BeginStep(h, s, refused, peerChanged, now);
            && id in h'.tallies && h'.tallies[id].posted <= h.tallies[id].posted + 1
            && (s in h'.tasks ==> !h'.tasks[s].phase.Fresh?)
  {
    ExpiryKeepsTask(h, h.tasks[s].id.0, now, s);
    hide Expires;
  }

  lemma DispatchPostsLeft(h: Hub, e: Event, id: ItemId)
    requires Safe(h) && e.Dispatch? && id in h.tallies
    ensures var h' := DispatchStep(h, e.id, e.studio, e.reserve); id in h'.tallies && PostsLeft(h', id) <= PostsLeft(h, id)
  {
    var h' := DispatchStep(h, e.id, e.studio, e.reserve);
    if h' != h {
      FreeMachineHasNoTask(h, e.studio);
      DispatchShape(h, e.id, e.studio, e.reserve);
      hide Safe, BusyMachines, DispatchStep;
    }
  }

  ghost predicate NeverListed(h: Hub, es: seq<(Event, Time)>, id: ItemId)
    decreases es
  {
    es == [] || (!es[0].0.Restart? && !Relists(h, es[0].0, id) && NeverListed(Next(h, es[0].0, es[0].1), es[1..], id))
  }

  /** Over every run without a restart or a re-listing, an item is posted at most once more, and only if it was listed or its task had yet to begin. */
  lemma {:induction false} PostedAtMostOnce(h: Hub, es: seq<(Event, Time)>, id: ItemId)
    requires Safe(h) && id in h.tallies && NeverListed(h, es, id)
    ensures id in Run(h, es).tallies && PostsLeft(Run(h, es), id) <= PostsLeft(h, id)
    ensures Run(h, es).tallies[id].posted <= h.tallies[id].posted + if MayPost(h, id) then 1 else 0
    decreases es
  {
    if es != [] {
      NextIsSafe(h, es[0].0, es[0].1);
      PostsLeftFalls(h, es[0].0, es[0].1, id);
      hide Safe, Next, MayPost;
      PostedAtMostOnce(Next(h, es[0].0, es[0].1), es[1..], id);
    }
  }

  /**
   What a restart makes of a saved item whose lease is live: Voice work recorded as active becomes
   uncertain with its worker and job, other running work is queued again, all else is as saved.  A Voice
   item comes back queued exactly when it was last saved queued.
   */
  lemma RestartFencesVoice(h: Hub, now: Time, id: ItemId)
    requires id in h.saved && id.0 in h.savedHeaders && !LeaseExpired(h.savedHeaders[id.0].lease, now)
    ensures id in RestartStep(h, now).items
    ensures var x, x' := h.saved[id], RestartStep(h, now).items[id]; var voice := h.savedHeaders[id.0].modality == Voice;
            && (voice && (x.state.Running? || x.state.CancelRequested?) ==>
                  x'.state.Uncertain? && x'.recovery && x'.studio == x.studio && x'.jobId == x.jobId)
            && (voice ==> (x'.state.Queued? <==> x.state.Queued?) && !x'.state.Running?)
            && (!voice && x.state.Running? ==> x'.state.Queued? && x'.studio.None? && x'.jobId.None?)
            && (!x.state.Running? && !x.state.CancelRequested? ==> x' == x)
  {
  }

  /**
   The gap this leaves: a dispatch is not saved before its post.  Whatever the worker has accepted, a
   restart from a ledger that still says queued posts the same Voice item again.
   */
  lemma UnsavedAcceptanceIsReplayed(h: Hub, id: ItemId, s: StudioId, now: Time)
    requires Safe(h) && id in h.saved && id.0 in h.savedHeaders && id in h.tallies && s in h.machines
    requires h.savedHeaders[id.0].modality == Voice && h.savedHeaders[id.0].lease.None?
    requires h.saved[id].state.Queued? && !h.saved[id].recovery
    ensures var a := Next(h, Restart, now);
            var b := Next(a, Hold({id}), now);
            var c := Next(b, Dispatch(id, s, 0.0), now);
            var d := Next(c, Begin(s, false, false), now);
            id in d.tallies && d.tallies[id].posted == h.tallies[id].posted + 1
  {
    RestartIsIdle(h, id, s, now);
    assert Next(h, Restart, now) == RestartStep(h, now) by { hide RestartStep; }
    hide *;
    QueuedIsPosted(RestartStep(h, now), id, s, now);
  }

  lemma RestartIsIdle(h: Hub, id: ItemId, s: StudioId, now: Time)
    requires id in h.saved && id.0 in h.savedHeaders && id in h.tallies && s in h.machines
    requires h.savedHeaders[id.0].lease.None? && h.saved[id].state.Queued? && !h.saved[id].recovery
    ensures Idle(RestartStep(h, now), id, s) && RestartStep(h, now).tallies[id].posted == h.tallies[id].posted
  {
    assert !SavedExpires(h, id.0, now);
    hide SavedExpires;
  }

  predicate Idle(h: Hub, id: ItemId, s: StudioId) {
    && h.tasks == map[] && h.leases == map[] && id in h.items && id in h.tallies && s in h.machines
    && h.items[id].state.Queued? && !h.items[id].recovery && id.0 in h.headers && h.headers[id.0].lease.None?
  }

  lemma QueuedIsPosted(h: Hub, id: ItemId, s: StudioId, now: Time)
    requires Idle(h, id, s)
    ensures var b := Next(h, Hold({id}), now);
            var c := Next(b, Dispatch(id, s, 0.0), now);
            var d := Next(c, Begin(s, false, false), now);
            id in d.tallies && d.tallies[id].posted == h.tallies[id].posted + 1
  {
    var b := Next(h, Hold({id}), now);
    assert id in b.held && Idle(b, id, s);
    DispatchesIdle(b, id, s);
    var c := DispatchStep(b, id, s, 0.0);
    BeginPosts(c, id, s, now);
  }

  lemma DispatchesIdle(h: Hub, id: ItemId, s: StudioId)
    requires Idle(h, id, s) && id in h.held
    ensures var c := DispatchStep(h, id, s, 0.0);
            && c.tasks == map[s := Task(id, Fresh)] && c.items == h.items[id := Started(h.items[id], s, 0.0)]
            && c.headers == h.headers && c.machines == h.machines && id in c.tallies && c.tallies[id].posted == h.tallies[id].posted
  {
    assert BusyMachines(h) == {};
  }

  lemma BeginPosts(h: Hub, id: ItemId, s: StudioId, now: Time)
    requires TaskIn(h, s) && h.tasks[s] == Task(id, Fresh) && !Owns(h.items[id]) && h.headers[id.0].lease.None?
    ensures var d := Next(h, Begin(s, false, false), now); id in d.tallies && d.tallies[id].posted == h.tallies[id].posted + 1
  {
  }

  // ---------------------------------------------------------------- expiry and cancellation

  /** A lapsed lease leaves its batch no work to do, rewrites nothing that had ended, and touches no other batch. */
  lemma ExpiryFencesOnlyUnfinished(h: Hub, b: BatchId, now: Time, id: ItemId)
    requires b in h.headers && LeaseExpired(h.headers[b].lease, now) && id in h.items
    ensures id in Expired(h, b, now).items
    ensures var x, x' := h.items[id], Expired(h, b, now).items[id];
            && (id.0 == b ==> !Unfinished(x'.state))
            && (id.0 != b || !Unfinished(x.state) ==> x' == x)
  {
  }

  /** The dispatcher's start of one listed item: its state, and its batch's, are not part of the guard. */
  predicate Starts(h: Hub, e: Event, id: ItemId) {
    && e.Dispatch? && e.id == id && id in h.held && id in h.tallies
    && e.studio in h.machines && h.machines[e.studio] !in BusyMachines(h) && e.reserve >= 0.0
  }

  /** An item that does not run is started by exactly one kind of step, whatever its state and its batch's. */
  lemma StartsIff(h: Hub, e: Event, now: Time, id: ItemId)
    requires Safe(h) && !e.Restart? && id in h.items && !h.items[id].state.Running?
    ensures id in Next(h, e, now).items
    ensures Next(h, e, now).items[id].state.Running? <==> Starts(h, e, id)
  {
    assert ItemOk(h, id);
    hide Safe, TaskStep, BusyMachines, DispatchStep;
    if OnTask(e) {
      if TaskIn(h, e.s) { TaskStartsNothing(h, e, now, id); }
    } else if e.Dispatch? {
      DispatchStartsOne(h, e, now, id);
    } else {
      hide Next;
      QuietOnOwned(h, e, now, id);
    }
  }

  lemma TaskStartsNothing(h: Hub, e: Event, now: Time, id: ItemId)
    requires OnTask(e) && TaskIn(h, e.s) && id in h.items && !h.items[id].state.Running?
    ensures id in TaskStep(h, e, now).items && !TaskStep(h, e, now).items[id].state.Running?
  {
    hide TaskStep;
    if h.tasks[e.s].id == id { OwnStepOutcome(h, e, now); } else { StepTouchesOne(h, e, now, id); }
  }

  lemma DispatchStartsOne(h: Hub, e: Event, now: Time, id: ItemId)
    requires e.Dispatch? && id in h.items && !h.items[id].state.Running?
    ensures id in DispatchStep(h, e.id, e.studio, e.reserve).items
    ensures DispatchStep(h, e.id, e.studio, e.reserve).items[id].state.Running? <==> Starts(h, e, id)
  {
    hide BusyMachines;
  }

  /**
   Cancelled is not final: of an item cancelled while the dispatcher lists it, the next step makes a
   running one exactly when it is that item's start on a free worker.
   */
  lemma CancelledStartsIff(h: Hub, e: Event, now: Time, id: ItemId)
    requires Safe(h) && !e.Restart? && id in h.items && h.items[id].state.Cancelled?
    ensures id in Next(h, e, now).items
    ensures Next(h, e, now).items[id].state.Running? <==>
              && e.Dispatch? && e.id == id && id in h.held && id in h.tallies
              && e.studio in h.machines && h.machines[e.studio] !in BusyMachines(h) && e.reserve >= 0.0
  {
    hide Safe, Next, BusyMachines;
    StartsIff(h, e, now, id);
  }

  predicate Relists(h: Hub, e: Event, id: ItemId) {
    e.Hold? && id in e.ids && id in h.items && h.items[id].state.Queued?
  }

  ghost predicate NeverRelists(h: Hub, es: seq<(Event, Time)>, id: ItemId)
    decreases es
  {
    es == [] || (!Relists(h, es[0].0, id) && NeverRelists(Next(h, es[0].0, es[0].1), es[1..], id))
  }

  predicate OffTheList(h: Hub, id: ItemId) {
    id !in h.held && (id in h.items ==> !h.items[id].state.Running?)
  }

  lemma OffTheListStays(h: Hub, e: Event, now: Time, id: ItemId)
    requires Safe(h) && OffTheList(h, id) && !Relists(h, e, id)
    ensures OffTheList(Next(h, e, now), id)
  {
    HeldOnlyByListing(h, e, now, id);
    if e.Restart? {
      hide Safe, SavedExpires;
    } else if id in h.items {
      StartsIff(h, e, now, id);
      hide Next, Safe;
    } else {
      NewItemsDoNotRun(h, e, now, id);
      hide Next, Safe;
    }
  }

  lemma HeldOnlyByListing(h: Hub, e: Event, now: Time, id: ItemId)
    requires id !in h.held && !Relists(h, e, id)
    ensures id !in Next(h, e, now).held
  {
    hide TaskStep, Expires, BusyMachines;
    if OnTask(e) && TaskIn(h, e.s) { StepTouchesOne(h, e, now, h.tasks[e.s].id); }
  }

  lemma NewItemsDoNotRun(h: Hub, e: Event, now: Time, id: ItemId)
    requires Safe(h) && id !in h.items && id !in h.held
    ensures id in Next(h, e, now).items ==> !Next(h, e, now).items[id].state.Running?
  {
    hide TaskStep, Expires, BusyMachines, SavedExpires, Safe;
    if OnTask(e) && TaskIn(h, e.s) { StepTouchesOne(h, e, now, h.tasks[e.s].id); }
  }

  /** Over every run: an item that was off the dispatcher's list when it was cancelled runs again only if it is listed again. */
  lemma {:induction false} UnlistedIsNeverStarted(h: Hub, es: seq<(Event, Time)>, id: ItemId)
    requires Safe(h) && OffTheList(h, id) && NeverRelists(h, es, id)
    ensures OffTheList(Run(h, es), id)
    decreases es
  {
    if es != [] {
      NextIsSafe(h, es[0].0, es[0].1);
      OffTheListStays(h, es[0].0, es[0].1, id);
      UnlistedIsNeverStarted(Next(h, es[0].0, es[0].1), es[1..], id);
    }
  }

  /** Ended in memory and in the ledger, on nobody's list and in nobody's hands. */
  ghost predicate Over(h: Hub, id: ItemId) {
    && id in h.items && !Unfinished(h.items[id].state) && !h.items[id].state.Uncertain?
    && id in h.saved && !Unfinished(h.saved[id].state) && !h.saved[id].state.Uncertain? && id.0 in h.savedHeaders
    && id !in h.held && (forall s | s in h.tasks :: h.tasks[s].id != id) && id in h.tallies
  }

  lemma OverStays(h: Hub, e: Event, now: Time, id: ItemId)
    requires Safe(h) && Over(h, id)
    ensures Over(Next(h, e, now), id) && Next(h, e, now).tallies[id].posted == h.tallies[id].posted
  {
    assert ItemOk(h, id);
    hide Safe, TaskStep, Expires, SavedExpires, BusyMachines;
    if OnTask(e) {
      if TaskIn(h, e.s) { StepTouchesOne(h, e, now, id); }
    } else if e.Restart? {
      OverSurvivesRestart(h, now, id);
    } else {
      QuietKeepsOver(h, e, now, id);
    }
  }

  lemma OverSurvivesRestart(h: Hub, now: Time, id: ItemId)
    requires Over(h, id)
    ensures Over(RestartStep(h, now), id) && RestartStep(h, now).tallies[id].posted == h.tallies[id].posted
  {
    hide SavedExpires;
  }

  lemma QuietKeepsOver(h: Hub, e: Event, now: Time, id: ItemId)
    requires !OnTask(e) && !e.Restart? && Over(h, id) && id.0 in h.headers
    ensures Over(Next(h, e, now), id) && Next(h, e, now).tallies[id].posted == h.tallies[id].posted
  {
    hide Expires, BusyMachines;
  }

  /**
   Where cancelled is final: once it is saved, with no task and off the list, no run queues, starts or
   posts the item again, restarts and the two blind requeues included.
   */
  lemma {:induction false} OverIsFinal(h: Hub, es: seq<(Event, Time)>, id: ItemId)
    requires Safe(h) && Over(h, id)
    ensures Over(Run(h, es), id) && Run(h, es).tallies[id].posted == h.tallies[id].posted
    decreases es
  {
    if es != [] {
      NextIsSafe(h, es[0].0, es[0].1);
      OverStays(h, es[0].0, es[0].1, id);
      OverIsFinal(Next(h, es[0].0, es[0].1), es[1..], id);
    }
  }

  /** The two steps that put an item back without looking at its batch. */
  predicate RequeuesBlindly(h: Hub, e: Event, now: Time) {
    || (e.HandoffDone? && TaskIn(h, e.s) && h.tasks[e.s].phase.Handoff?)
    || (e.Begin? && TaskIn(h, e.s) && h.tasks[e.s].phase.Fresh? && e.peerChanged && !e.refused && !Owns(ItemOf(h, e.s))
        && !Expires(h, h.tasks[e.s].id.0, now))
  }

  /** An item of a cancelled batch is queued again, where nothing will ever start it, by exactly those two steps. */
  lemma CancelledBatchRequeues(h: Hub, e: Event, now: Time, id: ItemId)
    requires Safe(h) && !e.Restart? && id in h.items && id.0 in h.headers && h.headers[id.0].cancelled && !h.items[id].state.Queued?
    ensures id in Next(h, e, now).items
    ensures Next(h, e, now).items[id].state.Queued? <==> RequeuesBlindly(h, e, now) && h.tasks[e.s].id == id
  {
    RequeuedIff(h, e, now, id);
    hide Safe, Next, Expires;
  }
}

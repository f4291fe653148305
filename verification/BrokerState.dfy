/**
 The broker's process state as the object it is: items, running tasks, machine leases and the memory
 promised, changed in place.  Each method is one step of the item life cycle, so what every run of that
 machine keeps, every sequence of calls on this object keeps.
 */
module BrokerState {
  import opened Outcomes
  import opened BrokerItems
  import opened Lifecycle

  class Broker {
    const machines: map<StudioId, Machine>
    var headers: map<BatchId, Header>
    var items: map<ItemId, Item>
    var savedHeaders: map<BatchId, Header>
    var saved: map<ItemId, Item>
    var tasks: map<StudioId, Task>
    var held: set<ItemId>
    var leases: map<Machine, string>
    var reserved: Gb
    ghost var tallies: map<ItemId, Tally>

    ghost function View(): Hub
      reads this
    {
      Hub(machines, headers, items, savedHeaders, saved, tasks, held, leases, reserved, tallies)
    }

    constructor (registry: map<StudioId, Machine>)
      ensures machines == registry && Safe(View()) && Init(View())
    {
      machines := registry;
      headers, items, savedHeaders, saved, tasks := map[], map[], map[], map[], map[];
      held, leases, reserved, tallies := {}, map[], 0.0, map[];
      new;
      InitIsSafe(View());
    }

    /** Machines that run a batch item or are leased to another queue. */
    method Busy() returns (busy: set<Machine>)
      ensures busy == BusyMachines(View())
    {
      busy := leases.Keys + set s | s in tasks && s in machines :: machines[s];
    }

    /** Reserve a free machine for another queue; a waiting render keeps everyone else off. */
    method AcquireMachine(m: Machine, owner: string, renderWaits: bool) returns (ok: bool)
      requires Safe(View())
      modifies this`leases
      ensures View() == Next(old(View()), Acquire(m, owner, renderWaits), 0.0) && Safe(View())
      ensures ok <==> m !in BusyMachines(old(View())) && !renderWaits
      ensures ok ==> m in leases && leases[m] == owner
    {
      LeaseSteps(View(), m, owner, renderWaits);
      hide Safe, Next, BusyMachines;
      var busy := Busy();
      ok := m !in busy && !renderWaits;
      if ok { leases := leases[m := owner]; }
    }

    /** Only the owner's lease is given up. */
    method ReleaseMachine(m: Machine, owner: string)
      requires Safe(View())
      modifies this`leases
      ensures View() == Next(old(View()), Free(m, owner), 0.0) && Safe(View())
    {
      LeaseSteps(View(), m, owner, false);
      hide Safe, Next, BusyMachines;
      if m in leases && leases[m] == owner { leases := leases - {m}; }
    }

    /** Start a listed item on a worker whose machine is free. */
    method StartItem(id: ItemId, s: StudioId, reserve: Gb) returns (ok: bool)
      requires Safe(View()) && reserve >= 0.0
      modifies this
      ensures View() == DispatchStep(old(View()), id, s, reserve) && Safe(View())
      ensures ok <==> id in old(held) && s in machines && machines[s] !in BusyMachines(old(View()))
      ensures ok ==> id in items && items[id].state.Running? && s in tasks && tasks[s].id == id
    {
      hide Safe, HeldOk, ItemOk, BusyMachines;
      HeldIsKnown(View(), id);
      DispatchIsSafe(View(), id, s, reserve);
      var busy := Busy();
      ok := id in held && s in machines && machines[s] !in busy;
      if !ok { return; }
      items := items[id := Started(items[id], s, reserve)];
      tasks := tasks[s := Task(id, Fresh)];
      held := held - {id};
      reserved := reserved + reserve;
      tallies := tallies[id := tallies[id].(dispatched := tallies[id].dispatched + 1)];
    }

    /** The end of every run: leave the item as `x`, free the worker, return the reservation. */
    method EndRun(s: StudioId, x: Item)
      requires Safe(View()) && TaskIn(View(), s) && x.reserved == ItemOf(View(), s).reserved && Sane(x)
      modifies this
      ensures View() == Finish(old(View()), s, x) && Safe(View())
      ensures reserved == old(reserved) - x.reserved && s !in tasks
    {
      hide Safe, Sane;
      FinishIsSafe(View(), s, x);
      items := items[tasks[s].id := x.(reserved := 0.0)];
      tasks := tasks - {s};
      reserved := Clip(reserved - x.reserved);
    }

    /** Decide what a failed attempt becomes: uncertain, waiting for memory, retried, or ended. */
    method HandleFailure(s: StudioId, f: Failure, now: Time)
      requires Safe(View()) && TaskIn(View(), s)
      modifies this
      ensures View() == Classify(old(View()), s, f, now) && Safe(View())
    {
      hide Safe, Finish, Sane, Delay;
      ClassifyIsSafe(View(), s, f, now);
      var x, d := items[tasks[s].id], headers[tasks[s].id.0];
      if d.modality == Voice && x.jobId.Some? && f.transport {
        StatesAreSane(x);
        EndRun(s, MarkUncertain(x));
      } else if f.retryable && f.capacity && !d.cancelled {
        tasks := tasks[s := tasks[s].(phase := Handoff)];
      } else if f.retryable && f.transport && !d.cancelled {
        RetryConnection(s, now);
      } else if f.retryable && x.tries < MAX_TRIES && !d.cancelled {
        StatesAreSane(x.(retryAt := Some(now + Delay(RETRY_DELAYS_S, Back(x.tries)))));
        EndRun(s, x.(state := Queued, retryAt := Some(now + Delay(RETRY_DELAYS_S, Back(x.tries)))));
      } else {
        StatesAreSane(x.(retryAt := None));
        EndRun(s, x.(state := Error, retryAt := None));
      }
    }

    /** A connection failure: for every failure the classifier takes for one, the run ends as it decides. */
    method RetryConnection(s: StudioId, now: Time)
      requires Safe(View()) && TaskIn(View(), s) && !HeaderOf(View(), s).cancelled
      modifies this
      ensures forall f: Failure | f.retryable && f.transport && !f.capacity && !(HeaderOf(old(View()), s).modality == Voice && ItemOf(old(View()), s).jobId.Some?) ::
                View() == Classify(old(View()), s, f, now)
      ensures Safe(View()) && s !in tasks
    {
      hide Safe, Finish, Sane, Delay;
      var x := items[tasks[s].id];
      var since := if x.infraSince.Some? then x.infraSince.value else now;
      var y := x.(infra := x.infra + 1, infraSince := Some(since), avoid := x.avoid[machines[s] := now + FAILED_WORKER_AVOID_S]);
      if y.infra < MAX_INFRA_TRIES && now - since < INFRA_RETRY_WINDOW_S {
        StatesAreSane(y.(retryAt := Some(now + Delay(INFRA_RETRY_DELAYS_S, x.infra))));
        EndRun(s, y.(state := Queued, retryAt := Some(now + Delay(INFRA_RETRY_DELAYS_S, x.infra))));
      } else {
        StatesAreSane(y.(retryAt := None));
        EndRun(s, y.(state := Error, retryAt := None));
      }
    }

    /** Fence a batch whose lease has run out, item by item; nothing to fence means nothing happens. */
    method FenceBatch(b: BatchId, now: Time) returns (fenced: bool)
      requires Safe(View())
      modifies this`items, this`headers
      ensures View() == Expired(old(View()), b, now) && Safe(View())
      ensures fenced == Expires(old(View()), b, now)
    {
      hide Safe;
      ExpiryIsSafe(View(), b, now);
      ExpiredIs(View(), b, now);
      hide Expired, Expires;
      if b !in headers || !LeaseExpired(headers[b].lease, now) { return false; }
      var left: map<ItemId, Item>;
      left, fenced := FenceItems(items, b);
      if fenced {
        items := left;
        headers := headers[b := headers[b].(cancelled := true)];
      }
    }

    /** Reload everything after a restart: fence, mark uncertain, or queue again. */
    method RestoreBatches(now: Time)
      requires Safe(View())
      modifies this
      ensures View() == RestartStep(old(View()), now) && Safe(View())
    {
      hide Safe;
      RestartIsSafe(View(), now);
      var restored := RestoreItems(View(), saved, savedHeaders, now);
      var revived := RestoreHeaders(View(), saved, savedHeaders, now);
      tallies := RestartedTallies(View(), now);
      headers, items, savedHeaders, saved := revived, restored, revived, restored;
      tasks, held, leases, reserved := map[], {}, map[], 0.0;
    }
  }

  /** The loop over one batch's items: take the unfinished ones out of work. */
  method FenceItems(items: map<ItemId, Item>, b: BatchId) returns (left: map<ItemId, Item>, fenced: bool)
    ensures left == map id | id in items :: if id.0 == b then Fence(items[id]) else items[id]
    ensures fenced <==> exists id | id in items :: id.0 == b && Unfinished(items[id].state)
  {
    left, fenced := items, false;
    var todo := items.Keys;
    while todo != {}
      invariant todo <= items.Keys && left.Keys == items.Keys
      invariant forall id | id in items :: left[id] == if id !in todo && id.0 == b then Fence(items[id]) else items[id]
      invariant fenced <==> exists id | id in items && id !in todo :: id.0 == b && Unfinished(items[id].state)
      decreases todo
    {
      var id :| id in todo;
      if id.0 == b && Unfinished(items[id].state) {
        left := left[id := items[id].(state := Cancelled, retryAt := None)];
        fenced := true;
      }
      todo := todo - {id};
    }
  }

  /** The loop over the reloaded items. */
  method RestoreItems(ghost h: Hub, loaded: map<ItemId, Item>, owners: map<BatchId, Header>, now: Time) returns (restored: map<ItemId, Item>)
    requires loaded == h.saved && owners == h.savedHeaders
    ensures restored == RestoredItems(h, now)
  {
    restored := map[];
    var todo := loaded.Keys;
    while todo != {}
      invariant todo <= loaded.Keys
      invariant forall id :: id in restored <==> id in loaded && id !in todo && id.0 in owners
      invariant forall id | id in restored :: restored[id] == Restore(loaded[id], owners[id.0], SavedExpires(h, id.0, now))
      decreases todo
    {
      var id :| id in todo;
      if id.0 in owners {
        var over := Lapses(loaded, owners[id.0], id.0, now);
        var x := RestoreItem(loaded[id], owners[id.0], over);
        restored := restored[id := x];
      }
      todo := todo - {id};
    }
  }

  method RestoreHeaders(ghost h: Hub, loaded: map<ItemId, Item>, owners: map<BatchId, Header>, now: Time) returns (revived: map<BatchId, Header>)
    requires loaded == h.saved && owners == h.savedHeaders
    ensures revived == RestoredHeaders(h, now)
  {
    revived := map b | b in owners :: if Lapses(loaded, owners[b], b, now) then owners[b].(cancelled := true) else owners[b];
  }

  method RestoreItem(saved: Item, d: Header, over: bool) returns (x: Item)
    ensures x == Restore(saved, d, over)
  {
    x := saved;
    if over {
      if Unfinished(x.state) { x := x.(state := Cancelled, retryAt := None); }
    } else if d.modality == Voice && (x.state.Running? || x.state.CancelRequested?) {
      x := MarkUncertain(x);
    } else if x.state.Running? {
      x := x.(state := Queued, studio := None, jobId := None);
    }
  }

  /** What acquiring and releasing amount to, spelled out. */
  lemma LeaseSteps(h: Hub, m: Machine, owner: string, renderWaits: bool)
    requires Safe(h)
    ensures Next(h, Acquire(m, owner, renderWaits), 0.0) == if m in BusyMachines(h) || renderWaits then h else h.(leases := h.leases[m := owner])
    ensures Next(h, Free(m, owner), 0.0) == if m in h.leases && h.leases[m] == owner then h.(leases := h.leases - {m}) else h
    ensures Safe(Next(h, Acquire(m, owner, renderWaits), 0.0)) && Safe(Next(h, Free(m, owner), 0.0))
  {
    hide Safe, BusyMachines;
    NextIsSafe(h, Acquire(m, owner, renderWaits), 0.0);
    NextIsSafe(h, Free(m, owner), 0.0);
  }

  /** What an expiry amounts to, spelled out. */
  lemma ExpiredIs(h: Hub, b: BatchId, now: Time)
    ensures var over := b in h.headers && LeaseExpired(h.headers[b].lease, now) && exists id | id in h.items :: id.0 == b && Unfinished(h.items[id].state);
            && Expires(h, b, now) == over
            && Expired(h, b, now) == if !over then h else
                 h.(headers := h.headers[b := h.headers[b].(cancelled := true)],
                    items := map id | id in h.items :: if id.0 == b then Fence(h.items[id]) else h.items[id])
  {
  }

  lemma HeldIsKnown(h: Hub, id: ItemId)
    requires Safe(h)
    ensures id in h.held ==> id in h.items && id in h.tallies
  {
    if id in h.held {
      assert HeldOk(h, id);
      assert ItemOk(h, id);
    }
  }

  lemma StatesAreSane(x: Item)
    ensures Sane(MarkUncertain(x)) && Sane(x.(state := Queued)) && Sane(x.(state := Error)) && Sane(x.(state := Cancelled))
  {
  }

  /** A saved batch with a lapsed lease and unfinished work. */
  predicate Lapses(saved: map<ItemId, Item>, d: Header, b: BatchId, now: Time) {
    LeaseExpired(d.lease, now) && exists id | id in saved :: id.0 == b && Unfinished(saved[id].state)
  }
}

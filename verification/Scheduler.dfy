/**
 One pass of the broker's scheduler: which queued item gets which free worker.  Everything the pass
 reads about the fleet is fixed while it runs; only its own dispatches change the workers in use and
 the local memory it has promised.
 */
module Scheduler {
  import opened Outcomes
  import opened BrokerItems

  datatype Routing = Pool | Remote | Pinned(studio: StudioId)

  datatype Batch = Batch(
    modality: Modality, routing: Routing, memoryFloor: Gb, lastDispatched: Time, createdAt: Time,
    cancelled: bool, lease: Option<Time>, items: seq<Item>)

  /** `ready` stands for monitored up, enabled, not draining, not cooling down; `rank` for its placement score. */
  datatype Studio = Studio(machine: Machine, modality: Modality, ready: bool, rank: real, ordinal: nat)

  /** The admission floors of one model on one worker; a zero `minTotal` asks for nothing. */
  datatype Need = Need(minTotal: Gb, minFree: Gb)

  datatype Host = Host(total: Gb, available: Gb)

  /** What a pass reads: external leases, and for each batch the workers that could serve it. */
  datatype Fleet = Fleet(
    studios: map<StudioId, Studio>, registry: seq<StudioId>, leases: set<Machine>,
    evidence: set<(BatchId, StudioId)>, serves: set<(BatchId, StudioId)>, voices: set<(BatchId, nat, StudioId)>,
    needs: map<(BatchId, StudioId), Need>, hosts: map<Machine, Host>)

  datatype Decision = Run | Wait | Skip

  /** One assignment; `before` is the local memory promised when it was made. */
  datatype Dispatch = Dispatch(batch: BatchId, index: nat, studio: StudioId, before: Gb, reserve: Gb)

  // ---------------------------------------------------------------- gates

  function FreeFloor(n: Need): (g: Gb)
    ensures g >= 0.0
  {
    if n.minFree < 0.0 then 0.0 else n.minFree
  }

  function MemoryGate(n: Need, h: Host, reserved: Gb): Decision {
    if n.minTotal != 0.0 && h.total < n.minTotal then Skip
    else if h.available - reserved < FreeFloor(n) then Wait
    else Run
  }

  /** The answer on one Mac: never when it is too small, not now when too little is free above what is promised, else yes. */
  lemma MemoryGateIff(n: Need, h: Host, reserved: Gb)
    ensures MemoryGate(n, h, reserved) == Skip <==> n.minTotal != 0.0 && h.total < n.minTotal
    ensures MemoryGate(n, h, reserved) == Run <==>
            (n.minTotal == 0.0 || n.minTotal <= h.total) && 0.0 <= h.available - reserved && n.minFree <= h.available - reserved
    ensures MemoryGate(n, h, reserved) == Wait <==>
            (n.minTotal == 0.0 || n.minTotal <= h.total) && (h.available < reserved || h.available < reserved + n.minFree)
  {
  }

  /** Admission on one worker; unknown needs or telemetry leave the decision to the worker itself. */
  function Admission(f: Fleet, b: BatchId, s: StudioId, reserved: Gb): Decision
    requires s in f.studios
  {
    var m := f.studios[s].machine;
    if (b, s) !in f.needs || m !in f.hosts then Run
    else MemoryGate(f.needs[(b, s)], f.hosts[m], if m == LOCAL then reserved else 0.0)
  }

  function Reserve(f: Fleet, b: BatchId, s: StudioId): (g: Gb)
    requires s in f.studios
    ensures g >= 0.0
  {
    if (b, s) in f.needs && f.studios[s].machine == LOCAL then FreeFloor(f.needs[(b, s)]) else 0.0
  }

  function BusyMachines(f: Fleet, busy: set<StudioId>): set<Machine> {
    f.leases + set s | s in busy && s in f.studios :: f.studios[s].machine
  }

  /** The part of `_eligible_studios` that a pass does not change. */
  predicate Suits(f: Fleet, b: BatchId, x: Batch, s: StudioId) {
    && s in f.studios && f.studios[s].ready && f.studios[s].modality == x.modality && (b, s) in f.evidence
    && (x.routing.Pinned? ==> s == x.routing.studio)
    && (x.routing.Remote? ==> f.studios[s].machine != LOCAL)
  }

  predicate ItemAllows(f: Fleet, b: BatchId, x: Batch, i: nat, s: StudioId, now: Time)
    requires i < |x.items| && s in f.studios
  {
    && (b, i, s) in f.voices
    && (f.studios[s].machine in x.items[i].avoid ==> x.items[i].avoid[f.studios[s].machine] <= now)
  }

  /** Item `i` passes every gate on worker `s`, apart from the worker being in use. */
  predicate CanRun(f: Fleet, b: BatchId, x: Batch, i: nat, s: StudioId, now: Time, reserved: Gb)
    requires i < |x.items|
  {
    Suits(f, b, x, s) && ItemAllows(f, b, x, i, s, now) && (b, s) in f.serves && Admission(f, b, s, reserved).Run?
  }

  predicate Due(x: Item, now: Time) {
    x.state == Queued && (x.retryAt.Some? ==> x.retryAt.value <= now)
  }

  predicate Waiting(x: Batch, i: nat, now: Time)
    requires i < |x.items|
  {
    Due(x.items[i], now)
  }

  /** No waiting item of the batch could run on machine `m`. */
  ghost predicate Blocked(f: Fleet, b: BatchId, x: Batch, m: Machine, now: Time, reserved: Gb) {
    forall i, s | 0 <= i < |x.items| && Waiting(x, i, now) && s in f.studios && f.studios[s].machine == m ::
      !CanRun(f, b, x, i, s, now, reserved)
  }

  /** No waiting item of the batch could run on any machine that is still free. */
  ghost predicate Exhausted(f: Fleet, b: BatchId, x: Batch, busy: set<StudioId>, now: Time, reserved: Gb) {
    x.cancelled || forall s | s in f.studios && f.studios[s].machine !in BusyMachines(f, busy) ::
      Blocked(f, b, x, f.studios[s].machine, now, reserved)
  }

  /** The item was queued, past its retry time, in a batch nobody cancelled whose lease had not run out. */
  predicate IsDue(x: Batch, i: nat, now: Time) {
    && i < |x.items| && !x.cancelled && (x.lease.None? || now < x.lease.value)
    && x.items[i].state == Queued && (x.items[i].retryAt.None? || x.items[i].retryAt.value <= now)
  }

  /** After the lease check, exactly these items wait. */
  lemma DueIff(x: Batch, i: nat, now: Time)
    requires i < |x.items|
    ensures IsDue(x, i, now) <==> !Admitted(x, now).cancelled && Waiting(Admitted(x, now), i, now)
  {
  }

  /** Everything a worker and its Mac must offer an item, condition by condition. */
  lemma CanRunIff(f: Fleet, b: BatchId, x: Batch, i: nat, s: StudioId, now: Time, reserved: Gb)
    requires i < |x.items|
    ensures CanRun(f, b, x, i, s, now, reserved) <==>
            && s in f.studios
            && var w := f.studios[s];
            && w.ready && w.modality == x.modality && (b, s) in f.evidence && (b, s) in f.serves && (b, i, s) in f.voices
            && (x.routing == Pool || (x.routing == Remote && w.machine != LOCAL) || x.routing == Pinned(s))
            && (w.machine !in x.items[i].avoid || x.items[i].avoid[w.machine] <= now)
            && ((b, s) in f.needs && w.machine in f.hosts ==>
                  var promised := if w.machine == LOCAL then reserved else 0.0;
                  && (f.needs[(b, s)].minTotal == 0.0 || f.needs[(b, s)].minTotal <= f.hosts[w.machine].total)
                  && f.needs[(b, s)].minFree <= f.hosts[w.machine].available - promised
                  && 0.0 <= f.hosts[w.machine].available - promised)
  {
  }

  /** More memory promised never opens a gate. */
  lemma MorePromisedBlocksMore(f: Fleet, b: BatchId, x: Batch, m: Machine, now: Time, less: Gb, more: Gb)
    requires less <= more && Blocked(f, b, x, m, now, less)
    ensures Blocked(f, b, x, m, now, more)
  {
    forall i, s | 0 <= i < |x.items| && Waiting(x, i, now) && s in f.studios && f.studios[s].machine == m
      ensures !CanRun(f, b, x, i, s, now, more)
    {
      assert !CanRun(f, b, x, i, s, now, less);
    }
  }

  lemma ExhaustedStays(f: Fleet, b: BatchId, x: Batch, busy: set<StudioId>, busy': set<StudioId>, now: Time, less: Gb, more: Gb)
    requires less <= more && busy <= busy' && Exhausted(f, b, x, busy, now, less)
    ensures Exhausted(f, b, x, busy', now, more)
  {
    if !x.cancelled {
      forall s | s in f.studios && f.studios[s].machine !in BusyMachines(f, busy')
        ensures Blocked(f, b, x, f.studios[s].machine, now, more)
      {
        MorePromisedBlocksMore(f, b, x, f.studios[s].machine, now, less, more);
      }
    }
  }

  // ---------------------------------------------------------------- orders

  datatype Key = Key(first: real, second: real, third: real, fourth: real)

  predicate NotAfter(k: Key, l: Key) {
    k.first < l.first || (k.first == l.first &&
      (k.second < l.second || (k.second == l.second &&
        (k.third < l.third || (k.third == l.third && k.fourth <= l.fourth)))))
  }

  function Insert<T>(x: T, ys: seq<T>, key: T -> Key): seq<T> {
    if ys == [] then [x] else if NotAfter(key(x), key(ys[0])) then [x] + ys else [ys[0]] + Insert(x, ys[1..], key)
  }

  /** A stable sort: equal keys keep their order. */
  function SortBy<T>(xs: seq<T>, key: T -> Key): seq<T> {
    if xs == [] then [] else Insert(xs[0], SortBy(xs[1..], key), key)
  }

  ghost predicate Sorted<T(!new)>(xs: seq<T>, key: T -> Key) {
    forall i, j | 0 <= i < j < |xs| :: NotAfter(key(xs[i]), key(xs[j]))
  }

  lemma {:induction false} InsertSorts<T(!new)>(x: T, ys: seq<T>, key: T -> Key)
    requires Sorted(ys, key)
    ensures Sorted(Insert(x, ys, key), key) && multiset(Insert(x, ys, key)) == multiset{x} + multiset(ys)
    decreases ys
  {
    if ys == [] {
    } else if NotAfter(key(x), key(ys[0])) {
      assert multiset([x] + ys) == multiset{x} + multiset(ys);
    } else {
      InsertSorts(x, ys[1..], key);
      var rest := Insert(x, ys[1..], key);
      assert ys == [ys[0]] + ys[1..];
      forall j | 0 <= j < |rest| ensures NotAfter(key(ys[0]), key(rest[j])) {
        assert rest[j] in multiset(rest);
        assert rest[j] == x || rest[j] in ys[1..];
      }
    }
  }

  lemma {:induction false} SortBySorts<T(!new)>(xs: seq<T>, key: T -> Key)
    ensures Sorted(SortBy(xs, key), key) && multiset(SortBy(xs, key)) == multiset(xs)
    decreases xs
  {
    if xs != [] {
      SortBySorts(xs[1..], key);
      InsertSorts(xs[0], SortBy(xs[1..], key), key);
      assert xs == [xs[0]] + xs[1..];
    }
  }

  lemma CountOf<T>(xs: seq<T>, i: nat)
    requires i < |xs|
    ensures multiset(xs)[xs[i]] == multiset(xs[..i])[xs[i]] + 1 + multiset(xs[i + 1..])[xs[i]]
  {
    assert xs == xs[..i] + ([xs[i]] + xs[i + 1..]);
  }

  lemma Once<T>(xs: seq<T>, i: nat)
    requires Distinct(xs) && i < |xs|
    ensures multiset(xs)[xs[i]] == 1
  {
    CountOf(xs, i);
    assert xs[i] !in xs[..i] && xs[i] !in xs[i + 1..];
    assert xs[i] !in multiset(xs[..i]) && xs[i] !in multiset(xs[i + 1..]);
  }

  lemma Twice<T>(xs: seq<T>, i: nat, j: nat)
    requires i < j < |xs| && xs[i] == xs[j]
    ensures multiset(xs)[xs[i]] >= 2
  {
    assert xs == xs[..j] + xs[j..];
    assert xs[..j][i] in multiset(xs[..j]) && xs[j..][0] in multiset(xs[j..]);
  }

  lemma DistinctIsAMultisetMatter<T>(xs: seq<T>)
    ensures Distinct(xs) <==> forall x | x in xs :: multiset(xs)[x] == 1
  {
    if Distinct(xs) {
      forall x | x in xs ensures multiset(xs)[x] == 1 {
        var i :| 0 <= i < |xs| && xs[i] == x;
        Once(xs, i);
      }
    } else {
      var i, j :| 0 <= i < j < |xs| && xs[i] == xs[j];
      Twice(xs, i, j);
      assert xs[i] in xs;
    }
  }

  function Priority(m: Modality): real {
    match m
    case Render => 0.0
    case Voice => 5.0
    case Music => 5.0
    case _ => 10.0
  }

  function BatchKey(x: Batch): Key {
    Key(Priority(x.modality), -x.memoryFloor, x.lastDispatched, x.createdAt)
  }

  predicate HasQueued(x: Batch) {
    exists i | 0 <= i < |x.items| :: x.items[i].state == Queued
  }

  function KeepQueued(batches: map<BatchId, Batch>, ids: seq<BatchId>): (r: seq<BatchId>)
    ensures forall b :: b in r <==> b in ids && b in batches && HasQueued(batches[b])
  {
    if ids == [] then []
    else (if ids[0] in batches && HasQueued(batches[ids[0]]) then [ids[0]] else []) + KeepQueued(batches, ids[1..])
  }

  lemma {:induction false} KeepQueuedDistinct(batches: map<BatchId, Batch>, ids: seq<BatchId>)
    requires Distinct(ids)
    ensures Distinct(KeepQueued(batches, ids))
    decreases ids
  {
    if ids != [] { KeepQueuedDistinct(batches, ids[1..]); }
  }

  function KeyIn(batches: map<BatchId, Batch>): BatchId -> Key {
    b => if b in batches then BatchKey(batches[b]) else Key(0.0, 0.0, 0.0, 0.0)
  }

  lemma PermutationKeepsElements<T>(xs: seq<T>, ys: seq<T>)
    requires multiset(xs) == multiset(ys)
    ensures Distinct(xs) <==> Distinct(ys)
    ensures forall x :: x in xs <==> x in ys
  {
    forall x ensures x in xs <==> x in ys { assert x in multiset(xs) <==> x in multiset(ys); }
    DistinctIsAMultisetMatter(xs);
    DistinctIsAMultisetMatter(ys);
  }

  /** Batches with queued work, by modality, then scarcity, then fair turn; `ids` is their insertion order. */
  function QueuedBatches(batches: map<BatchId, Batch>, ids: seq<BatchId>): seq<BatchId> {
    SortBy(KeepQueued(batches, ids), KeyIn(batches))
  }

  /** The queue lists every batch with queued work once, audio before image, and in full key order. */
  lemma QueueIsOrdered(batches: map<BatchId, Batch>, ids: seq<BatchId>)
    requires Distinct(ids)
    ensures var q := QueuedBatches(batches, ids);
            && Distinct(q)
            && (forall b :: b in q <==> b in ids && b in batches && HasQueued(batches[b]))
            && (forall i, j | 0 <= i < j < |q| :: NotAfter(BatchKey(batches[q[i]]), BatchKey(batches[q[j]])))
  {
    var kept := KeepQueued(batches, ids);
    var q := QueuedBatches(batches, ids);
    KeepQueuedDistinct(batches, ids);
    SortBySorts(kept, KeyIn(batches));
    PermutationKeepsElements(kept, q);
    hide SortBy, NotAfter, BatchKey, HasQueued, Distinct, KeepQueued;
    forall i, j | 0 <= i < j < |q| ensures NotAfter(BatchKey(batches[q[i]]), BatchKey(batches[q[j]])) {
      assert NotAfter(KeyIn(batches)(q[i]), KeyIn(batches)(q[j]));
    }
  }

  /** Rendering before sound, sound before pictures. */
  function Class(m: Modality): nat {
    if m == Render then 0 else if m == Voice || m == Music then 1 else 2
  }

  /** Of two queued batches the earlier is of no worse class; then of no smaller memory floor; then served no later; then no younger. */
  lemma EarlierIsBetter(batches: map<BatchId, Batch>, ids: seq<BatchId>, i: nat, j: nat)
    requires Distinct(ids) && i < j < |QueuedBatches(batches, ids)|
    ensures var q := QueuedBatches(batches, ids);
            && q[i] in batches && q[j] in batches
            && var x, y := batches[q[i]], batches[q[j]];
            && Class(x.modality) <= Class(y.modality)
            && (Class(x.modality) == Class(y.modality) ==> x.memoryFloor >= y.memoryFloor)
            && (Class(x.modality) == Class(y.modality) && x.memoryFloor == y.memoryFloor ==> x.lastDispatched <= y.lastDispatched)
            && (Class(x.modality) == Class(y.modality) && x.memoryFloor == y.memoryFloor && x.lastDispatched == y.lastDispatched ==>
                  x.createdAt <= y.createdAt)
  {
    QueueIsOrdered(batches, ids);
    var q := QueuedBatches(batches, ids);
    assert q[i] in q && q[j] in q;
    hide QueuedBatches;
  }

  /** Sound outranks pictures: a batch of a better class is never queued behind a worse one. */
  lemma AudioBeforeImage(batches: map<BatchId, Batch>, ids: seq<BatchId>, i: nat, j: nat)
    requires Distinct(ids)
    requires var q := QueuedBatches(batches, ids);
             i < |q| && j < |q| && q[i] in batches && q[j] in batches
             && (batches[q[i]].modality.Voice? || batches[q[i]].modality.Music?)
             && (batches[q[j]].modality.Image? || batches[q[j]].modality.Video?)
    ensures i < j
  {
    QueueIsOrdered(batches, ids);
    hide QueuedBatches;
  }

  function Placement(f: Fleet): seq<StudioId> {
    SortBy(f.registry, s => if s in f.studios then Key(f.studios[s].rank, f.studios[s].ordinal as real, 0.0, 0.0) else Key(0.0, 0.0, 0.0, 0.0))
  }

  /** Preferred workers come first, equal ones in the order they were added, and none is left out. */
  lemma PlacementKeepsAll(f: Fleet, s: StudioId)
    ensures s in Placement(f) <==> s in f.registry
    ensures forall i, j | 0 <= i < j < |Placement(f)| && Placement(f)[i] in f.studios && Placement(f)[j] in f.studios ::
              var a, b := f.studios[Placement(f)[i]], f.studios[Placement(f)[j]];
              a.rank <= b.rank && (a.rank == b.rank ==> a.ordinal <= b.ordinal)
  {
    var key := s => if s in f.studios then Key(f.studios[s].rank, f.studios[s].ordinal as real, 0.0, 0.0) else Key(0.0, 0.0, 0.0, 0.0);
    SortBySorts(f.registry, key);
    assert s in multiset(Placement(f)) <==> s in multiset(f.registry);
    var all := Placement(f);
    forall i, j | 0 <= i < j < |all| && all[i] in f.studios && all[j] in f.studios
      ensures f.studios[all[i]].rank <= f.studios[all[j]].rank
      ensures f.studios[all[i]].rank == f.studios[all[j]].rank ==> f.studios[all[i]].ordinal <= f.studios[all[j]].ordinal
    {
      assert NotAfter(key(all[i]), key(all[j]));
    }
  }

  // ---------------------------------------------------------------- the pass

  function Held(busy: set<StudioId>, log: seq<Dispatch>): set<StudioId> {
    busy + set d | d in log :: d.studio
  }

  function Total(log: seq<Dispatch>): Gb {
    if log == [] then 0.0 else Total(log[..|log| - 1]) + log[|log| - 1].reserve
  }

  lemma TotalAppend(log: seq<Dispatch>, d: Dispatch)
    ensures Total(log + [d]) == Total(log) + d.reserve
  {
    assert (log + [d])[..|log|] == log;
  }

  /** Dispatch `d` was allowed: its worker was free, and the item passed every gate with the memory promised so far. */
  ghost predicate Legal(f: Fleet, x: Batch, d: Dispatch, busy: set<StudioId>, reserved: Gb, now: Time) {
    && d.index < |x.items| && Waiting(x, d.index, now) && CanRun(f, d.batch, x, d.index, d.studio, now, reserved)
    && d.studio in f.studios && f.studios[d.studio].machine !in BusyMachines(f, busy)
    && d.before == reserved && d.reserve == Reserve(f, d.batch, d.studio)
  }

  ghost predicate LegalAt(f: Fleet, b: BatchId, x: Batch, made: seq<Dispatch>, k: nat, busy: set<StudioId>, reserved: Gb, now: Time)
    requires k < |made|
  {
    made[k].batch == b && Legal(f, x, made[k], Held(busy, made[..k]), reserved + Total(made[..k]), now)
  }

  /** The dispatches of one batch, each legal after the ones before it. */
  ghost predicate LegalRun(f: Fleet, b: BatchId, x: Batch, made: seq<Dispatch>, busy: set<StudioId>, reserved: Gb, now: Time) {
    forall k | 0 <= k < |made| :: LegalAt(f, b, x, made, k, busy, reserved, now)
  }

  /** Batch `y` is `x` with exactly the items of `made` started, each once. */
  ghost predicate StartedBy(x: Batch, y: Batch, made: seq<Dispatch>, now: Time) {
    && |y.items| == |x.items| && y == x.(items := y.items, lastDispatched := if made == [] then x.lastDispatched else now)
    && (forall k | 0 <= k < |made| ::
          && made[k].index < |x.items|
          && y.items[made[k].index] == x.items[made[k].index].(state := Running, studio := Some(made[k].studio), jobId := None, retryAt := None,
                                                               tries := x.items[made[k].index].tries + 1, reserved := made[k].reserve))
    && (forall i | 0 <= i < |x.items| :: y.items[i] == x.items[i] || exists k | 0 <= k < |made| :: made[k].index == i)
    && (forall j, k | 0 <= j < k < |made| :: made[j].index != made[k].index)
  }

  /** An item passed over for a later one of its batch could not use that worker. */
  ghost predicate InOrder(f: Fleet, x: Batch, y: Batch, made: seq<Dispatch>, now: Time) {
    |y.items| == |x.items| && forall k, i | 0 <= k < |made| && 0 <= i < made[k].index < |x.items| && Waiting(y, i, now) && made[k].studio in f.studios ::
      !ItemAllows(f, made[k].batch, x, i, made[k].studio, now)
  }

  predicate Covers(f: Fleet) {
    (forall s | s in f.studios :: s in f.registry) && forall s | s in f.registry :: s in f.studios
  }

  class Scheduler {
    var batches: map<BatchId, Batch>
    var busy: set<StudioId>
    var reserved: Gb

    constructor ()
      ensures batches == map[] && busy == {} && reserved == 0.0
    {
      batches, busy, reserved := map[], {}, 0.0;
    }

    method Eligible(f: Fleet, b: BatchId, x: Batch) returns (out: seq<StudioId>)
      requires Covers(f)
      ensures forall s :: s in out <==> Suits(f, b, x, s) && f.studios[s].machine !in BusyMachines(f, busy)
    {
      var all := Placement(f);
      forall s ensures s in all <==> s in f.registry { PlacementKeepsAll(f, s); }
      out := [];
      for i := 0 to |all|
        invariant forall s :: s in out <==> s in all[..i] && Suits(f, b, x, s) && f.studios[s].machine !in BusyMachines(f, busy)
      {
        if Suits(f, b, x, all[i]) && f.studios[all[i]].machine !in BusyMachines(f, busy) { out := out + [all[i]]; }
      }
    }

    method StillQueued(x: Batch, now: Time) returns (queued: seq<nat>)
      ensures Lists(queued, x, now)
    {
      queued := [];
      for i := 0 to |x.items|
        invariant forall j | 0 <= j < |queued| :: queued[j] < i && Waiting(x, queued[j], now)
        invariant forall j, k | 0 <= j < k < |queued| :: queued[j] < queued[k]
        invariant forall j | 0 <= j < i && Waiting(x, j, now) :: j in queued
      {
        if Waiting(x, i, now) { queued := queued + [i]; }
      }
    }

    /** Position of the first queued item this worker may take. */
    method FirstFit(f: Fleet, b: BatchId, x: Batch, queued: seq<nat>, s: StudioId, now: Time) returns (k: Option<nat>)
      requires s in f.studios && forall j | 0 <= j < |queued| :: queued[j] < |x.items|
      ensures k.Some? ==> k.value < |queued| && ItemAllows(f, b, x, queued[k.value], s, now)
                          && forall j | 0 <= j < k.value :: !ItemAllows(f, b, x, queued[j], s, now)
      ensures k.None? ==> forall j | 0 <= j < |queued| :: !ItemAllows(f, b, x, queued[j], s, now)
    {
      for j := 0 to |queued|
        invariant forall i | 0 <= i < j :: !ItemAllows(f, b, x, queued[i], s, now)
      {
        if ItemAllows(f, b, x, queued[j], s, now) { return Some(j); }
      }
      k := None;
    }

    /** Offer one worker to the batch's remaining items: nothing happens, or the first that fits is started. */
    method Offer(f: Fleet, b: BatchId, queued: seq<nat>, s: StudioId, now: Time) returns (made: Option<Dispatch>, rest: seq<nat>)
      requires b in batches && s in f.studios && Suits(f, b, batches[b], s) && Lists(queued, batches[b], now)
      modifies this
      ensures made.None? ==>
                && batches == old(batches) && busy == old(busy) && reserved == old(reserved) && rest == queued
                && (f.studios[s].machine !in BusyMachines(f, busy) ==>
                      forall i | 0 <= i < |batches[b].items| && Waiting(batches[b], i, now) :: !CanRun(f, b, batches[b], i, s, now, reserved))
      ensures made.Some? ==>
                var x, d := old(batches)[b], made.value;
                && d.batch == b && d.studio == s && Legal(f, x, d, old(busy), old(reserved), now)
                && FirstFor(f, x, d, now)
                && batches == old(batches)[b := Take(x, d, now)] && busy == old(busy) + {s} && reserved == old(reserved) + d.reserve
                && Lists(rest, batches[b], now)
    {
      made, rest := None, queued;
      var x := batches[b];
      assert forall j | 0 <= j < |queued| :: queued[j] < |x.items|;
      var k := FirstFit(f, b, x, queued, s, now);
      if k.None? { NoneFits(f, b, x, queued, s, now, reserved); }
      hide Lists, ItemAllows, Admission, Due, FirstFor;
      if k.None? || (b, s) !in f.serves || Admission(f, b, s, reserved) != Run || f.studios[s].machine in BusyMachines(f, busy) { return; }
      var d := Dispatch(b, queued[k.value], s, reserved, Reserve(f, b, s));
      rest := queued[..k.value] + queued[k.value + 1..];
      TakenLeavesList(queued, k.value, x, Take(x, d, now), now);
      FirstIsFirst(f, x, queued, k.value, d, now);
      batches := batches[b := Take(x, d, now)];
      reserved := reserved + d.reserve;
      busy := busy + {s};
      made := Some(d);
    }

    /** Everything one batch gets in its turn. */
    method ServeBatch(f: Fleet, b: BatchId, now: Time) returns (made: seq<Dispatch>)
      requires Covers(f) && b in batches
      modifies this
      ensures b in batches && batches == old(batches)[b := batches[b]]
      ensures StartedBy(old(batches)[b], batches[b], made, now)
      ensures LegalRun(f, b, old(batches)[b], made, old(busy), old(reserved), now)
      ensures InOrder(f, old(batches)[b], batches[b], made, now)
      ensures busy == Held(old(busy), made) && reserved == old(reserved) + Total(made) && reserved >= old(reserved)
      ensures old(busy) <= busy
      ensures Exhausted(f, b, batches[b], busy, now, reserved)
    {
      hide *;
      var x := batches[b];
      var queued := StillQueued(x, now);
      var eligible := Eligible(f, b, x);
      made := [];
      StartNothing(f, b, x, busy, reserved, now);
      var i := 0;
      while i < |eligible|
        invariant 0 <= i <= |eligible|
        invariant b in batches && batches == old(batches)[b := batches[b]]
        invariant Lists(queued, batches[b], now)
        invariant Progress(f, b, x, batches[b], made, old(busy), old(reserved), now)
        invariant busy == Held(old(busy), made) && reserved == old(reserved) + Total(made) && reserved >= old(reserved)
        invariant old(busy) <= busy
        invariant forall t | 0 <= t < i :: Passed(f, b, batches[b], eligible[t], busy, now, reserved)
      {
        if queued == [] {
          NobodyLeft(f, b, batches[b], now);
          forall t | 0 <= t < |eligible| ensures Passed(f, b, batches[b], eligible[t], busy, now, reserved) {
            assert eligible[t] in eligible;
            ProgressMeans(f, b, x, batches[b], made, old(busy), old(reserved), now);
            SuitsStays(f, b, x, batches[b], eligible[t]);
          }
          break;
        }
        assert eligible[i] in eligible;
        ProgressMeans(f, b, x, batches[b], made, old(busy), old(reserved), now);
        SuitsStays(f, b, x, batches[b], eligible[i]);
        ghost var y, busyThen, reservedThen := batches[b], busy, reserved;
        var d, rest := Offer(f, b, queued, eligible[i], now);
        if d.Some? {
          LegalMeans(f, y, d.value, busyThen, reservedThen, now);
          OneMore(f, b, x, y, made, d.value, old(busy), old(reserved), now);
          forall t | 0 <= t < i ensures Passed(f, b, batches[b], eligible[t], busy, now, reserved) {
            PassedStays(f, b, y, d.value, eligible[t], busyThen, now, reservedThen);
          }
          InUse(f, busyThen, eligible[i]);
          TotalAppend(made, d.value);
          made := made + [d.value];
          queued := rest;
        }
        MeansPassed(f, b, batches[b], eligible[i], busy, now, reserved);
        i := i + 1;
      }
      ProgressMeans(f, b, x, batches[b], made, old(busy), old(reserved), now);
      AllPassed(f, b, x, batches[b], eligible, made, old(busy), busy, now, old(reserved), reserved);
    }

    /**
     One pass over the queue.  When it ends, no worker is idle that a queued item could still use, and no
     worker went to a batch while an earlier batch had an item that could have run on it.
     */
    method DispatchPass(f: Fleet, ids: seq<BatchId>, now: Time) returns (queue: seq<BatchId>, runs: seq<seq<Dispatch>>)
      requires Covers(f) && Distinct(ids)
      modifies this
      ensures queue == QueuedBatches(old(batches), ids) && |runs| == |queue|
      ensures batches.Keys == old(batches).Keys && forall p | 0 <= p < |queue| :: queue[p] in batches
      ensures forall b | b in batches && b !in queue :: batches[b] == old(batches)[b]
      ensures busy == Held(old(busy), Flat(runs)) && reserved == old(reserved) + Total(Flat(runs)) && reserved >= old(reserved)
      ensures forall p | 0 <= p < |runs| :: TurnOk(f, old(batches), batches, queue, runs, p, old(busy), old(reserved), now)
      ensures forall p | 0 <= p < |queue| :: Exhausted(f, queue[p], batches[queue[p]], busy, now, reserved)
      ensures forall p | 0 <= p < |queue| :: NoInversion(f, batches, queue, runs, p, now)
      ensures forall p, k | 0 <= p < |runs| && 0 <= k < |runs[p]| :: Fits(f, runs[p][k])
      ensures forall p, k | 0 <= p < |runs| && 0 <= k < |runs[p]| :: Apart(f, runs, p, k, old(busy))
      ensures forall p, k | 0 <= p < |runs| && 0 <= k < |runs[p]| :: IsDue(old(batches)[queue[p]], runs[p][k].index, now)
      ensures LOCAL in f.hosts && old(reserved) <= f.hosts[LOCAL].available ==> reserved <= f.hosts[LOCAL].available
    {
      QueueIsOrdered(batches, ids);
      queue, runs := QueuedBatches(batches, ids), [];
      ghost var before := batches;
      hide *;
      PassBegins(f, before, queue, busy, reserved, now);
      for p := 0 to |queue|
        invariant |runs| == p
        invariant PassState(f, before, batches, queue, runs, old(busy), old(reserved), busy, reserved, now)
      {
        ghost var was, busyThen, reservedThen := batches, busy, reserved;
        NextIsThere(f, before, was, queue, runs, old(busy), old(reserved), busy, reserved, now);
        var made := TakeTurn(f, queue[p], now);
        PassAdvances(f, before, was, batches, queue, runs, made, old(busy), old(reserved), busyThen, reservedThen, busy, reserved, now);
        runs := runs + [made];
      }
      PassEnds(f, before, batches, queue, runs, old(busy), old(reserved), busy, reserved, now);
      PassFits(f, before, batches, queue, runs, old(busy), old(reserved), now);
      PassIsApart(f, before, batches, queue, runs, old(busy), old(reserved), now);
    }

    /** One batch's turn, lease and cancellation first. */
    method TakeTurn(f: Fleet, b: BatchId, now: Time) returns (made: seq<Dispatch>)
      requires Covers(f) && b in batches
      modifies this
      ensures b in batches && batches == old(batches)[b := batches[b]]
      ensures busy == Held(old(busy), made) && old(busy) <= busy && reserved == old(reserved) + Total(made) && reserved >= old(reserved)
      ensures var x := Admitted(old(batches)[b], now);
              if x.cancelled then made == [] && batches[b] == x
              else Progress(f, b, x, batches[b], made, old(busy), old(reserved), now)
      ensures Exhausted(f, b, batches[b], busy, now, reserved)
    {
      var x := Admitted(batches[b], now);
      batches := batches[b := x];
      made := [];
      NothingYet(busy, reserved);
      if !x.cancelled {
        hide *;
        made := ServeBatch(f, b, now);
        MeansProgress(f, b, x, batches[b], made, old(busy), old(reserved), now);
      }
    }
  }

  lemma {:induction false} TotalConcat(xs: seq<Dispatch>, ys: seq<Dispatch>)
    ensures Total(xs + ys) == Total(xs) + Total(ys)
    decreases ys
  {
    if ys == [] {
      assert xs + ys == xs;
    } else {
      TotalConcat(xs, ys[..|ys| - 1]);
      assert xs + ys == (xs + ys[..|ys| - 1]) + [ys[|ys| - 1]];
      TotalAppend(xs + ys[..|ys| - 1], ys[|ys| - 1]);
    }
  }

  lemma HeldConcat(busy: set<StudioId>, xs: seq<Dispatch>, ys: seq<Dispatch>)
    ensures Held(Held(busy, xs), ys) == Held(busy, xs + ys)
  {
    assert forall d :: d in xs + ys <==> d in xs || d in ys;
  }

  lemma FlatAppend(runs: seq<seq<Dispatch>>, made: seq<Dispatch>)
    ensures Flat(runs + [made]) == Flat(runs) + made
  {
    assert (runs + [made])[..|runs|] == runs;
  }

  /** The items a lapsed lease takes out of the queue, before its batch is looked at. */
  function Admitted(x: Batch, now: Time): Batch {
    if LeaseExpired(x.lease, now) && AnyUnfinished(x.items) then x.(cancelled := true, items := FenceAll(x.items)) else x
  }

  function Flat(runs: seq<seq<Dispatch>>): seq<Dispatch> {
    if runs == [] then [] else Flat(runs[..|runs| - 1]) + runs[|runs| - 1]
  }

  /** Turn `p` of a pass: its dispatches are legal after everything before them, and nothing else changed in its batch. */
  ghost predicate TurnOk(f: Fleet, before: map<BatchId, Batch>, after: map<BatchId, Batch>, queue: seq<BatchId>,
                         runs: seq<seq<Dispatch>>, p: nat, busy: set<StudioId>, reserved: Gb, now: Time)
    requires p < |runs| <= |queue| && queue[p] in before && queue[p] in after
  {
    var x := Admitted(before[queue[p]], now);
    if x.cancelled then runs[p] == [] && after[queue[p]] == x
    else Progress(f, queue[p], x, after[queue[p]], runs[p], Held(busy, Flat(runs[..p])), reserved + Total(Flat(runs[..p])), now)
  }

  /** No batch queued before turn `p` had an item that a worker given away in that turn could have run. */
  ghost predicate NoInversion(f: Fleet, after: map<BatchId, Batch>, queue: seq<BatchId>, runs: seq<seq<Dispatch>>, p: nat, now: Time)
    requires p < |runs| <= |queue| && forall q | 0 <= q < |queue| :: queue[q] in after
  {
    forall k, q | 0 <= k < |runs[p]| && 0 <= q < p && runs[p][k].studio in f.studios && !after[queue[q]].cancelled ::
      Blocked(f, queue[q], after[queue[q]], f.studios[runs[p][k].studio].machine, now, runs[p][k].before)
  }

  /** What one batch's turn has done so far. */
  ghost predicate Progress(f: Fleet, b: BatchId, x: Batch, y: Batch, made: seq<Dispatch>, busy: set<StudioId>, reserved: Gb, now: Time) {
    StartedBy(x, y, made, now) && LegalRun(f, b, x, made, busy, reserved, now) && InOrder(f, x, y, made, now)
  }

  /** Worker `s` is in use, or nothing that still waits could run on it. */
  ghost predicate Passed(f: Fleet, b: BatchId, y: Batch, s: StudioId, busy: set<StudioId>, now: Time, reserved: Gb) {
    s in f.studios && (f.studios[s].machine in BusyMachines(f, busy)
    || forall i | 0 <= i < |y.items| && Waiting(y, i, now) :: !CanRun(f, b, y, i, s, now, reserved))
  }

  function Take(x: Batch, d: Dispatch, now: Time): Batch
    requires d.index < |x.items|
  {
    x.(items := x.items[d.index := Started(x.items[d.index], d.studio, d.reserve)], lastDispatched := now)
  }

  /** No earlier waiting item of the batch was allowed on that worker. */
  ghost predicate FirstFor(f: Fleet, x: Batch, d: Dispatch, now: Time) {
    d.index < |x.items| && d.studio in f.studios
    && forall i | 0 <= i < d.index && Waiting(x, i, now) :: !ItemAllows(f, d.batch, x, i, d.studio, now)
  }

  lemma NoneFits(f: Fleet, b: BatchId, x: Batch, queued: seq<nat>, s: StudioId, now: Time, reserved: Gb)
    requires Lists(queued, x, now) && s in f.studios && forall j | 0 <= j < |queued| :: !ItemAllows(f, b, x, queued[j], s, now)
    ensures forall i | 0 <= i < |x.items| && Waiting(x, i, now) :: !CanRun(f, b, x, i, s, now, reserved)
  {
    forall i | 0 <= i < |x.items| && Waiting(x, i, now) ensures !CanRun(f, b, x, i, s, now, reserved) {
      var p :| 0 <= p < |queued| && queued[p] == i;
    }
    hide Due, Admission, Suits;
  }

  lemma FirstIsFirst(f: Fleet, x: Batch, queued: seq<nat>, k: nat, d: Dispatch, now: Time)
    requires Lists(queued, x, now) && k < |queued| && d.index == queued[k] && d.studio in f.studios
    requires forall j | 0 <= j < k :: !ItemAllows(f, d.batch, x, queued[j], d.studio, now)
    ensures FirstFor(f, x, d, now) && d.index < |x.items| && Waiting(x, d.index, now)
  {
    forall i | 0 <= i < d.index && Waiting(x, i, now) ensures !ItemAllows(f, d.batch, x, i, d.studio, now) {
      var p :| 0 <= p < |queued| && queued[p] == i;
      assert p < k;
    }
  }

  /** `queued` are the waiting items of `x`, in order. */
  ghost predicate Lists(queued: seq<nat>, x: Batch, now: Time) {
    && (forall j | 0 <= j < |queued| :: queued[j] < |x.items| && Waiting(x, queued[j], now))
    && (forall j, k | 0 <= j < k < |queued| :: queued[j] < queued[k])
    && (forall i | 0 <= i < |x.items| && Waiting(x, i, now) :: i in queued)
  }

  lemma TakenLeavesList(queued: seq<nat>, k: nat, x: Batch, y: Batch, now: Time)
    requires Lists(queued, x, now) && k < |queued| && |y.items| == |x.items| && y.items[queued[k]].state == Running
    requires forall i | 0 <= i < |x.items| && i != queued[k] :: y.items[i] == x.items[i]
    ensures Lists(queued[..k] + queued[k + 1..], y, now)
  {
    assert !Waiting(y, queued[k], now);
    hide Due;
    var rest := queued[..k] + queued[k + 1..];
    forall j | 0 <= j < |rest| ensures rest[j] < |y.items| && Waiting(y, rest[j], now) {
      assert rest[j] == queued[if j < k then j else j + 1];
    }
    forall i | 0 <= i < |y.items| && Waiting(y, i, now) ensures i in rest {
      assert Waiting(x, i, now);
      var p :| 0 <= p < |queued| && queued[p] == i;
      assert p != k;
      assert rest[if p < k then p else p - 1] == i;
    }
  }

  lemma StartNothing(f: Fleet, b: BatchId, x: Batch, busy: set<StudioId>, reserved: Gb, now: Time)
    ensures Progress(f, b, x, x, [], busy, reserved, now) && Held(busy, []) == busy && Total([]) == 0.0
  {
  }

  lemma NobodyLeft(f: Fleet, b: BatchId, y: Batch, now: Time)
    requires Lists([], y, now)
    ensures forall s, busy, reserved | s in f.studios :: Passed(f, b, y, s, busy, now, reserved)
  {
  }

  lemma PassedStays(f: Fleet, b: BatchId, y: Batch, d: Dispatch, s: StudioId, busy: set<StudioId>, now: Time, reserved: Gb)
    requires Passed(f, b, y, s, busy, now, reserved) && d.index < |y.items| && d.reserve >= 0.0
    ensures Passed(f, b, Take(y, d, now), s, busy + {d.studio}, now, reserved + d.reserve)
  {
    var z := Take(y, d, now);
    if f.studios[s].machine !in BusyMachines(f, busy + {d.studio}) {
      forall i | 0 <= i < |z.items| && Waiting(z, i, now) ensures !CanRun(f, b, z, i, s, now, reserved + d.reserve) {
        assert Waiting(y, i, now);
        assert !CanRun(f, b, y, i, s, now, reserved);
      }
    }
  }

  lemma MeansPassed(f: Fleet, b: BatchId, y: Batch, s: StudioId, busy: set<StudioId>, now: Time, reserved: Gb)
    requires s in f.studios
    requires f.studios[s].machine !in BusyMachines(f, busy) ==>
               forall i | 0 <= i < |y.items| && Waiting(y, i, now) :: !CanRun(f, b, y, i, s, now, reserved)
    ensures Passed(f, b, y, s, busy, now, reserved)
  {
  }

  lemma InUse(f: Fleet, busy: set<StudioId>, s: StudioId)
    requires s in f.studios
    ensures f.studios[s].machine in BusyMachines(f, busy + {s})
  {
  }

  lemma HeldAppend(busy: set<StudioId>, made: seq<Dispatch>, d: Dispatch)
    ensures Held(busy, made + [d]) == Held(busy, made) + {d.studio}
  {
  }

  /** A dispatch that was legal for the batch as it then stood continues the batch's run. */
  lemma OneMore(f: Fleet, b: BatchId, x: Batch, y: Batch, made: seq<Dispatch>, d: Dispatch, busy: set<StudioId>, reserved: Gb, now: Time)
    requires Progress(f, b, x, y, made, busy, reserved, now)
    requires d.batch == b && Legal(f, y, d, Held(busy, made), reserved + Total(made), now) && FirstFor(f, y, d, now)
    ensures Progress(f, b, x, Take(y, d, now), made + [d], busy, reserved, now)
    ensures Held(busy, made + [d]) == Held(busy, made) + {d.studio}
  {
    hide *;
    HeldAppend(busy, made, d);
    ProgressMeans(f, b, x, y, made, busy, reserved, now);
    LegalMeans(f, y, d, Held(busy, made), reserved + Total(made), now);
    OneMoreStarted(x, y, made, d, now);
    OneMoreLegal(f, b, x, y, made, d, busy, reserved, now);
    OneMoreInOrder(f, b, x, y, made, d, now);
    MeansProgress(f, b, x, Take(y, d, now), made + [d], busy, reserved, now);
  }

  lemma ProgressMeans(f: Fleet, b: BatchId, x: Batch, y: Batch, made: seq<Dispatch>, busy: set<StudioId>, reserved: Gb, now: Time)
    requires Progress(f, b, x, y, made, busy, reserved, now)
    ensures StartedBy(x, y, made, now) && LegalRun(f, b, x, made, busy, reserved, now) && InOrder(f, x, y, made, now)
    ensures |y.items| == |x.items| && y == x.(items := y.items, lastDispatched := y.lastDispatched)
  {
  }

  lemma MeansProgress(f: Fleet, b: BatchId, x: Batch, y: Batch, made: seq<Dispatch>, busy: set<StudioId>, reserved: Gb, now: Time)
    requires StartedBy(x, y, made, now) && LegalRun(f, b, x, made, busy, reserved, now) && InOrder(f, x, y, made, now)
    ensures Progress(f, b, x, y, made, busy, reserved, now)
  {
  }

  lemma LegalMeans(f: Fleet, y: Batch, d: Dispatch, busy: set<StudioId>, reserved: Gb, now: Time)
    requires Legal(f, y, d, busy, reserved, now)
    ensures d.index < |y.items| && Waiting(y, d.index, now) && d.reserve >= 0.0
  {
  }

  /** Which workers suit a batch does not depend on which of its items have started. */
  lemma SuitsStays(f: Fleet, b: BatchId, x: Batch, y: Batch, s: StudioId)
    requires y == x.(items := y.items, lastDispatched := y.lastDispatched) && Suits(f, b, x, s)
    ensures s in f.studios && Suits(f, b, y, s)
  {
  }

  lemma OneMoreStarted(x: Batch, y: Batch, made: seq<Dispatch>, d: Dispatch, now: Time)
    requires StartedBy(x, y, made, now) && d.index < |y.items| && Waiting(y, d.index, now)
    ensures StartedBy(x, Take(y, d, now), made + [d], now)
    ensures y.items[d.index] == x.items[d.index]
  {
    var z, all := Take(y, d, now), made + [d];
    forall k | 0 <= k < |made| ensures made[k].index != d.index { }
    forall i | 0 <= i < |x.items| ensures z.items[i] == x.items[i] || exists k | 0 <= k < |all| :: all[k].index == i {
      if i == d.index {
        assert all[|made|].index == i;
      } else if y.items[i] != x.items[i] {
        var k :| 0 <= k < |made| && made[k].index == i;
        assert all[k].index == i;
      }
    }
  }

  lemma LegalSame(f: Fleet, x: Batch, y: Batch, d: Dispatch, busy: set<StudioId>, reserved: Gb, now: Time)
    requires y == x.(items := y.items, lastDispatched := y.lastDispatched) && |y.items| == |x.items|
    requires Legal(f, y, d, busy, reserved, now) && y.items[d.index] == x.items[d.index]
    ensures Legal(f, x, d, busy, reserved, now)
  {
  }

  lemma OneMoreLegal(f: Fleet, b: BatchId, x: Batch, y: Batch, made: seq<Dispatch>, d: Dispatch, busy: set<StudioId>, reserved: Gb, now: Time)
    requires StartedBy(x, y, made, now) && LegalRun(f, b, x, made, busy, reserved, now) && d.batch == b
    requires Legal(f, y, d, Held(busy, made), reserved + Total(made), now) && y.items[d.index] == x.items[d.index]
    ensures LegalRun(f, b, x, made + [d], busy, reserved, now)
  {
    var all := made + [d];
    LegalSame(f, x, y, d, Held(busy, made), reserved + Total(made), now);
    assert all[..|made|] == made;
    forall k | 0 <= k < |all| ensures LegalAt(f, b, x, all, k, busy, reserved, now) {
      if k < |made| { LegalPrefix(f, b, x, made, d, k, busy, reserved, now); }
    }
  }

  lemma LegalPrefix(f: Fleet, b: BatchId, x: Batch, made: seq<Dispatch>, d: Dispatch, k: nat, busy: set<StudioId>, reserved: Gb, now: Time)
    requires k < |made| && LegalAt(f, b, x, made, k, busy, reserved, now)
    ensures LegalAt(f, b, x, made + [d], k, busy, reserved, now)
  {
    assert (made + [d])[..k] == made[..k];
  }

  lemma OneMoreInOrder(f: Fleet, b: BatchId, x: Batch, y: Batch, made: seq<Dispatch>, d: Dispatch, now: Time)
    requires StartedBy(x, y, made, now) && InOrder(f, x, y, made, now) && FirstFor(f, y, d, now) && Waiting(y, d.index, now)
    ensures InOrder(f, x, Take(y, d, now), made + [d], now)
  {
    var z, all := Take(y, d, now), made + [d];
    forall k, i | 0 <= k < |all| && 0 <= i < all[k].index < |x.items| && Waiting(z, i, now) && all[k].studio in f.studios
      ensures !ItemAllows(f, all[k].batch, x, i, all[k].studio, now)
    {
      assert Waiting(y, i, now);
      if k == |made| { assert y.items[i] == x.items[i]; }
    }
  }

  lemma AllPassed(f: Fleet, b: BatchId, x: Batch, y: Batch, eligible: seq<StudioId>, made: seq<Dispatch>,
                  busy: set<StudioId>, busy': set<StudioId>, now: Time, reserved: Gb, reserved': Gb)
    requires StartedBy(x, y, made, now) && busy <= busy'
    requires forall s :: s in eligible <==> Suits(f, b, x, s) && f.studios[s].machine !in BusyMachines(f, busy)
    requires forall t | 0 <= t < |eligible| :: Passed(f, b, y, eligible[t], busy', now, reserved')
    ensures Exhausted(f, b, y, busy', now, reserved')
  {
    forall s | s in f.studios && f.studios[s].machine !in BusyMachines(f, busy')
      ensures Blocked(f, b, y, f.studios[s].machine, now, reserved')
    {
      forall i, t | 0 <= i < |y.items| && Waiting(y, i, now) && t in f.studios && f.studios[t].machine == f.studios[s].machine
        ensures !CanRun(f, b, y, i, t, now, reserved')
      {
        if t in eligible {
          var p :| 0 <= p < |eligible| && eligible[p] == t;
          assert Passed(f, b, y, eligible[p], busy', now, reserved');
        }
      }
    }
  }

  lemma NothingYet(busy: set<StudioId>, reserved: Gb)
    ensures Held(busy, []) == busy && Total([]) == 0.0 && Flat([]) == [] && reserved + Total([]) == reserved
  {
  }

  lemma NotYetServed(queue: seq<BatchId>, p: nat)
    requires Distinct(queue) && p < |queue|
    ensures queue[p] !in queue[..p] && queue[..p + 1] == queue[..p] + [queue[p]]
  {
  }

  lemma Differs(queue: seq<BatchId>, q: nat, p: nat)
    requires Distinct(queue) && q < p < |queue|
    ensures queue[q] != queue[p]
  {
  }

  lemma TurnStays(f: Fleet, before: map<BatchId, Batch>, was: map<BatchId, Batch>, after: map<BatchId, Batch>, queue: seq<BatchId>,
                  runs: seq<seq<Dispatch>>, made: seq<Dispatch>, q: nat, busy: set<StudioId>, reserved: Gb, now: Time)
    requires q < |runs| < |queue| && queue[q] in before && queue[q] in was && queue[q] in after && after[queue[q]] == was[queue[q]]
    requires TurnOk(f, before, was, queue, runs, q, busy, reserved, now)
    ensures TurnOk(f, before, after, queue, runs + [made], q, busy, reserved, now)
  {
    assert (runs + [made])[..q] == runs[..q];
  }

  lemma InversionStays(f: Fleet, was: map<BatchId, Batch>, after: map<BatchId, Batch>, queue: seq<BatchId>,
                       runs: seq<seq<Dispatch>>, made: seq<Dispatch>, q: nat, now: Time)
    requires q < |runs| < |queue|
    requires forall r | 0 <= r < |queue| :: queue[r] in was && queue[r] in after
    requires forall r | 0 <= r < |runs| :: after[queue[r]] == was[queue[r]]
    requires NoInversion(f, was, queue, runs, q, now)
    ensures NoInversion(f, after, queue, runs + [made], q, now)
  {
    hide Blocked;
  }

  lemma TurnDone(f: Fleet, before: map<BatchId, Batch>, after: map<BatchId, Batch>, queue: seq<BatchId>,
                 runs: seq<seq<Dispatch>>, made: seq<Dispatch>, busy: set<StudioId>, reserved: Gb,
                 busyThen: set<StudioId>, reservedThen: Gb, now: Time)
    requires |runs| < |queue| && queue[|runs|] in before && queue[|runs|] in after
    requires busyThen == Held(busy, Flat(runs)) && reservedThen == reserved + Total(Flat(runs))
    requires var x := Admitted(before[queue[|runs|]], now);
             if x.cancelled then made == [] && after[queue[|runs|]] == x
             else Progress(f, queue[|runs|], x, after[queue[|runs|]], made, busyThen, reservedThen, now)
    ensures TurnOk(f, before, after, queue, runs + [made], |runs|, busy, reserved, now)
  {
    hide Progress, Admitted, Held, Total, Flat;
    assert (runs + [made])[..|runs|] == runs;
  }

  /** What was promised before a turn is not less when the turn's dispatches are made. */
  lemma {:induction false} RunPromisesMore(f: Fleet, b: BatchId, x: Batch, made: seq<Dispatch>, k: nat, busy: set<StudioId>, reserved: Gb, now: Time)
    requires LegalRun(f, b, x, made, busy, reserved, now) && k <= |made|
    ensures Total(made[..k]) >= 0.0
    decreases k
  {
    if k > 0 {
      RunPromisesMore(f, b, x, made, k - 1, busy, reserved, now);
      assert LegalAt(f, b, x, made, k - 1, busy, reserved, now);
      assert made[..k] == made[..k - 1] + [made[k - 1]];
      TotalAppend(made[..k - 1], made[k - 1]);
    }
  }

  lemma NoInversionAt(f: Fleet, b: BatchId, x: Batch, made: seq<Dispatch>, k: nat, c: BatchId, y: Batch, busy: set<StudioId>, reserved: Gb, now: Time)
    requires LegalRun(f, b, x, made, busy, reserved, now) && k < |made|
    requires Exhausted(f, c, y, busy, now, reserved) && !y.cancelled
    ensures made[k].studio in f.studios && Blocked(f, c, y, f.studios[made[k].studio].machine, now, made[k].before)
  {
    assert LegalAt(f, b, x, made, k, busy, reserved, now);
    RunPromisesMore(f, b, x, made, k, busy, reserved, now);
    MorePromisedBlocksMore(f, c, y, f.studios[made[k].studio].machine, now, reserved, made[k].before);
  }

  lemma NoInversionHere(f: Fleet, was: map<BatchId, Batch>, after: map<BatchId, Batch>, queue: seq<BatchId>,
                        runs: seq<seq<Dispatch>>, made: seq<Dispatch>, before: map<BatchId, Batch>,
                        busy: set<StudioId>, reserved: Gb, busyThen: set<StudioId>, reservedThen: Gb, now: Time)
    requires |runs| < |queue| && forall r | 0 <= r < |queue| :: queue[r] in before && queue[r] in was && queue[r] in after
    requires forall r | 0 <= r < |runs| :: after[queue[r]] == was[queue[r]] && Exhausted(f, queue[r], was[queue[r]], busyThen, now, reservedThen)
    requires busyThen == Held(busy, Flat(runs)) && reservedThen == reserved + Total(Flat(runs))
    requires var x := Admitted(before[queue[|runs|]], now);
             if x.cancelled then made == [] && after[queue[|runs|]] == x
             else Progress(f, queue[|runs|], x, after[queue[|runs|]], made, busyThen, reservedThen, now)
    ensures NoInversion(f, after, queue, runs + [made], |runs|, now)
  {
    var x := Admitted(before[queue[|runs|]], now);
    var b := queue[|runs|];
    if !x.cancelled {
      ProgressMeans(f, b, x, after[b], made, busyThen, reservedThen, now);
      forall k, q | 0 <= k < |made| && 0 <= q < |runs| && made[k].studio in f.studios && !after[queue[q]].cancelled
        ensures Blocked(f, queue[q], after[queue[q]], f.studios[made[k].studio].machine, now, made[k].before)
      {
        NoInversionAt(f, b, x, made, k, queue[q], after[queue[q]], busyThen, reservedThen, now);
      }
    }
  }

  /** The Mac is large enough, what is free above the promises covers the need, and a local start promises exactly its need. */
  ghost predicate Fits(f: Fleet, d: Dispatch) {
    && d.studio in f.studios
    && var m := f.studios[d.studio].machine;
    && ((d.batch, d.studio) in f.needs && m in f.hosts ==>
          && var n, h := f.needs[(d.batch, d.studio)], f.hosts[m];
          && var promised := if m == "local" then d.before else 0.0;
          && (n.minTotal == 0.0 || n.minTotal <= h.total)
          && n.minFree <= h.available - promised && 0.0 <= h.available - promised)
    && ((d.batch, d.studio) in f.needs && m == "local" ==>
          && d.reserve >= 0.0 && d.reserve >= f.needs[(d.batch, d.studio)].minFree
          && (d.reserve == 0.0 || d.reserve == f.needs[(d.batch, d.studio)].minFree))
    && ((d.batch, d.studio) !in f.needs || m != "local" ==> d.reserve == 0.0)
  }

  lemma LegalFits(f: Fleet, x: Batch, d: Dispatch, busy: set<StudioId>, reserved: Gb, now: Time)
    requires Legal(f, x, d, busy, reserved, now)
    ensures Fits(f, d) && d.before == reserved
    ensures LOCAL in f.hosts && reserved <= f.hosts[LOCAL].available ==> reserved + d.reserve <= f.hosts[LOCAL].available
  {
    CanRunIff(f, d.batch, x, d.index, d.studio, now, reserved);
  }

  /** Within one turn the promises stay within the local memory that was free. */
  lemma {:induction false} TurnStaysWithin(f: Fleet, b: BatchId, x: Batch, made: seq<Dispatch>, k: nat, busy: set<StudioId>, reserved: Gb, now: Time)
    requires LegalRun(f, b, x, made, busy, reserved, now) && k <= |made|
    requires LOCAL in f.hosts && reserved <= f.hosts[LOCAL].available
    ensures reserved + Total(made[..k]) <= f.hosts[LOCAL].available
  {
    if k > 0 {
      TurnStaysWithin(f, b, x, made, k - 1, busy, reserved, now);
      assert LegalAt(f, b, x, made, k - 1, busy, reserved, now);
      LegalFits(f, x, made[k - 1], Held(busy, made[..k - 1]), reserved + Total(made[..k - 1]), now);
      TotalAppend(made[..k - 1], made[k - 1]);
      assert made[..k] == made[..k - 1] + [made[k - 1]];
    }
  }

  lemma TurnFits(f: Fleet, before: map<BatchId, Batch>, after: map<BatchId, Batch>, queue: seq<BatchId>,
                 runs: seq<seq<Dispatch>>, p: nat, busy: set<StudioId>, reserved: Gb, now: Time)
    requires p < |runs| <= |queue| && queue[p] in before && queue[p] in after
    requires TurnOk(f, before, after, queue, runs, p, busy, reserved, now)
    ensures forall k | 0 <= k < |runs[p]| :: Fits(f, runs[p][k])
    ensures LOCAL in f.hosts && reserved + Total(Flat(runs[..p])) <= f.hosts[LOCAL].available ==>
              reserved + Total(Flat(runs[..p])) + Total(runs[p]) <= f.hosts[LOCAL].available
  {
    var x := Admitted(before[queue[p]], now);
    hide Admitted, Fits, Held, Flat, StartedBy, InOrder;
    if !x.cancelled {
      var busyThen, reservedThen := Held(busy, Flat(runs[..p])), reserved + Total(Flat(runs[..p]));
      forall k | 0 <= k < |runs[p]| ensures Fits(f, runs[p][k]) {
        assert LegalAt(f, queue[p], x, runs[p], k, busyThen, reservedThen, now);
        LegalFits(f, x, runs[p][k], Held(busyThen, runs[p][..k]), reservedThen + Total(runs[p][..k]), now);
      }
      if LOCAL in f.hosts && reservedThen <= f.hosts[LOCAL].available {
        TurnStaysWithin(f, queue[p], x, runs[p], |runs[p]|, busyThen, reservedThen, now);
        assert runs[p][..|runs[p]|] == runs[p];
      }
    }
  }

  lemma {:induction false} PassStaysWithin(f: Fleet, before: map<BatchId, Batch>, after: map<BatchId, Batch>, queue: seq<BatchId>,
                                           runs: seq<seq<Dispatch>>, n: nat, busy: set<StudioId>, reserved: Gb, now: Time)
    requires n <= |runs| == |queue| && forall p | 0 <= p < |queue| :: queue[p] in before && queue[p] in after
    requires forall p | 0 <= p < |runs| :: TurnOk(f, before, after, queue, runs, p, busy, reserved, now)
    requires LOCAL in f.hosts && reserved <= f.hosts[LOCAL].available
    ensures reserved + Total(Flat(runs[..n])) <= f.hosts[LOCAL].available
  {
    hide TurnOk, Fits;
    if n > 0 {
      PassStaysWithin(f, before, after, queue, runs, n - 1, busy, reserved, now);
      TurnFits(f, before, after, queue, runs, n - 1, busy, reserved, now);
      FlatAppend(runs[..n - 1], runs[n - 1]);
      assert runs[..n] == runs[..n - 1] + [runs[n - 1]];
      TotalConcat(Flat(runs[..n - 1]), runs[n - 1]);
    }
  }

  /** Every start of a pass fits its Mac, and local promises that began within the free memory never exceed it. */
  lemma PassFits(f: Fleet, before: map<BatchId, Batch>, after: map<BatchId, Batch>, queue: seq<BatchId>,
                 runs: seq<seq<Dispatch>>, busy: set<StudioId>, reserved: Gb, now: Time)
    requires |runs| == |queue| && forall p | 0 <= p < |queue| :: queue[p] in before && queue[p] in after
    requires forall p | 0 <= p < |runs| :: TurnOk(f, before, after, queue, runs, p, busy, reserved, now)
    ensures forall p, k | 0 <= p < |runs| && 0 <= k < |runs[p]| :: Fits(f, runs[p][k])
    ensures LOCAL in f.hosts && reserved <= f.hosts[LOCAL].available ==> reserved + Total(Flat(runs)) <= f.hosts[LOCAL].available
  {
    hide TurnOk, Fits;
    forall p | 0 <= p < |runs| ensures forall k | 0 <= k < |runs[p]| :: Fits(f, runs[p][k]) {
      TurnFits(f, before, after, queue, runs, p, busy, reserved, now);
    }
    if LOCAL in f.hosts && reserved <= f.hosts[LOCAL].available {
      PassStaysWithin(f, before, after, queue, runs, |runs|, busy, reserved, now);
      assert runs[..|runs|] == runs;
    }
  }

  /** The Mac of a start was not leased, not in use before the pass, and not taken by an earlier start. */
  ghost predicate Apart(f: Fleet, runs: seq<seq<Dispatch>>, p: nat, k: nat, busy: set<StudioId>)
    requires p < |runs| && k < |runs[p]|
  {
    && runs[p][k].studio in f.studios
    && var m := f.studios[runs[p][k].studio].machine;
    && m !in f.leases
    && (forall s | s in busy && s in f.studios :: f.studios[s].machine != m)
    && (forall q, l | 0 <= q < p && 0 <= l < |runs[q]| && runs[q][l].studio in f.studios :: f.studios[runs[q][l].studio].machine != m)
    && (forall l | 0 <= l < k && runs[p][l].studio in f.studios :: f.studios[runs[p][l].studio].machine != m)
  }

  lemma {:induction false} FlatHas(runs: seq<seq<Dispatch>>, q: nat, l: nat)
    requires q < |runs| && l < |runs[q]|
    ensures runs[q][l] in Flat(runs)
    decreases |runs|
  {
    var init := runs[..|runs| - 1];
    if q < |init| {
      FlatHas(init, q, l);
      assert init[q][l] in Flat(init);
    }
  }

  lemma MachineIsBusy(f: Fleet, busy: set<StudioId>, s: StudioId)
    requires s in busy && s in f.studios
    ensures f.studios[s].machine in BusyMachines(f, busy)
  {
  }

  lemma StartIsApart(f: Fleet, b: BatchId, x: Batch, runs: seq<seq<Dispatch>>, p: nat, k: nat, busy: set<StudioId>, reserved: Gb, now: Time)
    requires p < |runs| && k < |runs[p]| && LegalAt(f, b, x, runs[p], k, Held(busy, Flat(runs[..p])), reserved, now)
    ensures Apart(f, runs, p, k, busy)
  {
    var m := f.studios[runs[p][k].studio].machine;
    var taken := Held(Held(busy, Flat(runs[..p])), runs[p][..k]);
    hide BusyMachines;
    assert m !in BusyMachines(f, taken);
    assert m !in f.leases by { LeasesAreBusy(f, taken); }
    forall s | s in busy && s in f.studios ensures f.studios[s].machine != m { MachineIsBusy(f, taken, s); }
    forall q, l | 0 <= q < p && 0 <= l < |runs[q]| && runs[q][l].studio in f.studios
      ensures f.studios[runs[q][l].studio].machine != m
    {
      FlatHas(runs[..p], q, l);
      assert runs[..p][q][l] in Flat(runs[..p]);
      assert runs[q][l].studio in taken;
      MachineIsBusy(f, taken, runs[q][l].studio);
    }
    forall l | 0 <= l < k && runs[p][l].studio in f.studios ensures f.studios[runs[p][l].studio].machine != m {
      assert runs[p][..k][l] in runs[p][..k];
      MachineIsBusy(f, taken, runs[p][l].studio);
    }
  }

  lemma LeasesAreBusy(f: Fleet, busy: set<StudioId>)
    ensures f.leases <= BusyMachines(f, busy)
  {
  }

  /** No two starts of a pass share a Mac, none is on a Mac in use or leased, and each item was due. */
  lemma PassIsApart(f: Fleet, before: map<BatchId, Batch>, after: map<BatchId, Batch>, queue: seq<BatchId>,
                    runs: seq<seq<Dispatch>>, busy: set<StudioId>, reserved: Gb, now: Time)
    requires |runs| == |queue| && forall p | 0 <= p < |queue| :: queue[p] in before && queue[p] in after
    requires forall p | 0 <= p < |runs| :: TurnOk(f, before, after, queue, runs, p, busy, reserved, now)
    ensures forall p, k | 0 <= p < |runs| && 0 <= k < |runs[p]| ::
              Apart(f, runs, p, k, busy) && IsDue(before[queue[p]], runs[p][k].index, now)
  {
    hide TurnOk, Apart, IsDue;
    forall p, k | 0 <= p < |runs| && 0 <= k < |runs[p]|
      ensures Apart(f, runs, p, k, busy) && IsDue(before[queue[p]], runs[p][k].index, now)
    {
      TurnIsApart(f, before, after, queue, runs, p, k, busy, reserved, now);
    }
  }

  lemma TurnIsApart(f: Fleet, before: map<BatchId, Batch>, after: map<BatchId, Batch>, queue: seq<BatchId>,
                    runs: seq<seq<Dispatch>>, p: nat, k: nat, busy: set<StudioId>, reserved: Gb, now: Time)
    requires p < |runs| <= |queue| && queue[p] in before && queue[p] in after && k < |runs[p]|
    requires TurnOk(f, before, after, queue, runs, p, busy, reserved, now)
    ensures Apart(f, runs, p, k, busy) && IsDue(before[queue[p]], runs[p][k].index, now)
  {
    var x := Admitted(before[queue[p]], now);
    hide Admitted, Apart, Held, Flat, StartedBy, InOrder, IsDue, Waiting, BusyMachines, CanRun;
    assert !x.cancelled;
    assert LegalAt(f, queue[p], x, runs[p], k, Held(busy, Flat(runs[..p])), reserved + Total(Flat(runs[..p])), now);
    StartIsApart(f, queue[p], x, runs, p, k, busy, reserved + Total(Flat(runs[..p])), now);
    ItemsStay(before[queue[p]], now);
    DueIff(before[queue[p]], runs[p][k].index, now);
  }

  lemma ItemsStay(x: Batch, now: Time)
    ensures |Admitted(x, now).items| == |x.items|
  {
  }

  /** The state of a pass after `|runs|` turns. */
  ghost predicate PassState(f: Fleet, before: map<BatchId, Batch>, after: map<BatchId, Batch>, queue: seq<BatchId>, runs: seq<seq<Dispatch>>,
                            busy0: set<StudioId>, reserved0: Gb, busy: set<StudioId>, reserved: Gb, now: Time)
  {
    && Framed(before, after, queue, runs, busy0, reserved0, busy, reserved)
    && forall q | 0 <= q < |runs| :: Settled(f, before, after, queue, runs, q, busy0, reserved0, busy, reserved, now)
  }

  ghost predicate Framed(before: map<BatchId, Batch>, after: map<BatchId, Batch>, queue: seq<BatchId>, runs: seq<seq<Dispatch>>,
                         busy0: set<StudioId>, reserved0: Gb, busy: set<StudioId>, reserved: Gb)
  {
    && |runs| <= |queue| && Distinct(queue) && after.Keys == before.Keys
    && (forall p | 0 <= p < |queue| :: queue[p] in before && queue[p] in after)
    && (forall b | b in after && b !in queue[..|runs|] :: after[b] == before[b])
    && busy == Held(busy0, Flat(runs)) && reserved == reserved0 + Total(Flat(runs)) && reserved >= reserved0
  }

  ghost predicate Settled(f: Fleet, before: map<BatchId, Batch>, after: map<BatchId, Batch>, queue: seq<BatchId>, runs: seq<seq<Dispatch>>, q: nat,
                          busy0: set<StudioId>, reserved0: Gb, busy: set<StudioId>, reserved: Gb, now: Time)
    requires q < |runs| && Framed(before, after, queue, runs, busy0, reserved0, busy, reserved)
  {
    && TurnOk(f, before, after, queue, runs, q, busy0, reserved0, now)
    && Exhausted(f, queue[q], after[queue[q]], busy, now, reserved)
    && NoInversion(f, after, queue, runs, q, now)
  }

  lemma PassBegins(f: Fleet, before: map<BatchId, Batch>, queue: seq<BatchId>, busy: set<StudioId>, reserved: Gb, now: Time)
    requires Distinct(queue) && forall p | 0 <= p < |queue| :: queue[p] in before
    ensures PassState(f, before, before, queue, [], busy, reserved, busy, reserved, now)
  {
    NothingYet(busy, reserved);
  }

  lemma NextIsThere(f: Fleet, before: map<BatchId, Batch>, after: map<BatchId, Batch>, queue: seq<BatchId>, runs: seq<seq<Dispatch>>,
                    busy0: set<StudioId>, reserved0: Gb, busy: set<StudioId>, reserved: Gb, now: Time)
    requires PassState(f, before, after, queue, runs, busy0, reserved0, busy, reserved, now) && |runs| < |queue|
    ensures queue[|runs|] in before && queue[|runs|] in after && after[queue[|runs|]] == before[queue[|runs|]]
  {
    NotYetServed(queue, |runs|);
  }

  lemma PassEnds(f: Fleet, before: map<BatchId, Batch>, after: map<BatchId, Batch>, queue: seq<BatchId>, runs: seq<seq<Dispatch>>,
                 busy0: set<StudioId>, reserved0: Gb, busy: set<StudioId>, reserved: Gb, now: Time)
    requires PassState(f, before, after, queue, runs, busy0, reserved0, busy, reserved, now) && |runs| == |queue|
    ensures after.Keys == before.Keys && forall p | 0 <= p < |queue| :: queue[p] in before && queue[p] in after
    ensures forall b | b in after && b !in queue :: after[b] == before[b]
    ensures busy == Held(busy0, Flat(runs)) && reserved == reserved0 + Total(Flat(runs)) && reserved >= reserved0
    ensures forall q | 0 <= q < |queue| ::
              && TurnOk(f, before, after, queue, runs, q, busy0, reserved0, now)
              && Exhausted(f, queue[q], after[queue[q]], busy, now, reserved)
              && NoInversion(f, after, queue, runs, q, now)
  {
    hide TurnOk, Exhausted, NoInversion, Held, Total, Flat;
    assert queue[..|runs|] == queue;
    forall q | 0 <= q < |queue|
      ensures TurnOk(f, before, after, queue, runs, q, busy0, reserved0, now)
      ensures Exhausted(f, queue[q], after[queue[q]], busy, now, reserved) && NoInversion(f, after, queue, runs, q, now)
    {
      assert Settled(f, before, after, queue, runs, q, busy0, reserved0, busy, reserved, now);
    }
  }

  lemma PassAdvances(f: Fleet, before: map<BatchId, Batch>, was: map<BatchId, Batch>, after: map<BatchId, Batch>, queue: seq<BatchId>,
                     runs: seq<seq<Dispatch>>, made: seq<Dispatch>, busy0: set<StudioId>, reserved0: Gb,
                     busyThen: set<StudioId>, reservedThen: Gb, busy: set<StudioId>, reserved: Gb, now: Time)
    requires PassState(f, before, was, queue, runs, busy0, reserved0, busyThen, reservedThen, now) && |runs| < |queue|
    requires queue[|runs|] in after && queue[|runs|] in before && after == was[queue[|runs|] := after[queue[|runs|]]]
    requires busy == Held(busyThen, made) && busyThen <= busy && reserved == reservedThen + Total(made) && reserved >= reservedThen
    requires var x := Admitted(before[queue[|runs|]], now);
             if x.cancelled then made == [] && after[queue[|runs|]] == x
             else Progress(f, queue[|runs|], x, after[queue[|runs|]], made, busyThen, reservedThen, now)
    requires Exhausted(f, queue[|runs|], after[queue[|runs|]], busy, now, reserved)
    ensures PassState(f, before, after, queue, runs + [made], busy0, reserved0, busy, reserved, now)
  {
    var p := |runs|;
    hide *;
    FrameAdvances(f, before, was, after, queue, runs, made, busy0, reserved0, busyThen, reservedThen, busy, reserved, now);
    forall q | 0 <= q < p
      ensures Settled(f, before, after, queue, runs + [made], q, busy0, reserved0, busy, reserved, now)
    {
      SettledAt(f, before, was, queue, runs, q, busy0, reserved0, busyThen, reservedThen, now);
      SettledStays(f, before, was, after, queue, runs, made, q, busy0, reserved0, busyThen, reservedThen, busy, reserved, now);
    }
    LastSettles(f, before, was, after, queue, runs, made, busy0, reserved0, busyThen, reservedThen, busy, reserved, now);
    StateHolds(f, before, after, queue, runs + [made], busy0, reserved0, busy, reserved, now);
  }

  lemma SettledAt(f: Fleet, before: map<BatchId, Batch>, after: map<BatchId, Batch>, queue: seq<BatchId>, runs: seq<seq<Dispatch>>, q: nat,
                  busy0: set<StudioId>, reserved0: Gb, busy: set<StudioId>, reserved: Gb, now: Time)
    requires PassState(f, before, after, queue, runs, busy0, reserved0, busy, reserved, now) && q < |runs|
    ensures Framed(before, after, queue, runs, busy0, reserved0, busy, reserved)
    ensures Settled(f, before, after, queue, runs, q, busy0, reserved0, busy, reserved, now)
  {
    hide Settled, Framed;
  }

  lemma StateHolds(f: Fleet, before: map<BatchId, Batch>, after: map<BatchId, Batch>, queue: seq<BatchId>, runs: seq<seq<Dispatch>>,
                   busy0: set<StudioId>, reserved0: Gb, busy: set<StudioId>, reserved: Gb, now: Time)
    requires Framed(before, after, queue, runs, busy0, reserved0, busy, reserved)
    requires forall q | 0 <= q < |runs| :: Settled(f, before, after, queue, runs, q, busy0, reserved0, busy, reserved, now)
    ensures PassState(f, before, after, queue, runs, busy0, reserved0, busy, reserved, now)
  {
    hide Settled, Framed;
  }

  lemma FrameAdvances(f: Fleet, before: map<BatchId, Batch>, was: map<BatchId, Batch>, after: map<BatchId, Batch>, queue: seq<BatchId>,
                      runs: seq<seq<Dispatch>>, made: seq<Dispatch>, busy0: set<StudioId>, reserved0: Gb,
                      busyThen: set<StudioId>, reservedThen: Gb, busy: set<StudioId>, reserved: Gb, now: Time)
    requires PassState(f, before, was, queue, runs, busy0, reserved0, busyThen, reservedThen, now) && |runs| < |queue|
    requires queue[|runs|] in after && queue[|runs|] in before && after == was[queue[|runs|] := after[queue[|runs|]]]
    requires busy == Held(busyThen, made) && reserved == reservedThen + Total(made) && reserved >= reservedThen
    ensures Framed(before, after, queue, runs + [made], busy0, reserved0, busy, reserved)
    ensures forall r | 0 <= r < |runs| :: queue[r] in was && queue[r] in after && after[queue[r]] == was[queue[r]]
  {
    NotYetServed(queue, |runs|);
    FlatAppend(runs, made);
    HeldConcat(busy0, Flat(runs), made);
    TotalConcat(Flat(runs), made);
    hide Settled, Held, Total, Flat, Distinct;
    assert queue[..|runs + [made]|] == queue[..|runs|] + [queue[|runs|]];
    forall r | 0 <= r < |runs| ensures after[queue[r]] == was[queue[r]] { Differs(queue, r, |runs|); }
  }

  lemma SettledStays(f: Fleet, before: map<BatchId, Batch>, was: map<BatchId, Batch>, after: map<BatchId, Batch>, queue: seq<BatchId>,
                     runs: seq<seq<Dispatch>>, made: seq<Dispatch>, q: nat, busy0: set<StudioId>, reserved0: Gb,
                     busyThen: set<StudioId>, reservedThen: Gb, busy: set<StudioId>, reserved: Gb, now: Time)
    requires Framed(before, was, queue, runs, busy0, reserved0, busyThen, reservedThen) && q < |runs|
    requires Framed(before, after, queue, runs + [made], busy0, reserved0, busy, reserved)
    requires forall r | 0 <= r < |runs| :: queue[r] in was && queue[r] in after && after[queue[r]] == was[queue[r]]
    requires busyThen <= busy && reservedThen <= reserved
    requires Settled(f, before, was, queue, runs, q, busy0, reserved0, busyThen, reservedThen, now)
    ensures Settled(f, before, after, queue, runs + [made], q, busy0, reserved0, busy, reserved, now)
  {
    hide TurnOk, Exhausted, NoInversion, Held, Total, Flat;
    TurnStays(f, before, was, after, queue, runs, made, q, busy0, reserved0, now);
    ExhaustedStays(f, queue[q], after[queue[q]], busyThen, busy, now, reservedThen, reserved);
    InversionStays(f, was, after, queue, runs, made, q, now);
  }

  lemma LastSettles(f: Fleet, before: map<BatchId, Batch>, was: map<BatchId, Batch>, after: map<BatchId, Batch>, queue: seq<BatchId>,
                    runs: seq<seq<Dispatch>>, made: seq<Dispatch>, busy0: set<StudioId>, reserved0: Gb,
                    busyThen: set<StudioId>, reservedThen: Gb, busy: set<StudioId>, reserved: Gb, now: Time)
    requires PassState(f, before, was, queue, runs, busy0, reserved0, busyThen, reservedThen, now) && |runs| < |queue|
    requires Framed(before, after, queue, runs + [made], busy0, reserved0, busy, reserved)
    requires forall r | 0 <= r < |runs| :: queue[r] in was && queue[r] in after && after[queue[r]] == was[queue[r]]
    requires queue[|runs|] in after && queue[|runs|] in before
    requires var x := Admitted(before[queue[|runs|]], now);
             if x.cancelled then made == [] && after[queue[|runs|]] == x
             else Progress(f, queue[|runs|], x, after[queue[|runs|]], made, busyThen, reservedThen, now)
    requires Exhausted(f, queue[|runs|], after[queue[|runs|]], busy, now, reserved)
    ensures Settled(f, before, after, queue, runs + [made], |runs|, busy0, reserved0, busy, reserved, now)
  {
    hide Progress, Admitted, Held, Total, Flat, TurnOk, Exhausted, NoInversion;
    TurnDone(f, before, after, queue, runs, made, busy0, reserved0, busyThen, reservedThen, now);
    forall r | 0 <= r < |runs| ensures Exhausted(f, queue[r], was[queue[r]], busyThen, now, reservedThen) {
      assert Settled(f, before, was, queue, runs, r, busy0, reserved0, busyThen, reservedThen, now);
    }
    NoInversionHere(f, was, after, queue, runs, made, before, busy0, reserved0, busyThen, reservedThen, now);
  }
}

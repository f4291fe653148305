/**
 The byte-bounded queue of job snapshots waiting to be copied to the shadow database: an ordered table,
 one snapshot per job, with a running total of encoded bytes.
 */
module ShadowQueue {
  const MAX_PENDING_SHADOW_BYTES: nat := 128 * 1024 * 1024

  datatype Key = Key(kind: string, id: string)

  datatype Entry = Entry(key: Key, snapshot: string)

  function CharBytes(c: char): nat {
    if c < '\U{80}' then 1 else if c < '\U{800}' then 2 else if c < '\U{10000}' then 3 else 4
  }

  /** Length of the UTF-8 encoding. */
  function ByteLength(s: string): nat {
    if s == "" then 0 else CharBytes(s[0]) + ByteLength(s[1..])
  }

  function Total(q: seq<Entry>): nat {
    if q == [] then 0 else ByteLength(q[0].snapshot) + Total(q[1..])
  }

  predicate DistinctKeys(q: seq<Entry>) {
    forall i, j | 0 <= i < j < |q| :: q[i].key != q[j].key
  }

  function Without(q: seq<Entry>, k: Key): seq<Entry> {
    if q == [] then [] else (if q[0].key == k then [] else [q[0]]) + Without(q[1..], k)
  }

  /** Drop the oldest entries until `incoming` more bytes fit, or nothing is left. */
  function Evict(q: seq<Entry>, incoming: nat): seq<Entry> {
    if q == [] || Total(q) + incoming <= MAX_PENDING_SHADOW_BYTES then q else Evict(q[1..], incoming)
  }

  /** The table after a snapshot was queued. */
  function Queued(q: seq<Entry>, k: Key, snapshot: string): seq<Entry> {
    Evict(Without(q, k), ByteLength(snapshot)) + [Entry(k, snapshot)]
  }

  /** The table after a sync wrote `written`: those entries that still hold what was written are gone. */
  function Settled(q: seq<Entry>, written: seq<Entry>): seq<Entry> {
    if q == [] then [] else (if q[0] in written then [] else [q[0]]) + Settled(q[1..], written)
  }

  // ---------------------------------------------------------------- what the table functions mean

  lemma {:induction false} TotalConcat(p: seq<Entry>, q: seq<Entry>)
    ensures Total(p + q) == Total(p) + Total(q)
    decreases |p|
  {
    if p == [] {
      assert p + q == q;
    } else {
      TotalConcat(p[1..], q);
      assert (p + q)[1..] == p[1..] + q;
    }
  }

  lemma {:induction false} WithoutIs(q: seq<Entry>, k: Key)
    requires DistinctKeys(q)
    ensures DistinctKeys(Without(q, k)) && forall e :: e in Without(q, k) <==> e in q && e.key != k
    decreases |q|
  {
    if q != [] { WithoutIs(q[1..], k); }
  }

  /** Eviction keeps the longest tail that leaves room, so it never drops an entry it could keep. */
  lemma {:induction false} EvictKeepsLongestTail(q: seq<Entry>, incoming: nat)
    ensures exists n :: 0 <= n <= |q| && Evict(q, incoming) == q[n..]
                        && (n == |q| || Total(q[n..]) + incoming <= MAX_PENDING_SHADOW_BYTES)
                        && forall m | 0 <= m < n :: Total(q[m..]) + incoming > MAX_PENDING_SHADOW_BYTES
    decreases |q|
  {
    if q == [] || Total(q) + incoming <= MAX_PENDING_SHADOW_BYTES {
      assert q[0..] == q;
    } else {
      EvictKeepsLongestTail(q[1..], incoming);
      var n :| 0 <= n <= |q[1..]| && Evict(q[1..], incoming) == q[1..][n..]
               && (n == |q[1..]| || Total(q[1..][n..]) + incoming <= MAX_PENDING_SHADOW_BYTES)
               && forall m | 0 <= m < n :: Total(q[1..][m..]) + incoming > MAX_PENDING_SHADOW_BYTES;
      assert q[1..][n..] == q[n + 1..];
      forall m | 0 <= m < n + 1 ensures Total(q[m..]) + incoming > MAX_PENDING_SHADOW_BYTES {
        if m == 0 { assert q[0..] == q; } else { assert q[1..][m - 1..] == q[m..]; }
      }
    }
  }

  /** After every enqueue the total is within the limit or the new snapshot is alone, and it is the newest. */
  lemma QueuedIsBounded(q: seq<Entry>, k: Key, snapshot: string)
    requires DistinctKeys(q)
    ensures var r := Queued(q, k, snapshot);
            && DistinctKeys(r) && r[|r| - 1] == Entry(k, snapshot)
            && (Total(r) <= MAX_PENDING_SHADOW_BYTES || r == [Entry(k, snapshot)])
            && (forall e | e in r && e.key != k :: e in q)
  {
    var left, size := Without(q, k), ByteLength(snapshot);
    WithoutIs(q, k);
    EvictKeepsLongestTail(left, size);
    hide Evict, Without, Total, ByteLength;
    var n :| 0 <= n <= |left| && Evict(left, size) == left[n..] && (n == |left| || Total(left[n..]) + size <= MAX_PENDING_SHADOW_BYTES);
    TailWithNew(left, n, Entry(k, snapshot));
  }

  lemma TailWithNew(left: seq<Entry>, n: nat, e: Entry)
    requires n <= |left| && DistinctKeys(left) && forall x | x in left :: x.key != e.key
    ensures DistinctKeys(left[n..] + [e]) && Total(left[n..] + [e]) == Total(left[n..]) + ByteLength(e.snapshot)
    ensures (left[n..] + [e])[|left| - n] == e && forall x | x in left[n..] + [e] && x.key != e.key :: x in left
  {
    TotalConcat(left[n..], [e]);
    assert forall i | n <= i < |left| :: left[i] in left;
    assert [e][1..] == [];
    hide Total;
  }

  /** A sync removes exactly the snapshots it wrote that nobody has replaced, and keeps the order of the rest. */
  lemma {:induction false} SettledIs(q: seq<Entry>, written: seq<Entry>)
    requires DistinctKeys(q)
    ensures DistinctKeys(Settled(q, written)) && forall e :: e in Settled(q, written) <==> e in q && e !in written
    decreases |q|
  {
    if q != [] {
      SettledIs(q[1..], written);
      var rest := Settled(q[1..], written);
      forall i | 0 <= i < |rest| ensures rest[i].key != q[0].key { assert rest[i] in q[1..]; }
    }
  }

  /** A snapshot queued while the sync was writing an older one of the same job survives the sync. */
  lemma NewerSurvives(q: seq<Entry>, k: Key, newer: string, written: seq<Entry>)
    requires DistinctKeys(q) && DistinctKeys(written) && exists e :: e in written && e.key == k && e.snapshot != newer
    ensures Entry(k, newer) in Settled(Queued(q, k, newer), written)
  {
    QueuedIsBounded(q, k, newer);
    SettledIs(Queued(q, k, newer), written);
    OneEntryPerKey(written, k, newer);
  }

  lemma OneEntryPerKey(q: seq<Entry>, k: Key, other: string)
    requires DistinctKeys(q) && exists e :: e in q && e.key == k && e.snapshot != other
    ensures Entry(k, other) !in q
  {
    var e :| e in q && e.key == k && e.snapshot != other;
    var i :| 0 <= i < |q| && q[i] == e;
    forall j | 0 <= j < |q| ensures q[j] != Entry(k, other) {
      if j != i { assert q[j].key != q[i].key; }
    }
  }

  // ---------------------------------------------------------------- whole runs

  /** The queue, and what the syncs under way have taken to write. */
  datatype Shadow = Shadow(jobs: seq<Entry>, writing: seq<seq<Entry>>)

  datatype Event =
    | Enqueue(enabled: bool, key: Key, snapshot: string)
    | BeginSync
    | EndSync(sync: nat, committed: bool)

  function Next(s: Shadow, e: Event): Shadow {
    match e
    case Enqueue(enabled, k, snapshot) => if enabled then s.(jobs := Queued(s.jobs, k, snapshot)) else s
    case BeginSync => s.(writing := s.writing + [s.jobs])
    case EndSync(n, committed) =>
      if n >= |s.writing| then s
      else Shadow(if committed then Settled(s.jobs, s.writing[n]) else s.jobs, s.writing[..n] + s.writing[n + 1..])
  }

  ghost function Run(s: Shadow, es: seq<Event>): Shadow
    decreases es
  {
    if es == [] then s else Run(Next(s, es[0]), es[1..])
  }

  predicate Bounded(q: seq<Entry>) {
    DistinctKeys(q) && (Total(q) <= MAX_PENDING_SHADOW_BYTES || |q| == 1)
  }

  lemma {:induction false} SettledShrinks(q: seq<Entry>, written: seq<Entry>)
    ensures Total(Settled(q, written)) <= Total(q) && |Settled(q, written)| <= |q|
    decreases |q|
  {
    if q != [] {
      SettledShrinks(q[1..], written);
      var rest := Settled(q[1..], written);
      TotalConcat([q[0]], rest);
      assert [q[0]][1..] == [];
      assert Total([q[0]]) == ByteLength(q[0].snapshot) + Total([]);
      assert Settled(q, written) == rest || Settled(q, written) == [q[0]] + rest;
    }
  }

  /** Over every run of enqueues and overlapping syncs, committed or failed: one snapshot per job, within the limit or alone. */
  lemma {:induction false} QueueStaysBounded(s: Shadow, es: seq<Event>)
    requires Bounded(s.jobs)
    ensures Bounded(Run(s, es).jobs)
    decreases es
  {
    if es != [] {
      match es[0] {
        case Enqueue(enabled, k, snapshot) => QueuedIsBounded(s.jobs, k, snapshot);
        case BeginSync =>
        case EndSync(n, committed) =>
          if n < |s.writing| {
            SettledShrinks(s.jobs, s.writing[n]);
            SettledIs(s.jobs, s.writing[n]);
          }
      }
      QueueStaysBounded(Next(s, es[0]), es[1..]);
    }
  }

  // ---------------------------------------------------------------- the queue as mutable state

  class PendingJobs {
    var jobs: seq<Entry>
    var bytes: nat

    ghost predicate Valid()
      reads this
    {
      DistinctKeys(jobs) && bytes == Total(jobs)
    }

    constructor ()
      ensures Valid() && jobs == []
    {
      jobs, bytes := [], 0;
    }

    /** Take one job's snapshot out, if it has one. */
    method Pop(k: Key)
      requires Valid()
      modifies this
      ensures Valid() && jobs == Without(old(jobs), k)
    {
      var i := 0;
      while i < |jobs| && jobs[i].key != k
        invariant 0 <= i <= |jobs|
        invariant forall j | 0 <= j < i :: jobs[j].key != k
      {
        i := i + 1;
      }
      WithoutIs(jobs, k);
      if i == |jobs| {
        AbsentStays(jobs, k);
        return;
      }
      RemoveAt(jobs, i);
      bytes := bytes - ByteLength(jobs[i].snapshot);
      jobs := jobs[..i] + jobs[i + 1..];
    }

    /** Queue a snapshot, evicting the oldest jobs for room; nothing happens while the shadow is off. */
    method QueueShadowJob(enabled: bool, k: Key, snapshot: string)
      requires Valid()
      modifies this
      ensures Valid() && jobs == if enabled then Queued(old(jobs), k, snapshot) else old(jobs)
      ensures enabled ==> bytes <= MAX_PENDING_SHADOW_BYTES || jobs == [Entry(k, snapshot)]
    {
      if !enabled { return; }
      QueuedIsBounded(jobs, k, snapshot);
      Pop(k);
      WithoutIs(old(jobs), k);
      var incoming := ByteLength(snapshot);
      while jobs != [] && bytes + incoming > MAX_PENDING_SHADOW_BYTES
        invariant Valid() && forall i | 0 <= i < |jobs| :: jobs[i].key != k
        invariant Evict(jobs, incoming) == Evict(Without(old(jobs), k), incoming)
        decreases |jobs|
      {
        bytes := bytes - ByteLength(jobs[0].snapshot);
        jobs := jobs[1..];
      }
      TotalConcat(jobs, [Entry(k, snapshot)]);
      jobs := jobs + [Entry(k, snapshot)];
      bytes := bytes + incoming;
    }

    /** What a sync starts to write. */
    method Take() returns (pending: seq<Entry>)
      requires Valid()
      ensures pending == jobs && DistinctKeys(pending)
    {
      pending := jobs;
    }

    /** The sync committed `pending`: forget what is still exactly that. */
    method Settle(pending: seq<Entry>)
      requires Valid() && DistinctKeys(pending)
      modifies this
      ensures Valid() && jobs == Settled(old(jobs), pending)
    {
      assert pending[..0] == [];
      SettledByNothing(jobs);
      for n := 0 to |pending|
        invariant Valid() && jobs == Settled(old(jobs), pending[..n])
      {
        var i := 0;
        while i < |jobs| && jobs[i].key != pending[n].key
          invariant 0 <= i <= |jobs|
          invariant forall j | 0 <= j < i :: jobs[j].key != pending[n].key
        {
          i := i + 1;
        }
        assert pending[..n + 1] == pending[..n] + [pending[n]];
        SettledStep(old(jobs), pending[..n], pending[n]);
        if i < |jobs| && jobs[i] == pending[n] {
          RemoveAt(jobs, i);
          OnlyEntry(jobs, i);
          bytes := bytes - ByteLength(jobs[i].snapshot);
          jobs := jobs[..i] + jobs[i + 1..];
        } else {
          NotThere(jobs, pending[n]);
        }
      }
      assert pending[..|pending|] == pending;
    }
  }

  lemma {:induction false} AbsentStays(q: seq<Entry>, k: Key)
    requires forall i | 0 <= i < |q| :: q[i].key != k
    ensures Without(q, k) == q
    decreases |q|
  {
    if q != [] { AbsentStays(q[1..], k); }
  }

  lemma RemoveAt(q: seq<Entry>, i: nat)
    requires i < |q| && DistinctKeys(q)
    ensures Without(q, q[i].key) == q[..i] + q[i + 1..] && DistinctKeys(q[..i] + q[i + 1..])
    ensures Total(q[..i] + q[i + 1..]) == Total(q) - ByteLength(q[i].snapshot)
  {
    WithoutAt(q, i);
    TotalWithout(q, i);
    hide Total, Without;
  }

  lemma {:induction false} WithoutAt(q: seq<Entry>, i: nat)
    requires i < |q| && DistinctKeys(q)
    ensures Without(q, q[i].key) == q[..i] + q[i + 1..]
    decreases |q|
  {
    if i == 0 {
      AbsentStays(q[1..], q[0].key);
      assert q[..0] + q[1..] == q[1..];
    } else {
      WithoutAt(q[1..], i - 1);
      assert q[..i] + q[i + 1..] == [q[0]] + (q[1..][..i - 1] + q[1..][i..]);
    }
  }

  lemma TotalWithout(q: seq<Entry>, i: nat)
    requires i < |q|
    ensures Total(q[..i] + q[i + 1..]) == Total(q) - ByteLength(q[i].snapshot)
  {
    assert q == q[..i] + q[i..] && q[i..][1..] == q[i + 1..];
    TotalConcat(q[..i], q[i..]);
    TotalConcat(q[..i], q[i + 1..]);
  }

  lemma {:induction false} SettledByNothing(q: seq<Entry>)
    ensures Settled(q, []) == q
    decreases |q|
  {
    if q != [] { SettledByNothing(q[1..]); }
  }

  /** Settling entry by entry is settling all at once. */
  lemma {:induction false} SettledStep(q: seq<Entry>, written: seq<Entry>, e: Entry)
    ensures Settled(q, written + [e]) == Settled(Settled(q, written), [e])
    decreases |q|
  {
    if q != [] {
      SettledStep(q[1..], written, e);
      var rest := Settled(q[1..], written);
      assert ([q[0]] + rest)[1..] == rest;
      assert q[0] in written + [e] <==> q[0] in written || q[0] == e;
      if q[0] in written {
        assert Settled(q, written) == rest;
      } else {
        assert Settled(q, written) == [q[0]] + rest;
      }
    }
  }

  lemma {:induction false} OnlyEntry(q: seq<Entry>, i: nat)
    requires i < |q| && DistinctKeys(q)
    ensures Settled(q, [q[i]]) == q[..i] + q[i + 1..]
    decreases |q|
  {
    if i == 0 {
      NotThere(q[1..], q[0]);
      assert q[..0] + q[1..] == q[1..];
    } else {
      OnlyEntry(q[1..], i - 1);
      assert q[1..][i - 1] == q[i] && q[0] !in [q[i]];
      assert q[..i] == [q[0]] + q[1..][..i - 1];
      assert q[i + 1..] == q[1..][i..];
      assert q[..i] + q[i + 1..] == [q[0]] + (q[1..][..i - 1] + q[1..][i..]);
    }
  }

  lemma {:induction false} NotThere(q: seq<Entry>, e: Entry)
    requires e !in q
    ensures Settled(q, [e]) == q
    decreases |q|
  {
    if q != [] { NotThere(q[1..], e); }
  }
}

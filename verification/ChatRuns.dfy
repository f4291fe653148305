/**
 The life of one Chat batch's packs: dispatch, the model call, its answer or failure, cancellation,
 lease expiry, a Hub restart, an operator's retry.  `asked` only records what each call asked for.
 */
module ChatRuns {
  import opened Outcomes
  import opened ChatParse
  import opened ChatPacks

  datatype Failure = Failure(transient: bool, capacity: bool)

  /**
   A task whose code has not begun, one waiting for the model's answer, and one waiting in its failure
   handler for siblings to free memory.  A task that begins reaches its call without another await.
   */
  datatype Task = Starting | Waiting(missing: seq<SceneId>) | Handoff(failure: Failure)

  /** The elapsed time in a reply is read after the results were stored. */
  datatype Elapsed = Fine | NotANumber | WrongType

  /** `taken` are the packs whose worker and machine lease have not been given back. */
  datatype Chat = Chat(
    kind: Kind, packs: seq<Pack>, cancelled: bool, lease: Option<Time>,
    tasks: map<nat, Task>, held: Option<nat>, asked: seq<(nat, seq<SceneId>)>, taken: set<nat>)

  datatype Event =
    | Hold(p: nat)
    | Dispatch
    | Begin(p: nat, peerChanged: bool)
    | Respond(p: nat, reply: Reply, evidence: bool, elapsed: Elapsed)
    | Fail(p: nat, failure: Failure)
    | Released(p: nat)
    | Interrupt(p: nat, shuttingDown: bool)
    | CancelBatch
    | Expire
    | Restart
    | Retry

  // ---------------------------------------------------------------- steps

  function Missing(x: Pack): seq<SceneId> {
    MissingIn(x.scenes, x.results)
  }

  function MissingIn(scenes: seq<SceneId>, results: map<SceneId, string>): seq<SceneId> {
    if scenes == [] then [] else (if scenes[0] in results then [] else [scenes[0]]) + MissingIn(scenes[1..], results)
  }

  function Put(c: Chat, p: nat, x: Pack): Chat
    requires p < |c.packs|
  {
    c.(packs := c.packs[p := x])
  }

  /** The `finally` block. */
  function Leave(c: Chat, p: nat, x: Pack): Chat
    requires p < |c.packs|
  {
    c.(packs := c.packs[p := x], tasks := c.tasks - {p}, taken := c.taken - {p})
  }

  predicate LeaseOver(c: Chat, now: Time) {
    c.lease.Some? && c.lease.value <= now
  }

  function FencePack(x: Pack): Pack {
    if x.state.Queued? || x.state.Running? then x.(state := Cancelled) else x
  }

  function FencePacks(packs: seq<Pack>): (r: seq<Pack>)
    ensures |r| == |packs| && forall i | 0 <= i < |packs| :: r[i] == FencePack(packs[i])
  {
    if packs == [] then [] else [FencePack(packs[0])] + FencePacks(packs[1..])
  }

  function Expired(c: Chat, now: Time): Chat {
    if LeaseOver(c, now) then c.(cancelled := true, packs := FencePacks(c.packs)) else c
  }

  /** Retry a transient failure while tries are left, else keep what there is. */
  function AfterFailure(cancelled: bool, x: Pack, transient: bool): Pack {
    if transient && x.tries < MAX_TRIES && !cancelled then x.(state := Queued)
    else x.(state := if x.results != map[] then Partial else Error)
  }

  function FailStep(c: Chat, p: nat, f: Failure): Chat
    requires p < |c.packs|
  {
    if f.capacity then c.(tasks := c.tasks[p := Handoff(f)]) else Leave(c, p, AfterFailure(c.cancelled, c.packs[p], f.transient))
  }

  function BeginStep(c: Chat, p: nat, peerChanged: bool, now: Time): Chat
    requires p < |c.packs|
  {
    if LeaseOver(c, now) then var e := Expired(c, now); Leave(e, p, e.packs[p])
    else if peerChanged then Leave(c, p, c.packs[p].(state := Queued, tries := Back(c.packs[p].tries)))
    else c.(tasks := c.tasks[p := Waiting(Missing(c.packs[p]))], asked := c.asked + [(p, Missing(c.packs[p]))])
  }

  /** Where an answered pack stands once its results are in. */
  function AfterAnswer(cancelled: bool, x: Pack, elapsed: Elapsed): Pack {
    if elapsed.NotANumber? then AfterFailure(cancelled, x, true)
    else if elapsed.WrongType? then AfterFailure(cancelled, x, false)
    else if Missing(x) == [] then x.(state := Done)
    else if x.tries < MAX_TRIES && !cancelled then x.(state := Queued)
    else x.(state := if x.results != map[] then Partial else Error)
  }

  function RespondStep(c: Chat, p: nat, missing: seq<SceneId>, reply: Reply, evidence: bool, elapsed: Elapsed, now: Time): Chat
    requires p < |c.packs|
  {
    if LeaseOver(c, now) then var e := Expired(c, now); Leave(e, p, e.packs[p])
    else if !evidence then Leave(c, p, AfterFailure(c.cancelled, c.packs[p], false))
    else if Strip(reply.text) == "" then Leave(c, p, AfterFailure(c.cancelled, c.packs[p], true))
    else
      var out := Parse(reply, missing, c.kind);
      if out.None? then Leave(c, p, AfterFailure(c.cancelled, c.packs[p], false))
      else Leave(c, p, AfterAnswer(c.cancelled, c.packs[p].(results := c.packs[p].results + out.value), elapsed))
  }

  /**
   A cancelled task: waiting for an answer it is requeued on shutdown, else cancelled.  In its memory wait
   nothing is left to say so; before its first step not even its worker and its lease are given back.
   */
  function InterruptStep(c: Chat, p: nat, shuttingDown: bool): Chat
    requires p < |c.packs| && p in c.tasks
  {
    if c.tasks[p].Starting? then c.(tasks := c.tasks - {p})
    else if c.tasks[p].Handoff? then Leave(c, p, c.packs[p])
    else if shuttingDown && !c.cancelled then Leave(c, p, c.packs[p].(state := Queued))
    else Leave(c, p, c.packs[p].(state := Cancelled))
  }

  function CancelPack(x: Pack): Pack {
    if x.state.Queued? then x.(state := Cancelled) else x
  }

  function RestorePack(x: Pack): Pack {
    if x.state.Running? then x.(state := Queued) else x
  }

  function RetryPack(x: Pack): Pack {
    if x.state.Partial? || x.state.Error? then x.(state := Queued, tries := 0) else x
  }

  function Each(packs: seq<Pack>, how: Pack -> Pack): (r: seq<Pack>)
    ensures |r| == |packs| && forall i | 0 <= i < |packs| :: r[i] == how(packs[i])
  {
    if packs == [] then [] else [how(packs[0])] + Each(packs[1..], how)
  }

  predicate AnyRetryable(packs: seq<Pack>) {
    exists i | 0 <= i < |packs| :: packs[i].state.Partial? || packs[i].state.Error?
  }

  predicate OnTask(e: Event) {
    e.Begin? || e.Respond? || e.Fail? || e.Released? || e.Interrupt?
  }

  function TaskStep(c: Chat, e: Event, now: Time): Chat
    requires OnTask(e) && e.p < |c.packs| && e.p in c.tasks
  {
    var t := c.tasks[e.p];
    match e
    case Begin(p, peerChanged) => if t.Starting? then BeginStep(c, p, peerChanged, now) else c
    case Respond(p, reply, evidence, elapsed) => if t.Waiting? then RespondStep(c, p, t.missing, reply, evidence, elapsed, now) else c
    case Fail(p, f) => if t.Waiting? then FailStep(c, p, f) else c
    case Released(p) =>
      if t.Handoff? then var x := c.packs[p].(tries := Back(c.packs[p].tries)); Leave(c, p, AfterFailure(c.cancelled, x, t.failure.transient)) else c
    case Interrupt(p, shuttingDown) => InterruptStep(c, p, shuttingDown)
  }

  function Next(c: Chat, e: Event, now: Time): Chat {
    match e
    case Hold(p) => if p < |c.packs| && c.packs[p].state.Queued? then c.(held := Some(p)) else c.(held := None)
    case Dispatch =>
      if c.held.None? || c.held.value >= |c.packs| then c
      else
        var x := c.packs[c.held.value];
        c.(packs := c.packs[c.held.value := x.(state := Running, tries := x.tries + 1)], tasks := c.tasks[c.held.value := Starting], held := None,
            taken := c.taken + {c.held.value})
    case CancelBatch => c.(cancelled := true, packs := Each(c.packs, CancelPack))
    case Expire => Expired(c, now)
    case Restart =>
      var e := Expired(c, now);
      if LeaseOver(c, now) then e.(tasks := map[], held := None, taken := {})
      else c.(packs := Each(c.packs, RestorePack), tasks := map[], held := None, taken := {})
    case Retry => if AnyRetryable(c.packs) then c.(packs := Each(c.packs, RetryPack), cancelled := false) else c
    case _ => if e.p < |c.packs| && e.p in c.tasks then TaskStep(c, e, now) else c
  }

  ghost function Run(c: Chat, es: seq<(Event, Time)>): Chat
    decreases es
  {
    if es == [] then c else Run(Next(c, es[0].0, es[0].1), es[1..])
  }

  // ---------------------------------------------------------------- invariant

  lemma {:induction false} MissingIs(scenes: seq<SceneId>, results: map<SceneId, string>)
    ensures forall k :: k in MissingIn(scenes, results) <==> k in scenes && k !in results
    decreases |scenes|
  {
    if scenes != [] { MissingIs(scenes[1..], results); }
  }

  /** Own scenes only, no blank text, done only when complete. */
  ghost predicate PackOk(x: Pack) {
    && OwnTexts(x.results, x.scenes)
    && (x.state.Done? ==> forall k | k in x.scenes :: k in x.results)
    && (x.state.Partial? ==> x.results != map[])
    && (x.state.Error? ==> x.results == map[])
  }

  /** A waiting task asked for exactly what is still missing; a queued pack has no task. */
  ghost predicate TaskOk(c: Chat, p: nat)
    requires p in c.tasks
  {
    && p < |c.packs| && (c.packs[p].state.Running? || c.packs[p].state.Cancelled?)
    && (c.tasks[p].Waiting? ==> c.tasks[p].missing == Missing(c.packs[p]))
  }

  ghost predicate Inv(c: Chat) {
    && (forall p | 0 <= p < |c.packs| :: PackOk(c.packs[p]))
    && (forall p {:trigger TaskOk(c, p)} | p in c.tasks :: TaskOk(c, p))
    && (c.held.Some? ==> c.held.value < |c.packs| && c.held.value !in c.tasks)
    && c.tasks.Keys <= c.taken
    && Disjoint(c.packs)
  }

  /** What no step ever does to a pack: lose or change a text, or change its scenes. */
  predicate Grows(x: Pack, x': Pack) {
    x'.scenes == x.scenes && (forall k | k in x.results :: k in x'.results && x'.results[k] == x.results[k])
  }

  ghost predicate AllGrow(c: Chat, c': Chat) {
    |c'.packs| == |c.packs| && forall p | 0 <= p < |c.packs| :: Grows(c.packs[p], c'.packs[p])
  }

  /** One pack leaves its task as `x`, the others are as `g` has them. */
  lemma LeaveKeepsInv(c: Chat, p: nat, x: Pack)
    requires Inv(c) && p < |c.packs| && p in c.tasks && PackOk(x) && Grows(c.packs[p], x)
    ensures Inv(Leave(c, p, x)) && AllGrow(c, Leave(c, p, x))
  {
    var c' := Leave(c, p, x);
    forall q | q in c'.tasks ensures TaskOk(c', q) { assert TaskOk(c, q); }
  }

  /** Changing states, never texts, of packs as `how` says. */
  lemma EachKeepsInv(c: Chat, c': Chat)
    requires Inv(c) && |c'.packs| == |c.packs| && c' == c.(packs := c'.packs, cancelled := c'.cancelled)
    requires forall p | 0 <= p < |c.packs| ::
               && c'.packs[p] == c.packs[p].(state := c'.packs[p].state, tries := c'.packs[p].tries)
               && (c'.packs[p].state == c.packs[p].state || c'.packs[p].state.Cancelled? || c'.packs[p].state.Queued?)
               && (c'.packs[p].state.Queued? && !c.packs[p].state.Queued? ==> !c.packs[p].state.Running? && !c.packs[p].state.Cancelled?)
    ensures Inv(c') && AllGrow(c, c')
  {
    forall q | q in c'.tasks ensures TaskOk(c', q) { assert TaskOk(c, q); }
  }

  lemma ExpiryKeepsInv(c: Chat, now: Time)
    requires Inv(c)
    ensures Inv(Expired(c, now)) && AllGrow(c, Expired(c, now)) && Expired(c, now).tasks == c.tasks
  {
    if LeaseOver(c, now) { EachKeepsInv(c, Expired(c, now)); }
  }

  lemma FailureIsOk(cancelled: bool, x: Pack, transient: bool)
    requires OwnTexts(x.results, x.scenes)
    ensures PackOk(AfterFailure(cancelled, x, transient)) && Grows(x, AfterFailure(cancelled, x, transient))
  {
  }

  /** An answer adds texts for missing scenes only, so nothing is overwritten; it makes the pack done exactly when nothing is missing and its elapsed time can be read. */
  lemma AnswerIsOk(c: Chat, p: nat, reply: Reply, elapsed: Elapsed)
    requires Inv(c) && p < |c.packs| && Parse(reply, Missing(c.packs[p]), c.kind).Some?
    ensures var x := c.packs[p].(results := c.packs[p].results + Parse(reply, Missing(c.packs[p]), c.kind).value);
            && PackOk(AfterAnswer(c.cancelled, x, elapsed)) && Grows(c.packs[p], AfterAnswer(c.cancelled, x, elapsed))
            && (AfterAnswer(c.cancelled, x, elapsed).state.Done? <==> elapsed.Fine? && forall k | k in x.scenes :: k in x.results)
  {
    var m := Missing(c.packs[p]);
    var out := Parse(reply, m, c.kind).value;
    assert PackOk(c.packs[p]);
    ParseIsOwn(reply, m, c.kind);
    MergeIsOwn(c.packs[p], out);
    var x := c.packs[p].(results := c.packs[p].results + out);
    AnsweredIsOk(c.cancelled, x, elapsed);
    hide Missing, Parse, OwnTexts, AfterAnswer, PackOk;
  }

  /** The answered pack's end, once its results are merged. */
  lemma AnsweredIsOk(cancelled: bool, x: Pack, elapsed: Elapsed)
    requires OwnTexts(x.results, x.scenes)
    ensures PackOk(AfterAnswer(cancelled, x, elapsed))
    ensures AfterAnswer(cancelled, x, elapsed) == x.(state := AfterAnswer(cancelled, x, elapsed).state)
    ensures AfterAnswer(cancelled, x, elapsed).state.Done? <==> elapsed.Fine? && forall k | k in x.scenes :: k in x.results
  {
    NothingMissing(x);
    hide Missing, OwnTexts;
  }

  lemma NothingMissing(x: Pack)
    ensures Missing(x) == [] <==> forall k | k in x.scenes :: k in x.results
    ensures Missing(x) == [] && x.scenes != [] ==> x.results != map[]
  {
    MissingIs(x.scenes, x.results);
    if Missing(x) != [] { assert Missing(x)[0] in Missing(x); }
    if x.scenes != [] { assert x.scenes[0] in x.scenes; }
  }

  lemma MergeIsOwn(x: Pack, out: map<SceneId, string>)
    requires OwnTexts(x.results, x.scenes) && OwnTexts(out, Missing(x))
    ensures OwnTexts(x.results + out, x.scenes) && Grows(x, x.(results := x.results + out))
  {
    MissingIs(x.scenes, x.results);
  }

  lemma BeginKeepsInv(c: Chat, p: nat, peerChanged: bool, now: Time)
    requires Inv(c) && p < |c.packs| && p in c.tasks
    ensures Inv(BeginStep(c, p, peerChanged, now)) && AllGrow(c, BeginStep(c, p, peerChanged, now))
  {
    var c' := BeginStep(c, p, peerChanged, now);
    if LeaseOver(c, now) {
      ExpiryKeepsInv(c, now);
      var e := Expired(c, now);
      LeaveKeepsInv(e, p, e.packs[p]);
    } else if peerChanged {
      LeaveKeepsInv(c, p, c.packs[p].(state := Queued, tries := Back(c.packs[p].tries)));
    } else {
      forall q | q in c'.tasks ensures TaskOk(c', q) { assert TaskOk(c, q); }
    }
  }

  lemma RespondKeepsInv(c: Chat, p: nat, reply: Reply, evidence: bool, elapsed: Elapsed, now: Time)
    requires Inv(c) && p < |c.packs| && p in c.tasks && c.tasks[p].Waiting?
    ensures var c' := RespondStep(c, p, c.tasks[p].missing, reply, evidence, elapsed, now); Inv(c') && AllGrow(c, c')
  {
    assert TaskOk(c, p);
    hide Parse, Strip;
    if LeaseOver(c, now) {
      ExpiryKeepsInv(c, now);
      var e := Expired(c, now);
      LeaveKeepsInv(e, p, e.packs[p]);
    } else {
      var m := Missing(c.packs[p]);
      FailureIsOk(c.cancelled, c.packs[p], false);
      FailureIsOk(c.cancelled, c.packs[p], true);
      LeaveKeepsInv(c, p, AfterFailure(c.cancelled, c.packs[p], false));
      LeaveKeepsInv(c, p, AfterFailure(c.cancelled, c.packs[p], true));
      if evidence && Strip(reply.text) != "" && Parse(reply, m, c.kind).Some? {
        AnswerIsOk(c, p, reply, elapsed);
        var x := c.packs[p].(results := c.packs[p].results + Parse(reply, m, c.kind).value);
        LeaveKeepsInv(c, p, AfterAnswer(c.cancelled, x, elapsed));
      }
    }
  }

  lemma TaskStepKeepsInv(c: Chat, e: Event, now: Time)
    requires Inv(c) && OnTask(e) && e.p < |c.packs| && e.p in c.tasks
    ensures Inv(TaskStep(c, e, now)) && AllGrow(c, TaskStep(c, e, now))
  {
    assert TaskOk(c, e.p);
    var x := c.packs[e.p];
    hide Missing, RespondStep, BeginStep, Leave, AfterFailure;
    match e
    case Begin(p, peerChanged) => BeginKeepsInv(c, p, peerChanged, now);
    case Respond(p, reply, evidence, elapsed) => if c.tasks[p].Waiting? { RespondKeepsInv(c, p, reply, evidence, elapsed, now); }
    case Fail(p, f) =>
      FailureIsOk(c.cancelled, x, f.transient);
      LeaveKeepsInv(c, p, AfterFailure(c.cancelled, x, f.transient));
      HandoffKeepsInv(c, p, f);
    case Released(p) =>
      var y := x.(tries := Back(x.tries));
      if c.tasks[p].Handoff? {
        FailureIsOk(c.cancelled, y, c.tasks[p].failure.transient);
        LeaveKeepsInv(c, p, AfterFailure(c.cancelled, y, c.tasks[p].failure.transient));
      }
    case Interrupt(p, shuttingDown) =>
      LeaveKeepsInv(c, p, x);
      LeaveKeepsInv(c, p, x.(state := Queued));
      LeaveKeepsInv(c, p, x.(state := Cancelled));
      NeverBegunKeepsInv(c, p);
  }

  lemma NeverBegunKeepsInv(c: Chat, p: nat)
    requires Inv(c)
    ensures var c' := c.(tasks := c.tasks - {p}); Inv(c') && AllGrow(c, c')
  {
    var c' := c.(tasks := c.tasks - {p});
    forall q | q in c'.tasks ensures TaskOk(c', q) { assert TaskOk(c, q); }
  }

  lemma HandoffKeepsInv(c: Chat, p: nat, f: Failure)
    requires Inv(c) && p < |c.packs| && p in c.tasks
    ensures var c' := c.(tasks := c.tasks[p := Handoff(f)]); Inv(c') && AllGrow(c, c')
  {
    var c' := c.(tasks := c.tasks[p := Handoff(f)]);
    forall q | q in c'.tasks ensures TaskOk(c', q) { assert TaskOk(c, q); }
  }

  lemma RestartKeepsInv(c: Chat, now: Time)
    requires Inv(c)
    ensures Inv(Next(c, Restart, now)) && AllGrow(c, Next(c, Restart, now))
  {
    if LeaseOver(c, now) {
      ExpiryKeepsInv(c, now);
      hide Expired;
    } else {
      RestoreKeepsInv(c);
      hide Inv, AllGrow;
    }
  }

  lemma RestoreKeepsInv(c: Chat)
    requires Inv(c)
    ensures var c' := c.(packs := Each(c.packs, RestorePack), tasks := map[], held := None, taken := {}); Inv(c') && AllGrow(c, c')
  {
    hide Each, OwnTexts;
  }

  lemma DispatchKeepsInv(c: Chat, now: Time)
    requires Inv(c)
    ensures Inv(Next(c, Dispatch, now)) && AllGrow(c, Next(c, Dispatch, now))
  {
    var c' := Next(c, Dispatch, now);
    forall q | q in c'.tasks ensures TaskOk(c', q) { if q in c.tasks { assert TaskOk(c, q); } }
  }

  lemma HoldKeepsInv(c: Chat, p: nat, now: Time)
    requires Inv(c)
    ensures Inv(Next(c, Hold(p), now)) && AllGrow(c, Next(c, Hold(p), now))
  {
    var c' := Next(c, Hold(p), now);
    if p in c.tasks { assert TaskOk(c, p); }
    forall q | q in c'.tasks ensures TaskOk(c', q) { assert TaskOk(c, q); }
  }

  lemma NextKeepsInv(c: Chat, e: Event, now: Time)
    requires Inv(c)
    ensures Inv(Next(c, e, now)) && AllGrow(c, Next(c, e, now))
  {
    hide Inv, TaskStep;
    match e
    case Hold(p) => HoldKeepsInv(c, p, now);
    case Dispatch => DispatchKeepsInv(c, now);
    case CancelBatch => EachKeepsInv(c, Next(c, e, now));
    case Expire => ExpiryKeepsInv(c, now);
    case Restart => RestartKeepsInv(c, now);
    case Retry => if AnyRetryable(c.packs) { EachKeepsInv(c, Next(c, e, now)); }
    case _ => if e.p < |c.packs| && e.p in c.tasks { TaskStepKeepsInv(c, e, now); }
  }

  // ---------------------------------------------------------------- whole runs

  lemma AllGrowTransitive(a: Chat, b: Chat, c: Chat)
    requires AllGrow(a, b) && AllGrow(b, c)
    ensures AllGrow(a, c)
  {
    forall p | 0 <= p < |a.packs| ensures Grows(a.packs[p], c.packs[p]) {
      assert Grows(a.packs[p], b.packs[p]) && Grows(b.packs[p], c.packs[p]);
    }
  }

  /**
   Through dispatches, answers, failures, cancellations, expiries, restarts and operator retries, in any
   order: no stored text is ever lost or changed, every text belongs to its pack and is not blank, packs
   stay disjoint, and a pack is done only with a text for every scene.
   */
  lemma {:induction false} ResultsAreMonotone(c: Chat, es: seq<(Event, Time)>)
    requires Inv(c)
    ensures Inv(Run(c, es)) && AllGrow(c, Run(c, es))
    decreases es
  {
    if es != [] {
      var c' := Next(c, es[0].0, es[0].1);
      NextKeepsInv(c, es[0].0, es[0].1);
      ResultsAreMonotone(c', es[1..]);
      AllGrowTransitive(c, c', Run(c, es));
    }
  }

  /** A batch as `create_batch` leaves it. */
  lemma CreatedIsInv(raws: seq<RawPack>, kind: Kind, packs: seq<Pack>, lease: Option<Time>)
    requires |packs| == |raws| && Disjoint(packs) && forall p | 0 <= p < |raws| :: Made(raws[p], packs[p])
    ensures Inv(Chat(kind, packs, false, lease, map[], None, [], {}))
  {
    forall p | 0 <= p < |packs| ensures PackOk(packs[p]) { assert Made(raws[p], packs[p]); }
  }

  /** Whatever was asked is on record, and a call asks for exactly the scenes that have no text yet. */
  lemma AsksOnlyForMissing(c: Chat, e: Event, now: Time)
    requires Inv(c)
    ensures Next(c, e, now).asked == c.asked
            || (e.Begin? && e.p < |c.packs| && Next(c, e, now).asked == c.asked + [(e.p, Missing(c.packs[e.p]))]
                && forall k :: k in Missing(c.packs[e.p]) <==> k in c.packs[e.p].scenes && k !in c.packs[e.p].results)
  {
    if e.Begin? && e.p < |c.packs| { MissingIs(c.packs[e.p].scenes, c.packs[e.p].results); }
    hide Missing, Parse, Strip;
  }

  /** While a call is out, what it asked for is still exactly what is missing, whatever else happens. */
  lemma AskedStaysMissing(c: Chat, es: seq<(Event, Time)>, p: nat)
    requires Inv(c) && p in Run(c, es).tasks && Run(c, es).tasks[p].Waiting?
    ensures p < |Run(c, es).packs| && Run(c, es).tasks[p].missing == Missing(Run(c, es).packs[p])
  {
    ResultsAreMonotone(c, es);
    assert TaskOk(Run(c, es), p);
  }

  /** A good answer ends the pack as done exactly when it completes it. */
  lemma GoodAnswerIsDoneIff(c: Chat, p: nat, reply: Reply, now: Time)
    requires Inv(c) && p < |c.packs| && p in c.tasks && c.tasks[p].Waiting? && !LeaseOver(c, now) && Strip(reply.text) != ""
    requires Parse(reply, c.tasks[p].missing, c.kind).Some?
    ensures var x' := Next(c, Respond(p, reply, true, Fine), now).packs[p];
            x'.state.Done? <==> forall k | k in c.packs[p].scenes :: k in c.packs[p].results || k in Parse(reply, c.tasks[p].missing, c.kind).value
  {
    assert TaskOk(c, p);
    AnswerIsOk(c, p, reply, Fine);
    hide Parse, Strip, Missing, AfterAnswer;
  }

  /** A good answer whose elapsed time is not a number, or not of a numeric type, completes its pack without making it done. */
  lemma UnreadableElapsedIsNotDone(c: Chat, p: nat, reply: Reply, elapsed: Elapsed, now: Time)
    requires Inv(c) && p < |c.packs| && p in c.tasks && c.tasks[p].Waiting? && !LeaseOver(c, now) && Strip(reply.text) != ""
    requires Parse(reply, c.tasks[p].missing, c.kind).Some? && c.packs[p].scenes != []
    requires forall k | k in c.packs[p].scenes :: k in c.packs[p].results || k in Parse(reply, c.tasks[p].missing, c.kind).value
    ensures var x' := Next(c, Respond(p, reply, true, elapsed), now).packs[p];
            && (forall k | k in x'.scenes :: k in x'.results)
            && (elapsed.NotANumber? && c.packs[p].tries < MAX_TRIES && !c.cancelled ==> x'.state.Queued?)
            && (elapsed.NotANumber? && !(c.packs[p].tries < MAX_TRIES && !c.cancelled) ==> x'.state.Partial?)
            && (elapsed.WrongType? ==> x'.state.Partial?)
  {
    assert TaskOk(c, p);
    var x := c.packs[p];
    assert x.scenes[0] in x.scenes;
    hide Parse, Strip, Missing;
  }

  // ---------------------------------------------------------------- running packs have a task

  predicate Attended(c: Chat, p: nat) {
    p < |c.packs| && c.packs[p].state.Running? ==> p in c.tasks
  }

  /** A task cancelled before its first step or in its memory wait, while its pack runs. */
  predicate Strands(c: Chat, e: Event, p: nat) {
    && e.Interrupt? && e.p == p && p < |c.packs| && p in c.tasks && c.packs[p].state.Running?
    && (c.tasks[p].Starting? || c.tasks[p].Handoff?)
  }

  lemma RespondAttends(c: Chat, p: nat, reply: Reply, evidence: bool, elapsed: Elapsed, now: Time, q: nat)
    requires p < |c.packs| && p in c.tasks && q < |c.packs| && Attended(c, q) && c.tasks[p].Waiting?
    ensures Attended(RespondStep(c, p, c.tasks[p].missing, reply, evidence, elapsed, now), q)
  {
    hide Parse, Strip, Missing;
  }

  lemma BeginAttends(c: Chat, p: nat, peerChanged: bool, now: Time, q: nat)
    requires p < |c.packs| && p in c.tasks && q < |c.packs| && Attended(c, q)
    ensures Attended(BeginStep(c, p, peerChanged, now), q)
  {
    hide Missing;
  }

  lemma TaskAttends(c: Chat, e: Event, now: Time, p: nat)
    requires OnTask(e) && e.p < |c.packs| && e.p in c.tasks && p < |c.packs| && Attended(c, p)
    ensures |TaskStep(c, e, now).packs| == |c.packs|
    ensures !Attended(TaskStep(c, e, now), p) <==> Strands(c, e, p)
  {
    hide Missing, RespondStep, BeginStep;
    if e.Respond? {
      if c.tasks[e.p].Waiting? {
        RespondAttends(c, e.p, e.reply, e.evidence, e.elapsed, now, p);
        RespondKeepsLength(c, e.p, c.tasks[e.p].missing, e.reply, e.evidence, e.elapsed, now);
      }
    } else if e.Begin? {
      BeginAttends(c, e.p, e.peerChanged, now, p);
      BeginKeepsLength(c, e.p, e.peerChanged, now);
    }
  }

  lemma RespondKeepsLength(c: Chat, p: nat, missing: seq<SceneId>, reply: Reply, evidence: bool, elapsed: Elapsed, now: Time)
    requires p < |c.packs|
    ensures |RespondStep(c, p, missing, reply, evidence, elapsed, now).packs| == |c.packs|
  {
    hide Parse, Strip, AfterAnswer, AfterFailure;
  }

  lemma BeginKeepsLength(c: Chat, p: nat, peerChanged: bool, now: Time)
    requires p < |c.packs|
    ensures |BeginStep(c, p, peerChanged, now).packs| == |c.packs|
  {
    hide Missing;
  }

  lemma QuietAttends(c: Chat, e: Event, now: Time, p: nat)
    requires !OnTask(e) && p < |c.packs| && Attended(c, p)
    ensures |Next(c, e, now).packs| == |c.packs| && Attended(Next(c, e, now), p)
  {
  }

  /** A pack that has a task, or does not run, is left running with nobody working on it by exactly that. */
  lemma StrandsIff(c: Chat, e: Event, now: Time, p: nat)
    requires p < |c.packs| && Attended(c, p)
    ensures |Next(c, e, now).packs| == |c.packs|
    ensures !Attended(Next(c, e, now), p) <==> Strands(c, e, p)
  {
    hide TaskStep, Attended;
    if !OnTask(e) { hide Next; QuietAttends(c, e, now, p); }
    else if e.p < |c.packs| && e.p in c.tasks { TaskAttends(c, e, now, p); }
  }

  ghost predicate NeverStrands(c: Chat, es: seq<(Event, Time)>, p: nat)
    decreases es
  {
    es == [] || (!Strands(c, es[0].0, p) && NeverStrands(Next(c, es[0].0, es[0].1), es[1..], p))
  }

  /** Over every run in which no task of the pack is cancelled at those two moments, a running pack has a task. */
  lemma {:induction false} RunningHasTask(c: Chat, es: seq<(Event, Time)>, p: nat)
    requires p < |c.packs| && Attended(c, p) && NeverStrands(c, es, p)
    ensures Attended(Run(c, es), p)
    decreases es
  {
    if es != [] {
      StrandsIff(c, es[0].0, es[0].1, p);
      RunningHasTask(Next(c, es[0].0, es[0].1), es[1..], p);
    }
  }

  /** A task's step gives back only what its own pack has taken, and changes other packs only by fencing them. */
  lemma TaskLeavesOthers(c: Chat, e: Event, now: Time, p: nat)
    requires OnTask(e) && e.p < |c.packs| && e.p in c.tasks && e.p != p && p < |c.packs|
    ensures var c' := TaskStep(c, e, now);
            && p < |c'.packs| && (p in c'.tasks <==> p in c.tasks) && (p in c'.taken <==> p in c.taken) && c'.held == c.held
            && (c'.packs[p].state == c.packs[p].state || LeaseOver(c, now))
  {
    hide Missing, Parse, Strip, AfterAnswer, AfterFailure;
  }

  lemma OwnTaskLeaks(c: Chat, e: Event, now: Time)
    requires OnTask(e) && e.p < |c.packs| && e.p in c.tasks && e.p in c.taken
    ensures var c' := TaskStep(c, e, now);
            e.p in c'.taken && e.p !in c'.tasks <==> e.Interrupt? && c.tasks[e.p].Starting?
  {
    hide Missing, Parse, Strip, AfterAnswer, AfterFailure;
  }

  /** Only a task that was cancelled before its first step keeps its worker and its lease. */
  lemma LeaksIff(c: Chat, e: Event, now: Time, p: nat)
    requires Inv(c) && p < |c.packs| && (p in c.taken ==> p in c.tasks)
    ensures var c' := Next(c, e, now);
            p in c'.taken && p !in c'.tasks <==> e.Interrupt? && e.p == p && p in c.tasks && c.tasks[p].Starting?
  {
    hide TaskStep, Each;
    if OnTask(e) && e.p < |c.packs| && e.p in c.tasks {
      if e.p == p { OwnTaskLeaks(c, e, now); } else { TaskLeavesOthers(c, e, now, p); }
    }
  }

  /** A stranded pack stays as it is until a restart or the end of its lease; what it had taken stays taken until a restart. */
  lemma StrandedStays(c: Chat, e: Event, now: Time, p: nat)
    requires p < |c.packs| && c.packs[p].state.Running? && p !in c.tasks && c.held != Some(p)
    ensures var c' := Next(c, e, now);
            && p < |c'.packs| && p !in c'.tasks && c'.held != Some(p)
            && (c'.packs[p].state == c.packs[p].state || e.Restart? || LeaseOver(c, now))
            && (!e.Restart? ==> (p in c'.taken <==> p in c.taken))
  {
    hide TaskStep;
    if OnTask(e) && e.p < |c.packs| && e.p in c.tasks { TaskLeavesOthers(c, e, now, p); }
  }

  // ---------------------------------------------------------------- one batch as mutable state

  /** The loop over a batch's packs: which go back on the queue, and how many did. */
  method Requeue(packs: seq<Pack>) returns (again: seq<Pack>, retried: nat)
    ensures again == Each(packs, RetryPack)
    ensures retried == 0 <==> !AnyRetryable(packs)
  {
    again, retried := packs, 0;
    for n := 0 to |packs|
      invariant |again| == |packs|
      invariant forall i | 0 <= i < n :: again[i] == RetryPack(packs[i])
      invariant forall i | n <= i < |packs| :: again[i] == packs[i]
      invariant retried == 0 <==> forall i | 0 <= i < n :: !packs[i].state.Partial? && !packs[i].state.Error?
    {
      if packs[n].state.Partial? || packs[n].state.Error? {
        again := again[n := packs[n].(state := Queued, tries := 0)];
        retried := retried + 1;
      }
    }
  }

  /** An operator's retry, spelled out. */
  lemma RetryIs(c: Chat)
    ensures Next(c, Retry, 0.0) == if AnyRetryable(c.packs) then c.(packs := Each(c.packs, RetryPack), cancelled := false) else c
  {
  }

  class ChatBatch {
    const kind: Kind
    var packs: seq<Pack>
    var cancelled: bool
    var lease: Option<Time>
    var tasks: map<nat, Task>
    var held: Option<nat>
    ghost var asked: seq<(nat, seq<SceneId>)>
    var taken: set<nat>

    ghost function View(): Chat
      reads this
    {
      Chat(kind, packs, cancelled, lease, tasks, held, asked, taken)
    }

    /** A batch made of freshly accepted packs. */
    constructor (k: Kind, created: seq<Pack>, until: Option<Time>)
      ensures View() == Chat(k, created, false, until, map[], None, [], {})
    {
      kind, packs, cancelled, lease, tasks, held, asked, taken := k, created, false, until, map[], None, [], {};
    }

    /** Fence queued and running packs once the lease is over. */
    method ExpireLease(now: Time) returns (over: bool)
      requires Inv(View())
      modifies this`packs, this`cancelled
      ensures View() == Expired(old(View()), now) && over == LeaseOver(old(View()), now)
      ensures Inv(View()) && AllGrow(old(View()), View())
    {
      ExpiryKeepsInv(View(), now);
      hide Inv, AllGrow;
      over := lease.Some? && lease.value <= now;
      if !over { return; }
      cancelled := true;
      var n := 0;
      while n < |packs|
        invariant 0 <= n <= |packs| && |packs| == |old(packs)| && cancelled
        invariant forall i | 0 <= i < n :: packs[i] == FencePack(old(packs)[i])
        invariant forall i | n <= i < |packs| :: packs[i] == old(packs)[i]
      {
        if packs[n].state.Queued? || packs[n].state.Running? { packs := packs[n := packs[n].(state := Cancelled)]; }
        n := n + 1;
      }
      assert packs == FencePacks(old(packs));
    }

    /** Put failed and partial packs back on the queue; their texts stay. */
    method RetryBatch() returns (retried: nat)
      requires Inv(View())
      modifies this`packs, this`cancelled
      ensures View() == Next(old(View()), Retry, 0.0) && Inv(View()) && AllGrow(old(View()), View())
      ensures retried == 0 <==> !AnyRetryable(old(packs))
    {
      NextKeepsInv(View(), Retry, 0.0);
      RetryIs(View());
      hide Inv, AllGrow, AnyRetryable, RetryPack, Next;
      var again, n := Requeue(packs);
      retried := n;
      if retried > 0 {
        packs := again;
        cancelled := false;
      }
    }

    /** Take a model's answer into the pack that asked for it. */
    method TakeAnswer(p: nat, reply: Reply, evidence: bool, elapsed: Elapsed, now: Time)
      requires Inv(View()) && p < |packs| && p in tasks && tasks[p].Waiting?
      modifies this`packs, this`cancelled, this`tasks, this`taken
      ensures View() == Next(old(View()), Respond(p, reply, evidence, elapsed), now)
      ensures Inv(View()) && AllGrow(old(View()), View())
    {
      NextKeepsInv(View(), Respond(p, reply, evidence, elapsed), now);
      hide Inv, AllGrow, Parse, Strip, Missing;
      var over := lease.Some? && lease.value <= now;
      var x := packs[p];
      if over {
        over := ExpireLease(now);
        x := packs[p];
      } else if !evidence {
        x := AfterFailure(cancelled, x, false);
      } else if Strip(reply.text) == "" {
        x := AfterFailure(cancelled, x, true);
      } else {
        var out := ParseSceneResults(reply, tasks[p].missing, kind);
        if out.None? {
          x := AfterFailure(cancelled, x, false);
        } else {
          x := AfterAnswer(cancelled, x.(results := x.results + out.value), elapsed);
        }
      }
      packs := packs[p := x];
      tasks := tasks - {p};
      taken := taken - {p};
    }
  }
}

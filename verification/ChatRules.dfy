/** The rules of a Chat batch in its own columns: what is accepted, which row of an answer counts, and every move of a pack. */
module ChatRules {
  import opened Outcomes
  import opened ChatParse
  import opened ChatPacks
  import opened ChatRuns

  // ---------------------------------------------------------------- acceptance

  predicate PlainChar(c: char) {
    'a' <= c <= 'z' || 'A' <= c <= 'Z' || '0' <= c <= '9'
  }

  /** A scene id as cleaned: 1 to 160 characters, the first a letter or digit, the others from a short list. */
  predicate IsSceneId(id: string) {
    && 1 <= |id| <= 160 && PlainChar(id[0])
    && forall i | 0 <= i < |id| :: PlainChar(id[i]) || id[i] in {'.', '_', ' ', ':', '+', '-'}
  }

  lemma IdentifierIff(raw: string, id: string)
    ensures Identifier(raw) == Some(id) <==> id == Strip(raw) && IsSceneId(id)
  {
    hide Strip;
  }

  /** Every pack is well formed and names 1 to 10 scenes, one for a completion. */
  ghost predicate WellNamed(raws: seq<RawPack>, kind: Kind) {
    forall p | 0 <= p < |raws| ::
      && raws[p].wellFormed && 1 <= |raws[p].scenes| <= 10 && (kind == Completion ==> |raws[p].scenes| == 1)
      && forall i | 0 <= i < |raws[p].scenes| :: IsSceneId(Strip(raws[p].scenes[i]))
  }

  /** No scene is named twice, within a pack or across two. */
  ghost predicate Apart(raws: seq<RawPack>) {
    forall p, q, i, j | 0 <= p < |raws| && 0 <= q < |raws| && 0 <= i < |raws[p].scenes| && 0 <= j < |raws[q].scenes| ::
      Strip(raws[p].scenes[i]) == Strip(raws[q].scenes[j]) ==> p == q && i == j
  }

  /** A batch is accepted exactly with 1 to 500 packs, every scene well named and named once. */
  lemma AcceptableIff(raws: seq<RawPack>, kind: Kind)
    ensures Acceptable(raws, kind) <==> 1 <= |raws| <= 500 && WellNamed(raws, kind) && Apart(raws)
  {
    if Acceptable(raws, kind) { AcceptableIsApart(raws, kind); }
    if 1 <= |raws| <= 500 && WellNamed(raws, kind) && Apart(raws) { ApartIsAcceptable(raws, kind); }
  }

  lemma AcceptableIsApart(raws: seq<RawPack>, kind: Kind)
    requires Acceptable(raws, kind)
    ensures WellNamed(raws, kind) && Apart(raws)
  {
    forall p, i | 0 <= p < |raws| && 0 <= i < |raws[p].scenes|
      ensures Identifier(raws[p].scenes[i]) == Some(Strip(raws[p].scenes[i])) && IsSceneId(Strip(raws[p].scenes[i]))
    {
      assert PackAcceptable(raws[p], kind);
      IdentifierIff(raws[p].scenes[i], Identifier(raws[p].scenes[i]).value);
    }
    hide Identifier, Strip, IsSceneId;
    forall p, q, i, j | 0 <= p < |raws| && 0 <= q < |raws| && 0 <= i < |raws[p].scenes| && 0 <= j < |raws[q].scenes|
      ensures Strip(raws[p].scenes[i]) == Strip(raws[q].scenes[j]) ==> p == q && i == j
    {
      NamedOnce(raws, kind, p, q, i, j);
    }
  }

  lemma NamedOnce(raws: seq<RawPack>, kind: Kind, p: nat, q: nat, i: nat, j: nat)
    requires Acceptable(raws, kind) && p < |raws| && q < |raws| && i < |raws[p].scenes| && j < |raws[q].scenes|
    ensures p != q || i != j ==> Identifier(raws[p].scenes[i]) != Identifier(raws[q].scenes[j])
  {
    hide Identifier;
    assert PackAcceptable(raws[p], kind);
    if p < q {
      assert !Overlap(raws[p], raws[q]);
    } else if q < p {
      assert !Overlap(raws[q], raws[p]);
    }
  }

  lemma ApartIsAcceptable(raws: seq<RawPack>, kind: Kind)
    requires 1 <= |raws| <= 500 && WellNamed(raws, kind) && Apart(raws)
    ensures Acceptable(raws, kind)
  {
    forall p, i | 0 <= p < |raws| && 0 <= i < |raws[p].scenes| ensures Identifier(raws[p].scenes[i]) == Some(Strip(raws[p].scenes[i])) {
      IdentifierIff(raws[p].scenes[i], Strip(raws[p].scenes[i]));
    }
    hide Identifier, Strip, IsSceneId;
  }

  // ---------------------------------------------------------------- an answer

  /** The row names the scene: by `scene_id` when that says anything, else by `id`. */
  predicate IsAbout(fields: map<string, Json>, id: string) {
    if "scene_id" in fields && Truthy(fields["scene_id"]) then fields["scene_id"] == Str(id)
    else "id" in fields && fields["id"] == Str(id)
  }

  /** The text a row offers: of its prompt for this kind, `prompt` and `text`, the first that is a text at all. */
  predicate Offers(fields: map<string, Json>, kind: Kind, text: string) {
    var lead := if kind == Motion then "motion_prompt" else "visual_prompt";
    if lead in fields && fields[lead].Str? then text == Strip(fields[lead].text)
    else if "prompt" in fields && fields["prompt"].Str? then text == Strip(fields["prompt"].text)
    else "text" in fields && fields["text"].Str? && text == Strip(fields["text"].text)
  }

  /** A row gives a scene a text exactly when it names one that was asked for and offers text that is not blank. */
  lemma RowGivesIff(row: Json, expected: seq<string>, kind: Kind, id: string, text: string)
    ensures RowPair(row, expected, kind) == Some(Some((id, text))) <==>
            row.Obj? && id in expected && IsAbout(row.fields, id) && Offers(row.fields, kind, text) && text != ""
  {
    hide Strip;
    if row.Obj? {
      var keys := TextKeys(kind);
      assert keys[1..] == ["prompt", "text"] && keys[1..][1..] == ["text"] && keys[1..][1..][1..] == [];
      FirstTextOfThree(row.fields, keys);
    }
  }

  lemma FirstTextOfThree(fields: map<string, Json>, keys: seq<string>)
    requires |keys| == 3
    ensures FirstText(fields, keys) ==
            if keys[0] in fields && fields[keys[0]].Str? then Some(fields[keys[0]].text)
            else if keys[1] in fields && fields[keys[1]].Str? then Some(fields[keys[1]].text)
            else if keys[2] in fields && fields[keys[2]].Str? then Some(fields[keys[2]].text)
            else None
  {
    var two, one := keys[1..], keys[1..][1..];
    assert two[0] == keys[1] && one[0] == keys[2] && one[1..] == [];
    assert FirstText(fields, one) == if one[0] in fields && fields[one[0]].Str? then Some(fields[one[0]].text) else FirstText(fields, one[1..]);
    assert FirstText(fields, two) == if two[0] in fields && fields[two[0]].Str? then Some(fields[two[0]].text) else FirstText(fields, one);
  }

  /** An object answer, bare or under `results` or `prompts`, gives exactly the asked scenes it holds a text for. */
  lemma ObjectAnswerIs(reply: Reply, expected: seq<string>, kind: Kind, inner: map<string, Json>, id: string)
    requires kind != Completion && reply.decoded.Some? && reply.decoded.value.Obj?
    requires var fields := reply.decoded.value.fields;
             Obj(inner) == if "results" in fields then fields["results"] else if "prompts" in fields then fields["prompts"] else Obj(fields)
    ensures Parse(reply, expected, kind).Some?
    ensures id in Parse(reply, expected, kind).value <==> id in expected && id in inner && inner[id].Str? && Strip(inner[id].text) != ""
    ensures id in Parse(reply, expected, kind).value ==> Parse(reply, expected, kind).value[id] == Strip(inner[id].text)
  {
    hide Strip;
  }

  /** A text that is no JSON answers a single scene whole; of several, only the objects in it that name a scene are read. */
  lemma PlainAnswerIs(reply: Reply, expected: seq<string>, kind: Kind)
    requires kind != Completion && reply.decoded.None?
    ensures |expected| == 1 && Strip(reply.text) != "" ==> Parse(reply, expected, kind) == Some(map[expected[0] := Strip(reply.text)])
    ensures |expected| != 1 ==> Parse(reply, expected, kind) == FromRows(Salvaged(reply.objects), expected, kind)
  {
    hide Strip, FromRows, Salvaged;
  }

  // ---------------------------------------------------------------- every move of a pack

  predicate Own(c: Chat, e: Event, p: nat) {
    OnTask(e) && e.p == p && p < |c.packs| && p in c.tasks
  }

  predicate Over(c: Chat, now: Time) {
    c.lease.Some? && c.lease.value <= now
  }

  /** The step looks at the lease: a sweep, a restart, a task that begins, or an answer that arrives. */
  predicate LooksAtLease(c: Chat, e: Event) {
    e == Expire || e == Restart
    || (OnTask(e) && Own(c, e, e.p) && ((e.Begin? && c.tasks[e.p].Starting?) || (e.Respond? && c.tasks[e.p].Waiting?)))
  }

  /** An answer arrives in time at the task that waits for it. */
  predicate Answered(c: Chat, e: Event, now: Time, p: nat) {
    Own(c, e, p) && e.Respond? && c.tasks[p].Waiting? && !Over(c, now)
  }

  /** The texts a usable answer brings. */
  function Brings(c: Chat, e: Event, p: nat): Option<map<SceneId, string>>
    requires Own(c, e, p) && e.Respond? && c.tasks[p].Waiting?
  {
    if e.evidence && Strip(e.reply.text) != "" then Parse(e.reply, c.tasks[p].missing, c.kind) else None
  }

  /** The pack's texts after the step. */
  function TextsAfter(c: Chat, e: Event, now: Time, p: nat): map<SceneId, string>
    requires p < |c.packs|
  {
    if Answered(c, e, now, p) && Brings(c, e, p).Some? then c.packs[p].results + Brings(c, e, p).value else c.packs[p].results
  }

  predicate CompletesPack(c: Chat, e: Event, now: Time, p: nat)
    requires p < |c.packs|
  {
    Answered(c, e, now, p) && Brings(c, e, p).Some? && e.elapsed == Fine && forall k | k in c.packs[p].scenes :: k in TextsAfter(c, e, now, p)
  }

  /** The call came to nothing, or not to everything; nothing else waits on it. */
  predicate FallsShort(c: Chat, e: Event, now: Time, p: nat)
    requires p < |c.packs|
  {
    || (Own(c, e, p) && e.Fail? && c.tasks[p].Waiting? && !e.failure.capacity)
    || (Own(c, e, p) && e.Released? && c.tasks[p].Handoff?)
    || (Answered(c, e, now, p) && !CompletesPack(c, e, now, p))
  }

  /** What fell short may be asked for again: not an answer that cannot be trusted or read, tries left, nobody cancelled. */
  predicate MayAskAgain(c: Chat, e: Event, p: nat)
    requires p < |c.packs| && Own(c, e, p)
  {
    && !c.cancelled
    && (if e.Released? then c.packs[p].tries <= 3 else c.packs[p].tries < 3)
    && (match e
        case Fail(_, f) => f.transient
        case Released(_) => c.tasks[p].Handoff? && c.tasks[p].failure.transient
        case Respond(_, reply, evidence, elapsed) =>
          evidence && (Strip(reply.text) == ""
                       || (elapsed != WrongType && c.tasks[p].Waiting? && Parse(reply, c.tasks[p].missing, c.kind).Some?))
        case _ => false)
  }

  ghost predicate MovedTo(c: Chat, e: Event, now: Time, p: nat, to: PackState)
    requires p < |c.packs|
  {
    var x := c.packs[p];
    match to
    case Running => e == Dispatch && c.held == Some(p)
    case Done => CompletesPack(c, e, now, p)
    case Partial => FallsShort(c, e, now, p) && !MayAskAgain(c, e, p) && TextsAfter(c, e, now, p) != map[]
    case Error => FallsShort(c, e, now, p) && !MayAskAgain(c, e, p) && TextsAfter(c, e, now, p) == map[]
    case Queued =>
      || (FallsShort(c, e, now, p) && MayAskAgain(c, e, p))
      || (Own(c, e, p) && e.Begin? && c.tasks[p].Starting? && e.peerChanged && !Over(c, now))
      || (Own(c, e, p) && e.Interrupt? && c.tasks[p].Waiting? && e.shuttingDown && !c.cancelled)
      || (e == Restart && !Over(c, now) && x.state == PackState.Running)
      || (e == Retry && (x.state == PackState.Partial || x.state == PackState.Error))
    case Cancelled =>
      || (LooksAtLease(c, e) && Over(c, now) && (x.state == PackState.Queued || x.state == PackState.Running))
      || (Own(c, e, p) && e.Interrupt? && c.tasks[p].Waiting? && (!e.shuttingDown || c.cancelled))
      || (e == CancelBatch && x.state == PackState.Queued)
  }

  /** A pack comes into each state by exactly these steps. */
  lemma MovesIff(c: Chat, e: Event, now: Time, p: nat, to: PackState)
    requires Inv(c) && p < |c.packs| && c.packs[p].state != to
    ensures p < |Next(c, e, now).packs|
    ensures Next(c, e, now).packs[p].state == to <==> MovedTo(c, e, now, p, to)
  {
    hide Strip, Parse, Missing;
    if OnTask(e) {
      if e.p < |c.packs| && e.p in c.tasks {
        assert TaskOk(c, e.p);
        TaskMoves(c, e, now, p, to);
      }
    } else {
      OtherMoves(c, e, now, p, to);
    }
  }

  lemma OtherMoves(c: Chat, e: Event, now: Time, p: nat, to: PackState)
    requires !OnTask(e) && p < |c.packs| && c.packs[p].state != to
    ensures p < |Next(c, e, now).packs|
    ensures Next(c, e, now).packs[p].state == to <==> MovedTo(c, e, now, p, to)
  {
    hide Strip, Parse, Missing;
  }

  lemma TaskMoves(c: Chat, e: Event, now: Time, p: nat, to: PackState)
    requires OnTask(e) && e.p < |c.packs| && e.p in c.tasks && TaskOk(c, e.p) && p < |c.packs| && c.packs[p].state != to
    ensures p < |TaskStep(c, e, now).packs|
    ensures TaskStep(c, e, now).packs[p].state == to <==> MovedTo(c, e, now, p, to)
  {
    hide Strip, Parse, Missing, TaskStep, MovedTo;
    if e.p != p { NeighbourMoves(c, e, now, p, to); }
    else if e.Respond? { RespondMoves(c, e, now, to); }
    else { OwnMoves(c, e, now, to); }
  }

  lemma NeighbourMoves(c: Chat, e: Event, now: Time, p: nat, to: PackState)
    requires OnTask(e) && e.p < |c.packs| && e.p in c.tasks && p < |c.packs| && e.p != p && c.packs[p].state != to
    ensures p < |TaskStep(c, e, now).packs|
    ensures TaskStep(c, e, now).packs[p].state == to <==> MovedTo(c, e, now, p, to)
  {
    hide Strip, Parse, Missing, AfterAnswer, AfterFailure;
  }

  lemma OwnMoves(c: Chat, e: Event, now: Time, to: PackState)
    requires OnTask(e) && !e.Respond? && e.p < |c.packs| && e.p in c.tasks && TaskOk(c, e.p) && c.packs[e.p].state != to
    ensures e.p < |TaskStep(c, e, now).packs|
    ensures TaskStep(c, e, now).packs[e.p].state == to <==> MovedTo(c, e, now, e.p, to)
  {
    hide Strip, Parse, Missing, AfterAnswer;
  }

  lemma RespondMoves(c: Chat, e: Event, now: Time, to: PackState)
    requires e.Respond? && e.p < |c.packs| && e.p in c.tasks && TaskOk(c, e.p) && c.packs[e.p].state != to
    ensures e.p < |TaskStep(c, e, now).packs|
    ensures TaskStep(c, e, now).packs[e.p].state == to <==> MovedTo(c, e, now, e.p, to)
  {
    if !c.tasks[e.p].Waiting? || Over(c, now) { FencedRespondMoves(c, e, now, to); }
    else if Brings(c, e, e.p).None? { UselessRespondMoves(c, e, now, to); }
    else { UsefulRespondMoves(c, e, now, to); }
    hide *;
  }

  lemma FencedRespondMoves(c: Chat, e: Event, now: Time, to: PackState)
    requires e.Respond? && e.p < |c.packs| && e.p in c.tasks && TaskOk(c, e.p) && c.packs[e.p].state != to
    requires !c.tasks[e.p].Waiting? || Over(c, now)
    ensures e.p < |TaskStep(c, e, now).packs|
    ensures TaskStep(c, e, now).packs[e.p].state == to <==> MovedTo(c, e, now, e.p, to)
  {
    hide Strip, Parse, Missing, AfterAnswer, AfterFailure;
  }

  lemma UselessRespondMoves(c: Chat, e: Event, now: Time, to: PackState)
    requires e.Respond? && e.p < |c.packs| && e.p in c.tasks && c.packs[e.p].state != to
    requires c.tasks[e.p].Waiting? && !Over(c, now) && Brings(c, e, e.p).None?
    ensures e.p < |TaskStep(c, e, now).packs|
    ensures TaskStep(c, e, now).packs[e.p].state == to <==> MovedTo(c, e, now, e.p, to)
  {
    hide Strip, Parse, Missing, AfterAnswer;
  }

  lemma UsefulRespondMoves(c: Chat, e: Event, now: Time, to: PackState)
    requires e.Respond? && e.p < |c.packs| && e.p in c.tasks && c.packs[e.p].state != to
    requires c.tasks[e.p].Waiting? && !Over(c, now) && Brings(c, e, e.p).Some?
    ensures e.p < |TaskStep(c, e, now).packs|
    ensures TaskStep(c, e, now).packs[e.p].state == to <==> MovedTo(c, e, now, e.p, to)
  {
    AnswerState(c.cancelled, c.packs[e.p].(results := TextsAfter(c, e, now, e.p)), e.elapsed);
    hide Strip, Parse, Missing, AfterFailure, AfterAnswer;
  }

  /** Where an answered pack stands: done if complete and readable, asked again if that may help, else kept as it is. */
  lemma AnswerState(cancelled: bool, x: Pack, elapsed: Elapsed)
    ensures AfterAnswer(cancelled, x, elapsed).state ==
            if elapsed == Fine && (forall k | k in x.scenes :: k in x.results) then PackState.Done
            else if elapsed != WrongType && x.tries < 3 && !cancelled then PackState.Queued
            else if x.results == map[] then PackState.Error else PackState.Partial
  {
    NothingMissing(x);
    hide Missing;
  }

  // ---------------------------------------------------------------- tries and texts

  /** A start counts one try, a peer that changed and a memory wait give it back, and a retry forgets them all. */
  lemma TriesAre(c: Chat, e: Event, now: Time, p: nat)
    requires p < |c.packs|
    ensures var x, c' := c.packs[p], Next(c, e, now);
            && p < |c'.packs|
            && c'.packs[p].tries ==
               if e == Dispatch && c.held == Some(p) then x.tries + 1
               else if (Own(c, e, p) && e.Begin? && c.tasks[p].Starting? && e.peerChanged && !Over(c, now)) || (Own(c, e, p) && e.Released? && c.tasks[p].Handoff?)
               then (if x.tries == 0 then 0 else x.tries - 1)
               else if e == Retry && (x.state == PackState.Partial || x.state == PackState.Error) then 0
               else x.tries
  {
    hide Strip, Parse, Missing, TaskStep;
    if OnTask(e) && e.p < |c.packs| && e.p in c.tasks { TaskTries(c, e, now, p); }
  }

  lemma TaskTries(c: Chat, e: Event, now: Time, p: nat)
    requires OnTask(e) && e.p < |c.packs| && e.p in c.tasks && p < |c.packs|
    ensures var x, c' := c.packs[p], TaskStep(c, e, now);
            && p < |c'.packs|
            && c'.packs[p].tries ==
               if (Own(c, e, p) && e.Begin? && c.tasks[p].Starting? && e.peerChanged && !Over(c, now)) || (Own(c, e, p) && e.Released? && c.tasks[p].Handoff?)
               then (if x.tries == 0 then 0 else x.tries - 1)
               else x.tries
  {
    hide Strip, Parse, Missing;
  }

  /** A pack's texts change only by a usable answer in time, and then by exactly what the answer brings. */
  lemma TextsAre(c: Chat, e: Event, now: Time, p: nat)
    requires p < |c.packs|
    ensures p < |Next(c, e, now).packs| && Next(c, e, now).packs[p].results == TextsAfter(c, e, now, p)
  {
    hide Strip, Parse, Missing, TaskStep;
    if OnTask(e) && e.p < |c.packs| && e.p in c.tasks { TaskTexts(c, e, now, p); }
  }

  lemma TaskTexts(c: Chat, e: Event, now: Time, p: nat)
    requires OnTask(e) && e.p < |c.packs| && e.p in c.tasks && p < |c.packs|
    ensures p < |TaskStep(c, e, now).packs| && TaskStep(c, e, now).packs[p].results == TextsAfter(c, e, now, p)
  {
    hide Strip, Parse, Missing;
  }
}

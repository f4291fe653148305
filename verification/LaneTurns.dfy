/**
 The turn token two queues share on one Mac: after a lane dispatches there, or is turned away for
 memory, the other lane goes first as long as it has something to dispatch.  Each lane checks the token
 and then dispatches, with other steps in between; the machine lease decides who really gets it.
 */
module LaneTurns {
  import opened Outcomes

  type Machine = string

  datatype Lane = Chat | Transcription

  function Other(l: Lane): Lane {
    if l.Chat? then Transcription else Chat
  }

  /** A lane between its check and its dispatch remembers only whether it saw work waiting in the other lane. */
  datatype Check = Idle | Passed(otherHadWork: bool)

  datatype Turn = Turn(token: Option<Lane>, chat: Check, transcription: Check)

  datatype Event =
    | Try(lane: Lane, otherHasWork: bool)
    | Blocked(lane: Lane)
    | Dispatched(lane: Lane)
    | GivesUp(lane: Lane)

  function At(t: Turn, l: Lane): Check {
    if l.Chat? then t.chat else t.transcription
  }

  function Set(t: Turn, l: Lane, c: Check): Turn {
    if l.Chat? then t.(chat := c) else t.(transcription := c)
  }

  predicate Allowed(token: Option<Lane>, l: Lane, otherHasWork: bool) {
    !otherHasWork || token.None? || token == Some(l)
  }

  /** Events of a lane that is not between check and dispatch do nothing. */
  predicate Happens(t: Turn, e: Event) {
    e.Try? || At(t, e.lane).Passed?
  }

  function Next(t: Turn, e: Event): Turn {
    if !Happens(t, e) then t else
    match e
    case Try(l, otherHasWork) => Set(t, l, if Allowed(t.token, l, otherHasWork) then Passed(otherHasWork) else Idle)
    case Blocked(l) => Set(t, l, Idle).(token := Some(Other(l)))
    case Dispatched(l) => Set(t, l, Idle).(token := Some(Other(l)))
    case GivesUp(l) => Set(t, l, Idle)
  }

  ghost function Run(t: Turn, es: seq<Event>): Turn
    decreases es
  {
    if es == [] then t else Next(Run(t, es[..|es| - 1]), es[|es| - 1])
  }

  const START := Turn(None, Idle, Idle)

  /** Event `i` of the run took effect and was a dispatch by `l`. */
  ghost predicate DispatchAt(es: seq<Event>, i: nat, l: Lane) {
    i < |es| && es[i] == Dispatched(l) && Happens(Run(START, es[..i]), es[i])
  }

  /** Event `i` gave the other lane its turn back: `l` dispatched or was blocked for memory. */
  ghost predicate TurnTakenAt(es: seq<Event>, i: nat, l: Lane) {
    i < |es| && (es[i] == Dispatched(l) || es[i] == Blocked(l)) && Happens(Run(START, es[..i]), es[i])
  }

  /** After `l` dispatched at `i` and until the other lane takes its turn, the token is the other lane's. */
  lemma {:induction false} TokenWaits(es: seq<Event>, i: nat, l: Lane)
    requires DispatchAt(es, i, l) && forall k | i < k < |es| :: !TurnTakenAt(es, k, Other(l))
    ensures Run(START, es).token == Some(Other(l))
    ensures At(Run(START, es), l) != Passed(true)
    decreases |es|
  {
    var init := es[..|es| - 1];
    if i < |es| - 1 {
      assert init[..i] == es[..i];
      forall k | i < k < |init| ensures !TurnTakenAt(init, k, Other(l)) {
        assert !TurnTakenAt(es, k, Other(l));
        assert init[..k] == es[..k];
      }
      TokenWaits(init, i, l);
      assert !TurnTakenAt(es, |es| - 1, Other(l));
    }
  }

  /**
   Bounded bypass: a lane that dispatches a second time, although it saw work in the other lane when it
   checked, has let that lane dispatch there, or be turned away for memory, in between.
   */
  lemma NoLaneGoesTwice(es: seq<Event>, i: nat, j: nat, l: Lane)
    requires i < j && DispatchAt(es, i, l) && DispatchAt(es, j, l)
    requires At(Run(START, es[..j]), l) == Passed(true)
    ensures exists k | i < k < j :: TurnTakenAt(es, k, Other(l))
  {
    if forall k | i < k < j :: !TurnTakenAt(es, k, Other(l)) {
      var before := es[..j];
      assert before[..i] == es[..i];
      forall k | i < k < |before| ensures !TurnTakenAt(before, k, Other(l)) {
        assert !TurnTakenAt(es, k, Other(l));
        assert before[..k] == es[..k];
      }
      TokenWaits(before, i, l);
      assert false;
    }
  }

  /** A lane whose neighbour has nothing to dispatch is never refused, whatever the token says. */
  lemma LoneLaneIsNeverRefused(es: seq<Event>, l: Lane)
    ensures At(Run(START, es + [Try(l, false)]), l) == Passed(false)
  {
    assert (es + [Try(l, false)])[..|es|] == es;
  }

  // ---------------------------------------------------------------- the tokens as mutable state

  class LaneTokens {
    var turns: map<Machine, Lane>

    function TokenOf(m: Machine): Option<Lane>
      reads this
    {
      if m in turns then Some(turns[m]) else None
    }

    constructor ()
      ensures turns == map[]
    {
      turns := map[];
    }

    method DispatchAllowed(m: Machine, l: Lane, otherHasWork: bool) returns (ok: bool)
      ensures ok == Allowed(TokenOf(m), l, otherHasWork)
    {
      if !otherHasWork { return true; }
      ok := m !in turns || turns[m] == l;
    }

    method NoteDispatch(m: Machine, l: Lane)
      modifies this
      ensures TokenOf(m) == Some(Other(l)) && forall o | o != m :: TokenOf(o) == old(TokenOf(o))
    {
      turns := turns[m := Other(l)];
    }

    method NoteMemoryBlock(m: Machine, l: Lane)
      modifies this
      ensures TokenOf(m) == Some(Other(l)) && forall o | o != m :: TokenOf(o) == old(TokenOf(o))
    {
      turns := turns[m := Other(l)];
    }
  }
}

/**
 The managed updater as a crash-and-resume machine over git HEAD, the worktree and one durable record.
 A step ends at a durable write; a crash between two steps leaves the disk as the last step left it.
 Commits, stops, installs, restarts and health checks succeed or fail as the events say.
 */
module Updater {
  import opened Outcomes

  type Commit = string

  datatype Request = Request(target: Commit, version: string, op: string)

  datatype Phase = Prepared | Stopping | Stopped | Merged | Verified | Restarting

  datatype RunMode = Service | Pinokio | NotRunning

  /** The durable record of the operation under way. */
  datatype Active = Active(req: Request, phase: Phase, mode: Option<RunMode>, started: Option<Commit>, rollback: Option<Commit>)

  /** How an operation ended; a failure says whether a rollback was made, failed, or not tried. */
  datatype Result = Succeeded | Failed(rolledBack: Option<bool>)

  datatype Entry = Entry(last: Active, result: Result)

  /** `dirty` says the worktree does not match HEAD. */
  datatype Disk = Disk(head: Commit, dirty: bool, active: Option<Active>, history: seq<Entry>)

  /** Where `update` is; `base` is the commit it would go back to. */
  datatype Pc =
    | Idle
    | Admitted
    | Checked(base: Commit, available: bool)
    | Resumed(base: Commit)
    | AtStop(base: Commit)
    | AtMerge(base: Commit)
    | AtSave(base: Commit)
    | AtConverge(base: Commit)
    | AtRestart(base: Commit)
    | AtAttest(base: Commit)
    | RollingBack(base: Commit)
    | TreeReset(base: Commit)
    | RolledBack(base: Commit)

  /** What the repository held when an operation ended. */
  datatype End = End(last: Active, result: Result, head: Commit)

  datatype Sys = Sys(disk: Disk, pc: Pc, ended: seq<End>)

  datatype Event =
    | Trigger(req: Request)
    | Start(req: Request, mode: RunMode)
    | Defer
    | Preflight
    | Stop
    | StopDone
    | Merge(torn: bool)
    | SaveMerged
    | Converge
    | Restart
    | Attest
    | Raise
    | ResetTree
    | MoveRef
    | RollbackDone(ok: bool)
    | Crash
    | UserEdits(dirty: bool)

  // ---------------------------------------------------------------- steps

  predicate Bound(history: seq<Entry>, op: string) {
    exists i | 0 <= i < |history| :: history[i].last.req.op == op
  }

  /** Admit a new operation unless its id is spent or another one is active. */
  function TriggerStep(d: Disk, req: Request): Disk {
    if Bound(d.history, req.op) || d.active.Some? then d
    else d.(active := Some(Active(req, Prepared, None, None, None)))
  }

  /** Resume the active record of the same request; anything else is overwritten. */
  function Admission(d: Disk, req: Request, mode: RunMode): Active {
    if d.active.Some? && d.active.value.req == req
    then d.active.value.(mode := if d.active.value.mode.Some? then d.active.value.mode else Some(mode))
    else Active(req, Prepared, Some(mode), None, None)
  }

  function InPhase(d: Disk, p: Phase): Disk
    requires d.active.Some?
  {
    d.(active := Some(d.active.value.(phase := p)))
  }

  function Others(history: seq<Entry>, op: string): seq<Entry> {
    if history == [] then []
    else (if history[0].last.req.op == op then [] else [history[0]]) + Others(history[1..], op)
  }

  /** The terminal write: the record moves to the history. */
  function Complete(s: Sys, result: Result): Sys
    requires s.disk.active.Some?
  {
    var a := s.disk.active.value;
    Sys(s.disk.(active := None, history := Others(s.disk.history, a.req.op) + [Entry(a, result)]), Idle,
        s.ended + [End(a, result, s.disk.head)])
  }

  predicate Resumable(p: Phase) {
    p.Stopping? || p.Stopped? || p.Merged?
  }

  function PreflightStep(s: Sys): Sys
    requires s.disk.active.Some?
  {
    var d, a := s.disk, s.disk.active.value;
    var available := d.head != a.req.target;
    var base := if a.rollback.Some? then a.rollback.value else d.head;
    var a' := a.(started := if a.started.Some? then a.started else Some(d.head),
                 rollback := if a.rollback.None? && available then Some(d.head) else a.rollback);
    s.(disk := d.(active := Some(a')), pc := Checked(base, available))
  }

  /** An exception: undo the merge if there is one to undo, else end as failed. */
  function RaiseStep(s: Sys): Sys
    requires s.disk.active.Some? && !s.pc.Idle?
  {
    if s.pc.Admitted? then Complete(s, Failed(None))
    else if s.pc.RollingBack? || s.pc.TreeReset? || s.pc.RolledBack? then Complete(s, Failed(Some(false)))
    else if s.pc.base != s.disk.active.value.req.target then s.(pc := RollingBack(s.pc.base))
    else Complete(s, Failed(None))
  }

  function WorkStep(s: Sys, e: Event): Sys
    requires s.disk.active.Some? && !s.pc.Idle?
  {
    var d, a, pc := s.disk, s.disk.active.value, s.pc;
    match e
    case Defer => if pc.Admitted? then s.(pc := Idle) else s
    case Preflight => if pc.Admitted? && !d.dirty then PreflightStep(s) else s
    case Converge =>
      if pc.Checked? && !pc.available then
        if Resumable(a.phase) then s.(disk := InPhase(d, Verified), pc := Resumed(pc.base)) else s.(pc := Resumed(pc.base))
      else if pc.AtConverge? then s.(disk := InPhase(d, Verified), pc := AtRestart(pc.base))
      else s
    case Restart =>
      if pc.Resumed? then
        if (a.phase.Verified? || a.phase.Restarting?) && a.mode != Some(NotRunning)
        then s.(disk := InPhase(d, Restarting), pc := AtAttest(pc.base)) else s.(pc := AtAttest(pc.base))
      else if pc.AtRestart? then s.(disk := InPhase(d, Restarting), pc := AtAttest(pc.base))
      else s
    case Stop => if pc.Checked? && pc.available then s.(disk := InPhase(d, Stopping), pc := AtStop(pc.base)) else s
    case StopDone => if pc.AtStop? then s.(disk := InPhase(d, Stopped), pc := AtMerge(pc.base)) else s
    case Merge(torn) =>
      if !pc.AtMerge? || d.dirty then s
      else if torn then s.(disk := d.(dirty := true), pc := Idle)
      else s.(disk := d.(head := a.req.target), pc := AtSave(pc.base))
    case SaveMerged => if pc.AtSave? then s.(disk := InPhase(d, Merged), pc := AtConverge(pc.base)) else s
    case Attest => if pc.AtAttest? then Complete(s, Succeeded) else s
    case Raise => RaiseStep(s)
    case ResetTree => if pc.RollingBack? && d.head == a.req.target && !d.dirty then s.(disk := d.(dirty := true), pc := TreeReset(pc.base)) else s
    case MoveRef => if pc.TreeReset? then s.(disk := d.(head := pc.base, dirty := false), pc := RolledBack(pc.base)) else s
    case RollbackDone(ok) => if pc.RolledBack? then Complete(s, Failed(Some(ok))) else s
    case _ => s
  }

  function Next(s: Sys, e: Event): Sys {
    match e
    case Trigger(req) => s.(disk := TriggerStep(s.disk, req))
    case Start(req, mode) =>
      if s.pc.Idle? then s.(disk := s.disk.(active := Some(Admission(s.disk, req, mode))), pc := Admitted) else s
    case Crash => s.(pc := Idle)
    case UserEdits(dirty) => s.(disk := s.disk.(dirty := dirty))
    case _ => if s.pc.Idle? || s.disk.active.None? then s else WorkStep(s, e)
  }

  ghost function Run(s: Sys, es: seq<Event>): Sys
    decreases es
  {
    if es == [] then s else Run(Next(s, es[0]), es[1..])
  }

  // ---------------------------------------------------------------- invariant

  /** HEAD is the commit to go back to or the one asked for; work only starts with that first commit stored. */
  predicate ActiveOk(d: Disk, a: Active) {
    && (a.rollback.Some? ==> a.rollback.value != a.req.target && (d.head == a.rollback.value || d.head == a.req.target))
    && (!a.phase.Prepared? ==> a.rollback.Some?)
  }

  predicate PcOk(d: Disk, pc: Pc) {
    !pc.Idle? ==>
      d.active.Some? && (!pc.Admitted? ==>
        var a := d.active.value;
        && (if a.rollback.Some? then pc.base == a.rollback.value else pc.base == d.head == a.req.target)
        && (match pc
            case Checked(base, available) => available <==> d.head != a.req.target
            case AtStop(base) => d.head == base && a.rollback.Some?
            case AtMerge(base) => d.head == base && a.rollback.Some?
            case AtSave(base) => d.head == a.req.target && a.rollback.Some?
            case AtConverge(base) => d.head == a.req.target && a.rollback.Some?
            case AtRestart(base) => d.head == a.req.target && a.rollback.Some?
            case RollingBack(base) => a.rollback.Some?
            case TreeReset(base) => d.head == a.req.target && a.rollback.Some?
            case RolledBack(base) => d.head == base && a.rollback.Some?
            case _ => d.head == a.req.target))
  }

  predicate EndOk(e: End) {
    && (e.result.Succeeded? ==> e.head == e.last.req.target)
    && (e.result == Failed(Some(true)) ==> e.last.rollback == Some(e.head))
    && (e.last.rollback.Some? ==> e.head == e.last.rollback.value || e.head == e.last.req.target)
  }

  ghost predicate Inv(s: Sys) {
    && (s.disk.active.Some? ==> ActiveOk(s.disk, s.disk.active.value))
    && PcOk(s.disk, s.pc)
    && (forall i | 0 <= i < |s.ended| :: EndOk(s.ended[i]))
    && (forall i, j | 0 <= i < j < |s.disk.history| :: s.disk.history[i].last.req.op != s.disk.history[j].last.req.op)
  }

  lemma {:induction false} OthersKeepsOrder(history: seq<Entry>, op: string)
    requires forall i, j | 0 <= i < j < |history| :: history[i].last.req.op != history[j].last.req.op
    ensures var o := Others(history, op);
            && (forall i | 0 <= i < |o| :: o[i] in history && o[i].last.req.op != op)
            && (forall i, j | 0 <= i < j < |o| :: o[i].last.req.op != o[j].last.req.op)
            && (forall i | 0 <= i < |history| && history[i].last.req.op != op :: history[i] in o)
    decreases history
  {
    if history != [] {
      OthersKeepsOrder(history[1..], op);
      forall e | e in Others(history[1..], op) ensures e.last.req.op != history[0].last.req.op {
        var i :| 0 <= i < |history[1..]| && history[1..][i] == e;
      }
    }
  }

  lemma CompleteKeepsInv(s: Sys, result: Result)
    requires Inv(s) && s.disk.active.Some?
    requires EndOk(End(s.disk.active.value, result, s.disk.head))
    ensures Inv(Complete(s, result))
  {
    OthersKeepsOrder(s.disk.history, s.disk.active.value.req.op);
  }

  lemma WorkKeepsInv(s: Sys, e: Event)
    requires Inv(s) && s.disk.active.Some? && !s.pc.Idle?
    ensures Inv(WorkStep(s, e))
  {
    hide Complete;
    match e
    case Attest => if s.pc.AtAttest? { CompleteKeepsInv(s, Succeeded); }
    case RollbackDone(ok) => if s.pc.RolledBack? { CompleteKeepsInv(s, Failed(Some(ok))); }
    case Raise =>
      CompleteKeepsInv(s, Failed(None));
      CompleteKeepsInv(s, Failed(Some(false)));
    case Preflight => if s.pc.Admitted? && !s.disk.dirty { assert PcOk(PreflightStep(s).disk, PreflightStep(s).pc); }
    case Defer =>
    case Stop =>
    case StopDone =>
    case Merge(_) =>
    case SaveMerged =>
    case Converge =>
    case Restart =>
    case ResetTree =>
    case MoveRef =>
    case _ =>
  }

  lemma NextKeepsInv(s: Sys, e: Event)
    requires Inv(s)
    ensures Inv(Next(s, e))
  {
    hide WorkStep;
    if !s.pc.Idle? && s.disk.active.Some? { WorkKeepsInv(s, e); }
  }

  lemma {:induction false} RunKeepsInv(s: Sys, es: seq<Event>)
    requires Inv(s)
    ensures Inv(Run(s, es))
    decreases es
  {
    if es != [] {
      NextKeepsInv(s, es[0]);
      RunKeepsInv(Next(s, es[0]), es[1..]);
    }
  }

  // ---------------------------------------------------------------- what every run keeps

  /** No operation is admitted that would take the record of another one that has work to undo. */
  predicate Respects(s: Sys, e: Event) {
    e.Start? && s.pc.Idle? && s.disk.active.Some? && s.disk.active.value.rollback.Some? ==> e.req == s.disk.active.value.req
  }

  /** `a` is still the active operation and its rollback point has not moved. */
  predicate StillOpen(s: Sys, req: Request, r: Commit) {
    s.disk.active.Some? && s.disk.active.value.req == req && s.disk.active.value.rollback == Some(r)
  }

  /** The operation has ended, and its last record still named the same rollback point. */
  ghost predicate EndedWith(s: Sys, req: Request, r: Commit) {
    exists i | 0 <= i < |s.ended| :: s.ended[i].last.req == req && s.ended[i].last.rollback == Some(r)
  }

  lemma NextKeepsRollbackPoint(s: Sys, e: Event, req: Request, r: Commit)
    requires Inv(s) && StillOpen(s, req, r)
    ensures StillOpen(Next(s, e), req, r) || EndedWith(Next(s, e), req, r) || !Respects(s, e)
    ensures !Respects(s, e) ==> !StillOpen(Next(s, e), req, r) && Next(s, e).ended == s.ended
    ensures |Next(s, e).ended| >= |s.ended| && Next(s, e).ended[..|s.ended|] == s.ended
  {
    var s' := Next(s, e);
    if |s'.ended| > |s.ended| { assert s'.ended[|s.ended|].last.req == req; }
  }

  ghost predicate AllRespect(s: Sys, es: seq<Event>)
    decreases es
  {
    es == [] || (Respects(s, es[0]) && AllRespect(Next(s, es[0]), es[1..]))
  }

  lemma EndedStays(s: Sys, e: Event, req: Request, r: Commit)
    requires EndedWith(s, req, r)
    ensures EndedWith(Next(s, e), req, r)
  {
    var i :| 0 <= i < |s.ended| && s.ended[i].last.req == req && s.ended[i].last.rollback == Some(r);
    assert Next(s, e).ended[i] == s.ended[i];
  }

  /**
   Through any sequence of crashes, resumes, failures and retries, the rollback point stored before the
   first stop stays what it was until the operation ends, and HEAD is that commit or the target.
   */
  lemma {:induction false} RollbackPointSurvives(s: Sys, es: seq<Event>, req: Request, r: Commit)
    requires Inv(s) && (StillOpen(s, req, r) || EndedWith(s, req, r)) && AllRespect(s, es)
    ensures var t := Run(s, es);
            && (StillOpen(t, req, r) || EndedWith(t, req, r))
            && (StillOpen(t, req, r) ==> t.disk.head == r || t.disk.head == req.target)
    decreases es
  {
    if es != [] {
      NextKeepsInv(s, es[0]);
      if EndedWith(s, req, r) { EndedStays(s, es[0], req, r); } else { NextKeepsRollbackPoint(s, es[0], req, r); }
      RollbackPointSurvives(Next(s, es[0]), es[1..], req, r);
    }
  }

  /** The point is HEAD as it is when work first starts: nothing is stopped before it is stored. */
  lemma StopsOnlyWithRollbackPoint(s: Sys, e: Event)
    requires Inv(s) && s.disk.active.Some? && Next(s, e).disk.active.Some? && !Next(s, e).disk.active.value.phase.Prepared?
    ensures Next(s, e).disk.active.value.rollback.Some?
    ensures e.Stop? && s.disk.active.value.phase.Prepared? ==> Next(s, e).disk.active.value.rollback == Some(s.disk.head)
  {
    NextKeepsInv(s, e);
  }

  /** Over every run: succeeded means HEAD is the attested target, rolled back means HEAD is the stored point. */
  lemma EndsAreTruthful(s: Sys, es: seq<Event>, i: nat)
    requires Inv(s) && i < |Run(s, es).ended|
    ensures var e := Run(s, es).ended[i];
            && (e.result.Succeeded? ==> e.head == e.last.req.target)
            && (e.result == Failed(Some(true)) ==> e.last.rollback == Some(e.head))
            && (e.last.rollback.Some? ==> e.head == e.last.rollback.value || e.head == e.last.req.target)
  {
    RunKeepsInv(s, es);
    assert EndOk(Run(s, es).ended[i]);
  }

  /** The step ends the active operation with `result`. */
  predicate Ends(s: Sys, e: Event, result: Result) {
    && s.disk.active.Some? && !s.pc.Idle?
    && match result
       case Succeeded => e.Attest? && s.pc.AtAttest?
       case Failed(None) =>
         e.Raise? && (s.pc.Admitted? || (!s.pc.RollingBack? && !s.pc.TreeReset? && !s.pc.RolledBack? && s.pc.base == s.disk.active.value.req.target))
       case Failed(Some(ok)) =>
         if ok then e == RollbackDone(true) && s.pc.RolledBack?
         else (e == RollbackDone(false) && s.pc.RolledBack?) || (e.Raise? && (s.pc.RollingBack? || s.pc.TreeReset? || s.pc.RolledBack?))
  }

  /** The step appends one end, with this result, of the operation that was active. */
  predicate Appends(s: Sys, s': Sys, result: Result) {
    && s.disk.active.Some? && |s'.ended| == |s.ended| + 1 && s'.ended[..|s.ended|] == s.ended
    && s'.ended[|s.ended|] == End(s.disk.active.value, result, s.disk.head) && s'.disk.active.None?
  }

  /** Each verdict has its own cause: in particular the rollback is reported as what the health of the old version was. */
  lemma EndsIff(s: Sys, e: Event, result: Result)
    ensures Ends(s, e, result) <==> Appends(s, Next(s, e), result)
    ensures |Next(s, e).ended| == |s.ended| + 1 || Next(s, e).ended == s.ended
  {
    hide Others;
  }

  /** Over every run: each end recorded in it was caused so, by one of its events. */
  lemma {:induction false} EveryEndIsCaused(s: Sys, es: seq<Event>, i: nat)
    requires |s.ended| <= i < |Run(s, es).ended|
    ensures exists k :: 0 <= k < |es| && |Run(s, es[..k]).ended| == i && Ends(Run(s, es[..k]), es[k], Run(s, es).ended[i].result)
    decreases es
  {
    hide Ends, Next;
    if es != [] {
      var s' := Next(s, es[0]);
      CausedAt(s, es[0]);
      if i < |s'.ended| {
        RunKeepsEnds(s', es[1..]);
        assert es[..0] == [];
        assert |Run(s, es[..0]).ended| == i && Ends(Run(s, es[..0]), es[0], Run(s, es).ended[i].result);
      } else {
        EveryEndIsCaused(s', es[1..], i);
        var k :| 0 <= k < |es[1..]| && |Run(s', es[1..][..k]).ended| == i && Ends(Run(s', es[1..][..k]), es[1..][k], Run(s', es[1..]).ended[i].result);
        assert es[..k + 1][1..] == es[1..][..k];
        assert |Run(s, es[..k + 1]).ended| == i && Ends(Run(s, es[..k + 1]), es[k + 1], Run(s, es).ended[i].result);
      }
    }
  }

  lemma CausedAt(s: Sys, e: Event)
    ensures Next(s, e).ended == s.ended
            || (|Next(s, e).ended| == |s.ended| + 1 && Next(s, e).ended[..|s.ended|] == s.ended && Ends(s, e, Next(s, e).ended[|s.ended|].result))
  {
    hide Others;
  }

  lemma {:induction false} RunKeepsEnds(s: Sys, es: seq<Event>)
    ensures |Run(s, es).ended| >= |s.ended| && Run(s, es).ended[..|s.ended|] == s.ended
    decreases es
  {
    hide Ends, Next;
    if es != [] {
      CausedAt(s, es[0]);
      RunKeepsEnds(Next(s, es[0]), es[1..]);
    }
  }

  /** HEAD moves in two ways: the merge takes it to the target, and a rollback back to where it was to return to. */
  lemma HeadMovesIff(s: Sys, e: Event, c: Commit)
    requires c != s.disk.head
    ensures Next(s, e).disk.head == c <==>
            && s.disk.active.Some?
            && ( || (e == Merge(false) && s.pc.AtMerge? && !s.disk.dirty && c == s.disk.active.value.req.target)
                 || (e == MoveRef && s.pc.TreeReset? && c == s.pc.base))
  {
    hide Others;
  }

  /** The durable phase of an operation under way changes in one way each. */
  lemma PhaseMovesIff(s: Sys, e: Event, p: Phase)
    requires s.disk.active.Some? && s.disk.active.value.phase != p && !e.Start?
    ensures Next(s, e).disk.active.Some? && Next(s, e).disk.active.value.phase == p <==>
            match p
            case Prepared => false
            case Stopping => e.Stop? && s.pc.Checked? && s.pc.available
            case Stopped => e.StopDone? && s.pc.AtStop?
            case Merged => e.SaveMerged? && s.pc.AtSave?
            case Verified =>
              e.Converge? && (s.pc.AtConverge? || (s.pc.Checked? && !s.pc.available
                                                   && (s.disk.active.value.phase == Stopping || s.disk.active.value.phase == Stopped
                                                       || s.disk.active.value.phase == Merged)))
            case Restarting =>
              e.Restart? && (s.pc.AtRestart? || (s.pc.Resumed? && s.disk.active.value.phase == Verified && s.disk.active.value.mode != Some(NotRunning)))
  {
    hide Others;
  }

  /** A trigger never admits an operation id twice, and never disturbs an active operation. */
  lemma TriggerAdmitsOnce(s: Sys, req: Request)
    ensures Bound(s.disk.history, req.op) || s.disk.active.Some? ==> Next(s, Trigger(req)) == s
    ensures !Bound(s.disk.history, req.op) && s.disk.active.None? ==> Next(s, Trigger(req)).disk.active == Some(Active(req, Prepared, None, None, None))
  {
  }

  // ---------------------------------------------------------------- where the promise stops

  /**
   `update` itself checks neither the history nor the active record: a helper started for another request
   replaces the record.  The interrupted operation is then neither active nor in the history, and nothing
   remembers what to roll back to.
   */
  lemma StaleHelperErasesOperation(s: Sys, stale: Request, mode: RunMode)
    requires Inv(s) && s.pc.Idle? && s.disk.active.Some? && s.disk.active.value.rollback.Some? && stale != s.disk.active.value.req
    requires !Bound(s.disk.history, s.disk.active.value.req.op)
    ensures var t := Next(s, Start(stale, mode));
            && t.disk.active == Some(Active(stale, Prepared, Some(mode), None, None))
            && !Bound(t.disk.history, s.disk.active.value.req.op) && t.disk.head == s.disk.head
  {
  }

  /** A late helper takes up an operation that has ended, though `trigger_update` would refuse it. */
  lemma StaleHelperReruns(s: Sys, req: Request, mode: RunMode)
    requires Bound(s.disk.history, req.op) && s.disk.active.None? && s.pc.Idle?
    ensures Next(s, Trigger(req)) == s && Next(s, Start(req, mode)).disk.active == Some(Active(req, Prepared, Some(mode), None, None))
  {
  }

  /** An operation id whose end is recorded becomes active again by exactly one kind of event: a helper started for it. */
  lemma EndedRunsAgainIff(s: Sys, e: Event, op: string)
    requires Bound(s.disk.history, op) && (s.disk.active.Some? ==> s.disk.active.value.req.op != op)
    ensures var d := Next(s, e).disk;
            d.active.Some? && d.active.value.req.op == op <==> e.Start? && s.pc.Idle? && e.req.op == op
  {
  }

  /** A helper is only started for the request whose record is active. */
  predicate Invited(s: Sys, e: Event) {
    e.Start? && s.pc.Idle? ==> s.disk.active.Some? && e.req == s.disk.active.value.req
  }

  ghost predicate AllInvited(s: Sys, es: seq<Event>)
    decreases es
  {
    es == [] || (Invited(s, es[0]) && AllInvited(Next(s, es[0]), es[1..]))
  }

  /** Every recorded end is in the history, no id ended twice, and what is active has not ended. */
  ghost predicate OncePerOp(s: Sys) {
    && (s.disk.active.Some? ==> !Bound(s.disk.history, s.disk.active.value.req.op))
    && (forall i | 0 <= i < |s.ended| :: Bound(s.disk.history, s.ended[i].last.req.op))
    && (forall i, j | 0 <= i < j < |s.ended| :: s.ended[i].last.req.op != s.ended[j].last.req.op)
  }

  lemma {:induction false} OthersOfUnbound(history: seq<Entry>, op: string)
    requires !Bound(history, op)
    ensures Others(history, op) == history
    decreases history
  {
    if history != [] {
      assert history[0].last.req.op != op;
      assert forall i | 0 <= i < |history[1..]| :: history[1..][i] == history[i + 1];
      OthersOfUnbound(history[1..], op);
    }
  }

  lemma BoundGrows(history: seq<Entry>, x: Entry, op: string)
    ensures Bound(history + [x], op) <==> Bound(history, op) || x.last.req.op == op
  {
    if Bound(history, op) {
      var i :| 0 <= i < |history| && history[i].last.req.op == op;
      assert (history + [x])[i].last.req.op == op;
    }
    assert (history + [x])[|history|] == x;
  }

  lemma CompleteIsOnce(s: Sys, result: Result)
    requires OncePerOp(s) && s.disk.active.Some?
    ensures OncePerOp(Complete(s, result))
  {
    var a, s' := s.disk.active.value, Complete(s, result);
    OthersOfUnbound(s.disk.history, a.req.op);
    assert s'.disk.history == s.disk.history + [Entry(a, result)];
    forall op ensures Bound(s'.disk.history, op) <==> Bound(s.disk.history, op) || a.req.op == op {
      BoundGrows(s.disk.history, Entry(a, result), op);
    }
    hide Bound;
  }

  /** What a step of the work does to the record: nothing but a phase, or the terminal write. */
  lemma WorkEndsOrKeeps(s: Sys, e: Event)
    requires s.disk.active.Some? && !s.pc.Idle?
    ensures var s' := WorkStep(s, e);
            || (exists result :: s' == Complete(s, result))
            || (s'.ended == s.ended && s'.disk.history == s.disk.history && s'.disk.active.Some?
                && s'.disk.active.value.req == s.disk.active.value.req)
  {
    hide Complete;
    assert Complete(s, Succeeded) == Complete(s, Succeeded) && Complete(s, Failed(None)) == Complete(s, Failed(None))
           && Complete(s, Failed(Some(false))) == Complete(s, Failed(Some(false)));
  }

  lemma NextIsOnce(s: Sys, e: Event)
    requires OncePerOp(s) && Invited(s, e)
    ensures OncePerOp(Next(s, e))
  {
    hide WorkStep, Complete, Bound;
    if !s.pc.Idle? && s.disk.active.Some? {
      WorkEndsOrKeeps(s, e);
      if result :| WorkStep(s, e) == Complete(s, result) { CompleteIsOnce(s, result); }
    }
  }

  /**
   Over every run in which helpers are started only for the active record's own request, each operation
   id ends at most once.
   */
  lemma {:induction false} EachOperationEndsOnce(s: Sys, es: seq<Event>)
    requires OncePerOp(s) && AllInvited(s, es)
    ensures OncePerOp(Run(s, es))
    ensures forall i, j | 0 <= i < j < |Run(s, es).ended| :: Run(s, es).ended[i].last.req.op != Run(s, es).ended[j].last.req.op
    decreases es
  {
    hide OncePerOp, Invited;
    if es != [] {
      NextIsOnce(s, es[0]);
      EachOperationEndsOnce(Next(s, es[0]), es[1..]);
    } else {
      AtMostOnce(s);
    }
  }

  lemma AtMostOnce(s: Sys)
    requires OncePerOp(s)
    ensures forall i, j | 0 <= i < j < |s.ended| :: s.ended[i].last.req.op != s.ended[j].last.req.op
  {
  }

  /**
   A failure is recorded with no rollback tried exactly when the exception comes before the preflight has
   answered, or when there was nothing to undo.
   */
  lemma FailsWithoutRollbackIff(s: Sys)
    requires Inv(s) && s.disk.active.Some? && !s.pc.Idle?
    ensures |Next(s, Raise).ended| == |s.ended| + 1 && Next(s, Raise).ended[|s.ended|].result == Failed(None) <==>
              s.pc.Admitted? || s.disk.active.value.rollback.None?
  {
  }

  lemma RunStep(s: Sys, e: Event, es: seq<Event>)
    ensures Run(s, [e] + es) == Run(Next(s, e), es)
  {
    assert ([e] + es)[1..] == es;
  }

  /** A first attempt that is cut off right after its merge. */
  lemma CutOffAfterMerge(r: Commit, req: Request, rest: seq<Event>)
    requires r != req.target
    ensures Run(Sys(Disk(r, false, Some(Active(req, Prepared, None, None, None)), []), Idle, []),
                [Start(req, Service)] + ([Preflight] + ([Stop] + ([StopDone] + ([Merge(false)] + ([Crash] + rest))))))
            == Run(Sys(Disk(req.target, false, Some(Active(req, Stopped, Some(Service), Some(r), Some(r))), []), Idle, []), rest)
  {
    hide Run;
    var s0 := Sys(Disk(r, false, Some(Active(req, Prepared, None, None, None)), []), Idle, []);
    var s1 := Next(s0, Start(req, Service));
    var s2 := Next(s1, Preflight);
    var s3 := Next(s2, Stop);
    var s4 := Next(s3, StopDone);
    var s5 := Next(s4, Merge(false));
    var es5 := [Crash] + rest;
    var es4 := [Merge(false)] + es5;
    var es3 := [StopDone] + es4;
    var es2 := [Stop] + es3;
    RunStep(s0, Start(req, Service), [Preflight] + es2);
    RunStep(s1, Preflight, es2);
    RunStep(s2, Stop, es3);
    RunStep(s3, StopDone, es4);
    RunStep(s4, Merge(false), es5);
    RunStep(s5, Crash, rest);
  }

  /** Then a resume that fails before its preflight answers: the new version stays, unattested, and no rollback is tried. */
  lemma ResumedFailureKeepsTarget(r: Commit, req: Request)
    requires r != req.target
    ensures var s := Sys(Disk(r, false, Some(Active(req, Prepared, None, None, None)), []), Idle, []);
            var t := Run(s, [Start(req, Service), Preflight, Stop, StopDone, Merge(false), Crash, Start(req, Service), Raise]);
            && t.disk.active.None? && t.disk.head == req.target && |t.ended| == 1 && t.ended[0].result == Failed(None)
            && t.ended[0].last.rollback == Some(r)
  {
    var again := [Start(req, Service)] + ([Raise] + []);
    assert [Start(req, Service), Preflight, Stop, StopDone, Merge(false), Crash, Start(req, Service), Raise]
           == [Start(req, Service)] + ([Preflight] + ([Stop] + ([StopDone] + ([Merge(false)] + ([Crash] + again))))) by { hide *; }
    CutOffAfterMerge(r, req, again);
    var s := Sys(Disk(req.target, false, Some(Active(req, Stopped, Some(Service), Some(r), Some(r))), []), Idle, []);
    RunStep(s, Start(req, Service), [Raise] + []);
    RunStep(Next(s, Start(req, Service)), Raise, []);
    assert Run(Next(Next(s, Start(req, Service)), Raise), []) == Next(Next(s, Start(req, Service)), Raise);
    hide Run;
  }

  // ---------------------------------------------------------------- the updater as the object it is

  lemma {:induction false} RunAppend(s: Sys, es: seq<Event>, e: Event)
    ensures Run(s, es + [e]) == Next(Run(s, es), e)
    decreases es
  {
    if es == [] {
      assert es + [e] == [e];
      assert Run(Next(s, e), []) == Next(s, e);
    } else {
      RunAppend(Next(s, es[0]), es[1..], e);
      assert (es + [e])[1..] == es[1..] + [e];
    }
  }

  /** What the outside world answers to one attempt; a crash strikes after `steps` durable steps. */
  datatype Script = Script(
    ready: bool, checks: bool, stops: bool, merges: bool, torn: bool, converges: bool, attests: bool,
    unwinds: bool, movesRef: bool, recovers: bool, steps: nat)

  // What one attempt answers, by the script and by how many durable steps it is granted.

  function RollbackVerdict(t: Script, landed: bool, left: nat): Option<Result> {
    if !t.unwinds || !landed then Some(Failed(Some(false)))
    else if left == 0 then None
    else if !t.movesRef then Some(Failed(Some(false)))
    else if left == 1 then None
    else Some(Failed(Some(t.recovers)))
  }

  function UnwindVerdict(t: Script, undo: bool, landed: bool, left: nat): Option<Result> {
    if undo then RollbackVerdict(t, landed, left) else Some(Failed(None))
  }

  function AttestVerdict(t: Script, undo: bool, left: nat): Option<Result> {
    if left == 0 then None else if t.attests then Some(Succeeded) else UnwindVerdict(t, undo, true, left - 1)
  }

  function LandVerdict(t: Script, left: nat): Option<Result> {
    if left < 2 then None else if t.converges then AttestVerdict(t, true, left - 2) else RollbackVerdict(t, true, left - 2)
  }

  function InstallVerdict(t: Script, left: nat): Option<Result> {
    if left == 0 then None
    else if !t.stops then RollbackVerdict(t, false, left - 1)
    else if left == 1 || t.torn then None
    else if !t.merges then RollbackVerdict(t, false, left - 2)
    else LandVerdict(t, left - 2)
  }

  function ReattestVerdict(t: Script, redo: bool, undo: bool, left: nat): Option<Result> {
    if redo && !t.converges then UnwindVerdict(t, undo, true, left) else AttestVerdict(t, undo, left)
  }

  /** `available` says HEAD is not the target yet, `redo` that an attempt was cut off before it verified, `undo` that there is a point to go back to. */
  function UpdateVerdict(t: Script, clean: bool, available: bool, redo: bool, undo: bool): Option<Result> {
    if !t.ready then None
    else if !t.checks || !clean then Some(Failed(None))
    else if t.steps == 0 then None
    else if available then InstallVerdict(t, t.steps - 1)
    else ReattestVerdict(t, redo, undo, t.steps - 1)
  }

  /** How many durable steps an attempt takes to the failure that finds the target merged, if it has one. */
  function StepsToLateFailure(t: Script, available: bool, redo: bool): Option<nat> {
    if available then
      if t.stops && !t.torn && t.merges then (if !t.converges then Some(5) else if !t.attests then Some(6) else None) else None
    else if redo && !t.converges then Some(1)
    else if !t.attests then Some(2)
    else None
  }

  predicate Begun(t: Script, clean: bool) {
    t.ready && t.checks && clean
  }

  /** Success: everything asked of the attempt went well, and it was not cut off. */
  lemma SucceedsIff(t: Script, clean: bool, available: bool, redo: bool, undo: bool)
    ensures UpdateVerdict(t, clean, available, redo, undo) == Some(Succeeded) <==>
            && Begun(t, clean) && t.attests
            && (if available then t.stops && !t.torn && t.merges && t.converges && t.steps >= 6 else (redo ==> t.converges) && t.steps >= 2)
  {
  }

  /** A rollback is reported as made exactly when a late failure was undone, and the old version came up healthy. */
  lemma RolledBackIff(t: Script, clean: bool, available: bool, redo: bool, undo: bool)
    requires available ==> undo
    ensures UpdateVerdict(t, clean, available, redo, undo) == Some(Failed(Some(true))) <==>
            && Begun(t, clean) && undo && t.unwinds && t.movesRef && t.recovers
            && var n := StepsToLateFailure(t, available, redo); n.Some? && t.steps >= n.value + 2
  {
  }

  /** It is reported as failed exactly when there was something to undo and the undoing went wrong, or nothing was merged yet. */
  lemma RollbackFailedIff(t: Script, clean: bool, available: bool, redo: bool, undo: bool)
    requires available ==> undo
    ensures UpdateVerdict(t, clean, available, redo, undo) == Some(Failed(Some(false))) <==>
            && Begun(t, clean)
            && var n := StepsToLateFailure(t, available, redo);
            || (available && t.steps >= 2 && !t.stops)
            || (available && t.steps >= 3 && t.stops && !t.torn && !t.merges)
            || (undo && n.Some? && t.steps >= n.value
                && (!t.unwinds || (t.steps > n.value && !t.movesRef) || (t.steps > n.value + 1 && t.movesRef && !t.recovers)))
  {
  }

  /** No rollback is tried exactly when the checks before the work fail, or a late failure has nothing to go back to. */
  lemma FailedPlainlyIff(t: Script, clean: bool, available: bool, redo: bool, undo: bool)
    requires available ==> undo
    ensures UpdateVerdict(t, clean, available, redo, undo) == Some(Failed(None)) <==>
            && t.ready
            && ( || !t.checks || !clean
                 || (!undo && var n := StepsToLateFailure(t, available, redo); n.Some? && t.steps >= n.value))
  {
  }

  class Updater {
    var head: Commit
    var dirty: bool
    var active: Option<Active>
    var history: seq<Entry>
    ghost var ended: seq<End>
    /** Everything this object has done, as events of the machine above. */
    ghost var trace: seq<Event>
    ghost var origin: Sys
    ghost var pc: Pc
    var left: nat

    ghost function View(): Sys
      reads this
    {
      Sys(Disk(head, dirty, active, history), pc, ended)
    }

    ghost predicate Valid()
      reads this
    {
      Inv(View()) && Run(origin, trace) == View()
    }

    constructor (commit: Commit)
      ensures Valid() && pc.Idle? && active.None? && trace == [] && origin == Sys(Disk(commit, false, None, []), Idle, [])
    {
      head, dirty, active, history, left := commit, false, None, [], 0;
      ended, trace, pc := [], [], Idle;
      origin := Sys(Disk(commit, false, None, []), Idle, []);
    }

    /** The bookkeeping of one durable step: the fields have just been written, and `e` is what happened. */
    ghost method Took(before: Sys, e: Event, after: Pc)
      requires Inv(before) && Run(origin, trace) == before
      requires Next(before, e) == Sys(Disk(head, dirty, active, history), after, ended)
      modifies this`trace, this`pc
      ensures pc == after && trace == old(trace) + [e] && Valid()
    {
      NextKeepsInv(before, e);
      RunAppend(origin, trace, e);
      trace, pc := trace + [e], after;
    }

    method Write(p: Phase, e: Event, ghost after: Pc)
      requires Valid() && active.Some? && Next(View(), e) == Sys(InPhase(View().disk, p), after, ended)
      modifies this
      ensures Valid() && pc == after && trace == old(trace) + [e] && origin == old(origin) && left == old(left)
      ensures active == Some(old(active).value.(phase := p)) && head == old(head) && dirty == old(dirty) && ended == old(ended)
    {
      ghost var before := View();
      active := Some(active.value.(phase := p));
      Took(before, e, after);
    }

    /** The terminal write. */
    method Finish(result: Result, e: Event)
      requires Valid() && active.Some? && Next(View(), e) == Complete(View(), result)
      modifies this
      ensures Valid() && pc.Idle? && active.None? && origin == old(origin)
      ensures ended == old(ended) + [End(old(active).value, result, head)] && head == old(head) && dirty == old(dirty)
    {
      ghost var before := View();
      var kept := DropOp(history, active.value.req.op);
      history := kept + [Entry(active.value, result)];
      ended := ended + [End(active.value, result, head)];
      active := None;
      Took(before, e, Idle);
    }

    /** The history without one operation id. */
    method DropOp(entries: seq<Entry>, op: string) returns (kept: seq<Entry>)
      ensures kept == Others(entries, op)
    {
      kept := [];
      var i := |entries|;
      while i > 0
        invariant 0 <= i <= |entries|
        invariant kept == Others(entries[i..], op)
      {
        i := i - 1;
        assert entries[i..] == [entries[i]] + entries[i + 1..];
        if entries[i].last.req.op != op { kept := [entries[i]] + kept; }
      }
      assert entries[0..] == entries;
    }

    /** Whether the process dies before its next durable step. */
    method Dies() returns (dead: bool)
      requires Valid()
      modifies this
      ensures Valid() && active == old(active) && head == old(head) && dirty == old(dirty) && ended == old(ended) && origin == old(origin)
      ensures dead <==> old(left) == 0
      ensures dead ==> pc.Idle?
      ensures !dead ==> pc == old(pc) && left == old(left) - 1
    {
      dead := left == 0;
      if dead {
        ghost var before := View();
        Took(before, Crash, Idle);
      } else {
        left := left - 1;
      }
    }

    /** The exception handler: roll a merge back, or just record the failure. */
    method Unwind(base: Option<Commit>, t: Script) returns (r: Option<Result>)
      requires Valid() && active.Some? && !pc.Idle? && (base.None? <==> pc.Admitted?)
      requires base.Some? ==> !pc.RollingBack? && !pc.TreeReset? && !pc.RolledBack? && pc.base == base.value
      modifies this
      ensures Outcome(old(View()), old(active).value, r) && origin == old(origin) && r != Some(Succeeded)
      ensures r == if base.None? then Some(Failed(None)) else UnwindVerdict(t, base.value != old(active).value.req.target, old(head) == old(active).value.req.target && !old(dirty), old(left))
    {
      hide Inv, PcOk, ActiveOk, EndOk, Run, Others;
      ghost var before := View();
      if base.None? || base.value == active.value.req.target {
        Finish(Failed(None), Raise);
        return Some(Failed(None));
      }
      Took(before, Raise, RollingBack(base.value));
      r := RollBack(base.value, t);
    }

    /** Undo exactly the updater's own merge: HEAD must still be the target and the tree clean. */
    method RollBack(base: Commit, t: Script) returns (r: Option<Result>)
      requires Valid() && active.Some? && pc == RollingBack(base)
      modifies this
      ensures Outcome(old(View()), old(active).value, r) && origin == old(origin) && r != Some(Succeeded)
      ensures r == Some(Failed(Some(true))) ==> head == base && !dirty
      ensures r == RollbackVerdict(t, old(head) == old(active).value.req.target && !old(dirty), old(left))
    {
      hide Inv, PcOk, ActiveOk, EndOk, Run, Others;
      if !t.unwinds || head != active.value.req.target || dirty {
        Finish(Failed(Some(false)), Raise);
        return Some(Failed(Some(false)));
      }
      ghost var before := View();
      dirty := true;
      Took(before, ResetTree, TreeReset(base));
      var dead := Dies();
      if dead { return None; }
      r := MoveBack(base, t);
    }

    /** `git update-ref`, then bring the restored version up again. */
    method MoveBack(base: Commit, t: Script) returns (r: Option<Result>)
      requires Valid() && active.Some? && pc == TreeReset(base)
      modifies this
      ensures Outcome(old(View()), old(active).value, r) && origin == old(origin) && r != Some(Succeeded)
      ensures r == Some(Failed(Some(true))) ==> head == base && !dirty
      ensures r == if t.movesRef && old(left) == 0 then None else Some(Failed(Some(t.movesRef && t.recovers)))
    {
      hide Inv, PcOk, ActiveOk, EndOk, Run, Others;
      if !t.movesRef {
        Finish(Failed(Some(false)), Raise);
        return Some(Failed(Some(false)));
      }
      ghost var before := View();
      head, dirty := base, false;
      Took(before, MoveRef, RolledBack(base));
      r := RestoreService(base, t);
    }

    /** Dependencies, import check, restart and health of the version gone back to. */
    method RestoreService(base: Commit, t: Script) returns (r: Option<Result>)
      requires Valid() && active.Some? && pc == RolledBack(base) && head == base && !dirty
      modifies this
      ensures Outcome(old(View()), old(active).value, r) && origin == old(origin) && r != Some(Succeeded)
      ensures head == base && !dirty
      ensures r == if old(left) == 0 then None else Some(Failed(Some(t.recovers)))
    {
      hide Inv, PcOk, ActiveOk, EndOk, Run, Others;
      var dead := Dies();
      if dead { return None; }
      Finish(Failed(Some(t.recovers)), RollbackDone(t.recovers));
      r := Some(Failed(Some(t.recovers)));
    }

    /** Stop, merge, converge, restart, attest, with a durable phase before each. */
    method Install(base: Commit, t: Script) returns (r: Option<Result>)
      requires Valid() && active.Some? && pc == Checked(base, true) && !dirty
      requires base != active.value.req.target && head == base
      modifies this
      ensures Outcome(old(View()), old(active).value, r) && origin == old(origin)
      ensures r == InstallVerdict(t, old(left))
    {
      hide Inv, PcOk, ActiveOk, EndOk, Run, Others, LandVerdict, RollbackVerdict;
      Write(Stopping, Stop, AtStop(base));
      var dead := Dies();
      if dead { return None; }
      if !t.stops {
        r := Unwind(Some(base), t);
        return;
      }
      Write(Stopped, StopDone, AtMerge(base));
      dead := Dies();
      if dead { return None; }
      r := MergeTarget(base, t);
    }

    /** `git merge --ff-only`, which can succeed, fail, or die with the tree half moved. */
    method MergeTarget(base: Commit, t: Script) returns (r: Option<Result>)
      requires Valid() && active.Some? && pc == AtMerge(base) && !dirty
      requires base != active.value.req.target && head == base
      modifies this
      ensures Outcome(old(View()), old(active).value, r) && origin == old(origin)
      ensures r == if t.torn then None else if !t.merges then RollbackVerdict(t, false, old(left)) else LandVerdict(t, old(left))
    {
      hide Inv, PcOk, ActiveOk, EndOk, Run, Others, LandVerdict, RollbackVerdict;
      if t.torn {
        ghost var whole := View();
        dirty := true;
        Took(whole, Merge(true), Idle);
        return None;
      }
      if !t.merges {
        r := Unwind(Some(base), t);
        return;
      }
      r := Land(base, t);
    }

    /** The merge itself, then everything up to the attestation. */
    method Land(base: Commit, t: Script) returns (r: Option<Result>)
      requires Valid() && active.Some? && pc == AtMerge(base) && !dirty
      requires base != active.value.req.target
      modifies this
      ensures Outcome(old(View()), old(active).value, r) && origin == old(origin)
      ensures r == LandVerdict(t, old(left))
    {
      hide Inv, PcOk, ActiveOk, EndOk, Run, Others;
      ghost var before := View();
      head := active.value.req.target;
      Took(before, Merge(false), AtSave(base));
      var dead := Dies();
      if dead { return None; }
      r := Converged(base, t);
    }

    /** Dependencies and import check on the merged tree, then restart. */
    method Converged(base: Commit, t: Script) returns (r: Option<Result>)
      requires Valid() && active.Some? && pc == AtSave(base)
      requires base != active.value.req.target && head == active.value.req.target && !dirty
      modifies this
      ensures Outcome(old(View()), old(active).value, r) && origin == old(origin)
      ensures r == if old(left) == 0 then None else if t.converges then AttestVerdict(t, true, old(left) - 1) else RollbackVerdict(t, true, old(left) - 1)
    {
      hide Inv, PcOk, ActiveOk, EndOk, Run, Others, AttestVerdict, RollbackVerdict;
      Write(Merged, SaveMerged, AtConverge(base));
      var dead := Dies();
      if dead { return None; }
      if !t.converges {
        r := Unwind(Some(base), t);
        return;
      }
      Write(Verified, Converge, AtRestart(base));
      Write(Restarting, Restart, AtAttest(base));
      r := AttestOrUnwind(base, t);
    }

    /** HEAD is the target already: finish whatever an interrupted attempt left undone. */
    method Reattest(base: Commit, t: Script) returns (r: Option<Result>)
      requires Valid() && active.Some? && pc == Checked(base, false)
      requires head == active.value.req.target && !dirty
      modifies this
      ensures Outcome(old(View()), old(active).value, r) && origin == old(origin)
      ensures r == ReattestVerdict(t, Resumable(old(active).value.phase), base != old(active).value.req.target, old(left))
    {
      hide Inv, PcOk, ActiveOk, EndOk, Run, Others, AttestVerdict, RollbackVerdict, UnwindVerdict;
      if Resumable(active.value.phase) {
        if !t.converges {
          r := Unwind(Some(base), t);
          return;
        }
        Write(Verified, Converge, Resumed(base));
      } else {
        ghost var before := View();
        Took(before, Converge, Resumed(base));
      }
      if (active.value.phase.Verified? || active.value.phase.Restarting?) && active.value.mode != Some(NotRunning) {
        Write(Restarting, Restart, AtAttest(base));
      } else {
        ghost var before := View();
        Took(before, Restart, AtAttest(base));
      }
      r := AttestOrUnwind(base, t);
    }

    method AttestOrUnwind(base: Commit, t: Script) returns (r: Option<Result>)
      requires Valid() && active.Some? && pc == AtAttest(base)
      requires head == active.value.req.target && !dirty
      modifies this
      ensures Outcome(old(View()), old(active).value, r) && origin == old(origin)
      ensures r == AttestVerdict(t, base != old(active).value.req.target, old(left))
    {
      hide Inv, PcOk, ActiveOk, EndOk, Run, Others, UnwindVerdict;
      var dead := Dies();
      if dead { return None; }
      if !t.attests {
        r := Unwind(Some(base), t);
        return;
      }
      Finish(Succeeded, Attest);
      r := Some(Succeeded);
    }

    /**
     One helper run of `update` for a managed request, resuming the active record when it is the same
     request.  Every field it writes is one step of the machine, so all that holds of its runs holds here.
     */
    method Update(req: Request, mode: RunMode, t: Script) returns (r: Option<Result>)
      requires Valid() && pc.Idle?
      modifies this
      ensures Valid() && pc.Idle? && origin == old(origin)
      ensures r.None? ==> ended == old(ended)
      ensures r.Some? ==> active.None? && |ended| == |old(ended)| + 1 && ended[..|old(ended)|] == old(ended)
                          && ended[|old(ended)|].last.req == req && ended[|old(ended)|].result == r.value && ended[|old(ended)|].head == head
      ensures r == Some(Succeeded) ==> head == req.target
      ensures r == Some(Failed(Some(true))) ==> ended[|old(ended)|].last.rollback == Some(head)
      ensures var same := old(active).Some? && old(active).value.req == req;
              var available, redo := old(head) != req.target, same && Resumable(old(active).value.phase);
              var undo := available || (same && old(active).value.rollback.Some?);
              var n := StepsToLateFailure(t, available, redo);
              && (r == Some(Failed(Some(true))) <==>
                    t.ready && t.checks && !old(dirty) && undo && n.Some? && t.steps >= n.value + 2 && t.unwinds && t.movesRef && t.recovers)
              && r == UpdateVerdict(t, !old(dirty), available, redo, undo)
      ensures old(active).Some? && old(active).value.req == req && old(active).value.rollback.Some? ==>
                && (head == old(active).value.rollback.value || head == req.target)
                && (r.None? ==> active.Some? && active.value.rollback == old(active).value.rollback)
                && (r.Some? ==> ended[|old(ended)|].last.rollback == old(active).value.rollback)
    {
      hide Inv, PcOk, ActiveOk, EndOk, Run, Others, Kept, UpdateVerdict, StepsToLateFailure, Admission, Resumable;
      AdmittedIs(View().disk, req, mode);
      left := t.steps;
      AdmitRequest(req, mode);
      ghost var a, before := active.value, View();
      RolledBackIff(t, !old(dirty), old(head) != req.target, Resumable(a.phase), old(head) != req.target || a.rollback.Some?);
      r := Attempt(t);
      RecordIsKept(View(), before, a, r);
    }

    /** What an admitted helper does. */
    method Attempt(t: Script) returns (r: Option<Result>)
      requires Valid() && active.Some? && pc == Admitted && left == t.steps
      modifies this
      ensures Valid() && pc.Idle? && origin == old(origin) && Kept(View(), old(View()), old(active).value, r)
      ensures var a := old(active).value;
              r == UpdateVerdict(t, !old(dirty), old(head) != a.req.target, Resumable(a.phase), old(head) != a.req.target || a.rollback.Some?)
    {
      hide Inv, PcOk, ActiveOk, EndOk, Run, Others, InstallVerdict, ReattestVerdict;
      ghost var before := View();
      if !t.ready {
        Took(before, Defer, Idle);
        r := None;
      } else if !t.checks || dirty {
        r := Unwind(None, t);
      } else {
        r := Proceed(t);
      }
    }

    /** Take up the active record of the same request, or start a new one over whatever is there. */
    method AdmitRequest(req: Request, mode: RunMode)
      requires Valid() && pc.Idle?
      modifies this
      ensures Valid() && pc == Admitted && origin == old(origin) && ended == old(ended) && head == old(head) && dirty == old(dirty)
      ensures active == Some(Admission(old(View()).disk, req, mode)) && left == old(left)
    {
      hide Inv, PcOk, ActiveOk, EndOk, Run, Others;
      ghost var before := View();
      if active.Some? && active.value.req == req {
        active := Some(active.value.(mode := if active.value.mode.Some? then active.value.mode else Some(mode)));
      } else {
        active := Some(Active(req, Prepared, Some(mode), None, None));
      }
      Took(before, Start(req, mode), Admitted);
    }

    /** Record where HEAD is and what to go back to, before anything is stopped or changed. */
    method NoteBase() returns (available: bool, base: Commit)
      requires Valid() && active.Some? && pc == Admitted && !dirty
      modifies this
      ensures Valid() && pc == Checked(base, available) && origin == old(origin) && ended == old(ended)
      ensures head == old(head) && !dirty && left == old(left)
      ensures active == PreflightStep(old(View())).disk.active && active.Some? && active.value.req == old(active).value.req
              && active.value.phase == old(active).value.phase
      ensures available <==> head != active.value.req.target
      ensures available ==> base == head
      ensures !available ==> (base != active.value.req.target <==> old(active).value.rollback.Some?)
    {
      BaseIsPoint(View());
      hide Inv, PcOk, ActiveOk, EndOk, Run, Others;
      ghost var before := View();
      available := head != active.value.req.target;
      base := if active.value.rollback.Some? then active.value.rollback.value else head;
      active := Some(active.value.(started := if active.value.started.Some? then active.value.started else Some(head),
                                   rollback := if active.value.rollback.None? && available then Some(head) else active.value.rollback));
      Took(before, Preflight, Checked(base, available));
    }

    method Proceed(t: Script) returns (r: Option<Result>)
      requires Valid() && active.Some? && pc == Admitted && !dirty
      modifies this
      ensures Valid() && pc.Idle? && origin == old(origin)
      ensures Outcome(old(View()), PreflightStep(old(View())).disk.active.value, r)
      ensures var a := old(active).value;
              r == if old(left) == 0 then None
                   else if old(head) != a.req.target then InstallVerdict(t, old(left) - 1)
                   else ReattestVerdict(t, Resumable(a.phase), a.rollback.Some?, old(left) - 1)
    {
      hide Inv, PcOk, ActiveOk, EndOk, Run, Others, InstallVerdict, ReattestVerdict, Resumable, PreflightStep;
      var available, base := NoteBase();
      var dead := Dies();
      if dead { return None; }
      if available { r := Install(base, t); } else { r := Reattest(base, t); }
    }

    /** How the rest of an attempt leaves things: the record untouched but for its phase, or ended truthfully. */
    ghost predicate Outcome(before: Sys, a: Active, r: Option<Result>)
      reads this
    {
      && Valid() && pc.Idle?
      && (r.None? ==> ended == before.ended && active.Some? && active.value.req == a.req && active.value.rollback == a.rollback)
      && (r.Some? ==> active.None? && |ended| == |before.ended| + 1 && ended[..|before.ended|] == before.ended
                      && ended[|before.ended|].last.req == a.req && ended[|before.ended|].last.rollback == a.rollback
                      && ended[|before.ended|].result == r.value && ended[|before.ended|].head == head)
    }
  }

  /** What an admission takes over from the record it finds. */
  lemma AdmittedIs(d: Disk, req: Request, mode: RunMode)
    ensures var a, same := Admission(d, req, mode), d.active.Some? && d.active.value.req == req;
            && a.req == req
            && (if same then a.rollback == d.active.value.rollback && a.phase == d.active.value.phase else a.rollback.None? && a.phase == Prepared)
            && (Resumable(a.phase) ==> same)
  {
  }

  /** Where an admitted attempt would go back to. */
  lemma BaseIsPoint(s: Sys)
    requires Inv(s) && s.disk.active.Some?
    ensures var a := s.disk.active.value;
            && (a.rollback.Some? ==> a.rollback.value != a.req.target)
            && (a.rollback.Some? && s.disk.head != a.req.target ==> s.disk.head == a.rollback.value)
  {
  }

  /** The attempt leaves the record and its rollback point, or has ended it, once, with the answer it gives. */
  ghost predicate Kept(after: Sys, before: Sys, a: Active, r: Option<Result>) {
    && (r.None? ==> after.ended == before.ended && after.disk.active.Some? && after.disk.active.value.req == a.req
                    && (a.rollback.Some? ==> after.disk.active.value.rollback == a.rollback))
    && (r.Some? ==> after.disk.active.None? && |after.ended| == |before.ended| + 1 && after.ended[..|before.ended|] == before.ended
                    && after.ended[|before.ended|].last.req == a.req
                    && after.ended[|before.ended|].result == r.value && after.ended[|before.ended|].head == after.disk.head
                    && (a.rollback.Some? ==> after.ended[|before.ended|].last.rollback == a.rollback))
  }

  /** What `Update` promises about a stored rollback point, read off the state it ends in. */
  lemma RecordIsKept(after: Sys, before: Sys, a: Active, r: Option<Result>)
    requires Inv(after) && Kept(after, before, a, r)
    ensures r.None? ==> after.ended == before.ended && after.disk.active.Some? && (a.rollback.Some? ==> after.disk.active.value.rollback == a.rollback)
    ensures r.Some? ==> after.disk.active.None? && |after.ended| == |before.ended| + 1 && after.ended[..|before.ended|] == before.ended
                        && after.ended[|before.ended|].last.req == a.req
                        && after.ended[|before.ended|].result == r.value && after.ended[|before.ended|].head == after.disk.head
                        && (a.rollback.Some? ==> after.ended[|before.ended|].last.rollback == a.rollback)
    ensures r == Some(Succeeded) ==> after.disk.head == a.req.target
    ensures r == Some(Failed(Some(true))) ==> after.ended[|before.ended|].last.rollback == Some(after.disk.head)
    ensures a.rollback.Some? ==> after.disk.head == a.rollback.value || after.disk.head == a.req.target
  {
    if r.Some? { assert EndOk(after.ended[|before.ended|]); }
  }
}

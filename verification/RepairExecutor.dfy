/**
 The Agent's executor as the object it is: one journal file and one settings file, rewritten step by
 step.  Everything outside the Agent is a parameter: the answer to the redemption call, where an
 exception or a crash strikes, and what a foreign writer puts into the settings file at the three
 moments where the executor can notice.
 */
module RepairExecutor {
  import opened Outcomes
  import opened RepairRows
  import opened RepairAgent

  /** How the redemption callback ended; `Died` is a crash before its answer was handled. */
  datatype Callback = Failed(how: CallbackFailure) | Answered(claim: Claim) | Died

  /** The durable steps after the claim was recorded. */
  datatype Point = Staging | StagedSave | Replacing | ReadBack

  datatype Trouble = NoTrouble | Fault(at: Point) | Crash(at: Point)

  /** Contents a foreign writer stores just before the recheck under the lock, the replacement, the read-back. */
  datatype Foreign = Foreign(atBegin: Option<SettingsFile>, beforeReplace: Option<SettingsFile>, afterReplace: Option<SettingsFile>)

  const QUIET := Foreign(None, None, None)

  function Seen(f: SettingsFile, w: Option<SettingsFile>): SettingsFile {
    if w.Some? then w.value else f
  }

  predicate Strikes(t: Trouble, at: Point) {
    !t.NoTrouble? && t.at == at
  }

  /** The steps before the replacement all succeed. */
  predicate ReachesReplacement(t: Trouble) {
    !Strikes(t, Staging) && !Strikes(t, StagedSave) && !Strikes(t, Replacing)
  }

  /** What holds of a journal on disk beyond its shape. */
  predicate Sound(j: Journal) {
    && WellShaped(j)
    && (j.state.RedemptionAttempted? ==> j.staged.None? && j.claim.None? && j.digest.Dispatch? && j.digest.request == j.request)
    && (j.state.Applying? ==> j.preimage.Json? && j.claim.Some?
                              && (j.staged.None? || j.staged == Some(StagedFile(j.preimage, j.claim.value, j.origin))))
  }

  /** The content this journal's apply would leave behind. */
  function Goal(j: Journal): SettingsFile
    requires j.preimage.Json? && j.digest.Dispatch?
  {
    StagedFile(j.preimage, ExpectedClaim(j.digest), j.origin)
  }

  class RepairExecutor {
    var journal: Option<Journal>
    var file: SettingsFile

    ghost predicate Valid()
      reads this
    {
      journal.Some? ==> Sound(journal.value)
    }

    constructor (settings: SettingsFile)
      ensures Valid() && journal.None? && file == settings
    {
      journal, file := None, settings;
    }

    method Save(j: Journal) returns (r: Option<Report>)
      requires Sound(j)
      modifies this`journal
      ensures journal == Some(j) && Valid() && r == Some(ResultOf(j))
    {
      journal := Some(j);
      r := Some(ResultOf(j));
    }

    /** Decide an interrupted apply from the bytes on disk, starting from the journal in memory. */
    method ClassifyCurrent(j: Journal) returns (r: Option<Report>)
      requires WellShaped(j)
      modifies this`journal
      ensures journal == Some(Classify(j, file)) && Valid() && r == Some(ResultOf(Classify(j, file)))
    {
      ClassifyIsTruthful(j, file);
      if file.Missing? {
        r := Save(Review(j, "settings_state_ambiguous"));
      } else if j.staged == Some(file) {
        var identity := if j.claim.Some? then Some(j.claim.value.identity) else j.identity;
        if identity.None? {
          r := Save(Review(j, "settings_state_ambiguous"));
        } else {
          r := Save(Close(j, JournalComplete, None, identity));
        }
      } else if j.preimage == file {
        r := Save(Close(j, JournalNeverApplied, None, None));
      } else {
        r := Save(Review(j, "settings_state_ambiguous"));
      }
    }

    /**
     The part of `_apply` under the settings writer lock.  The file is replaced exactly when every
     check of the preimage passes and no step before the replacement fails, and then by the staged
     content; whatever is reported about it afterwards agrees with the bytes on disk.
     */
    method ApplyClaim(j: Journal, world: Foreign, t: Trouble) returns (r: Option<Report>, ghost replaced: bool)
      requires Sound(j) && j.state.RedemptionAttempted? && journal == Some(j)
      modifies this
      ensures Valid()
      ensures replaced <==> j.preimage.Json? && Seen(old(file), world.atBegin) == j.preimage
                            && Seen(j.preimage, world.beforeReplace) == j.preimage && ReachesReplacement(t)
      ensures replaced ==> file == if Strikes(t, ReadBack) then Goal(j) else Seen(Goal(j), world.afterReplace)
      ensures !replaced ==> file == Seen(old(file), world.atBegin) || file == Seen(Seen(old(file), world.atBegin), world.beforeReplace)
      ensures r.None? <==> t.Crash? && j.preimage.Json? && Seen(old(file), world.atBegin) == j.preimage
                           && (t.at == ReadBack ==> Seen(j.preimage, world.beforeReplace) == j.preimage)
      ensures r.None? ==> journal.Some? && journal.value.state.Applying? && journal.value.request == j.request
                          && journal.value.preimage == j.preimage && journal.value.claim == Some(ExpectedClaim(j.digest))
                          && journal.value.origin == j.origin && (replaced ==> journal.value.staged == Some(Goal(j)))
      ensures r.Some? ==> r.value.request == j.request
      ensures r.Some? && r.value.error != Some("settings_invalid") ==>
                journal.Some? && r.value == ResultOf(journal.value) && !UnresolvedJournal(journal.value.state)
      ensures r.Some? && r.value.error == Some("settings_invalid") ==> journal == Some(j) && !replaced
      ensures r.Some? && r.value.state.JournalComplete? ==>
                j.preimage.Json? && file == Goal(j) && r.value.error.None? && r.value.identity == Some(ExpectedClaim(j.digest).identity)
      ensures r.Some? && r.value.state.JournalNeverApplied? ==> file == j.preimage
      ensures replaced && world.afterReplace.None? && !t.Crash? ==> r.Some? && r.value.state.JournalComplete?
    {
      replaced := false;
      var claim := ExpectedClaim(j.digest);
      file := Seen(file, world.atBegin);
      if !file.Json? { return Some(ReviewReport(j.request, "settings_invalid")), false; }
      if file != j.preimage {
        r := Save(Review(j, "settings_preimage_changed"));
        return;
      }
      var marked := BeginApply(j, claim);
      var _ := Save(marked);
      if Strikes(t, Staging) {
        if t.Crash? { return None, false; }
        r := ClassifyCurrent(marked);
        return;
      }
      var staged := StagedFile(j.preimage, claim, j.origin);
      var ready := marked.(staged := Some(staged));
      if Strikes(t, StagedSave) {
        if t.Crash? { return None, false; }
        r := ClassifyCurrent(ready);
        return;
      }
      r := Save(ready);
      file := Seen(file, world.beforeReplace);
      if Strikes(t, Replacing) {
        if t.Crash? { return None, false; }
        r := ClassifyCurrent(ready);
        return;
      }
      if !file.Json? {
        r := ClassifyCurrent(ready);
        return;
      }
      if file != j.preimage {
        r := Save(Review(ready, "settings_preimage_changed"));
        return;
      }
      file := staged;
      replaced := true;
      if Strikes(t, ReadBack) {
        if t.Crash? { return None, true; }
        r := ClassifyCurrent(ready);
        return;
      }
      file := Seen(file, world.afterReplace);
      if file != staged {
        r := Save(Review(ready, "settings_state_ambiguous"));
        return;
      }
      r := Save(Close(ready, JournalComplete, None, Some(claim.identity)));
    }

    /** The callback of a journaled attempt, and the claim it may have brought. */
    method Redeem(j: Journal, p: Payload, callback: Callback, writerBusy: bool, world: Foreign, t: Trouble)
      returns (r: Option<Report>, ghost replaced: bool)
      requires Sound(j) && j.state.RedemptionAttempted? && j.digest == p && p.Dispatch?
      modifies this
      ensures Valid()
      ensures replaced ==> callback == Answered(ExpectedClaim(p)) && !writerBusy && j.preimage.Json?
      ensures replaced && (world.afterReplace.None? || r.None?) ==> Enrolled(file, p, j.origin)
      ensures replaced && world == QUIET ==> old(file) == j.preimage && OthersUntouched(j.preimage, file)
      ensures !replaced && world == QUIET ==> file == old(file)
      ensures r.Some? && r.value.state.JournalComplete? ==> Enrolled(file, p, j.origin)
      ensures r.None? ==> journal.Some? && journal.value.request == p.request
                          && (journal.value.state.RedemptionAttempted? || journal.value.state.Applying?)
                          && (world == QUIET && journal.value.state.Applying? ==>
                                journal.value.origin == j.origin && Interrupted(journal.value, p, old(file), file, replaced))
      ensures callback.Died? ==> r.None? && file == old(file) && journal == Some(j)
      ensures callback.Failed? ==>
                file == old(file) && journal == Some(AfterFailure(j, callback.how)) && r == Some(ResultOf(AfterFailure(j, callback.how)))
      ensures callback.Answered? && callback.claim != ExpectedClaim(p) ==>
                file == old(file) && r == Some(ReviewReport(p.request, "claim_invalid"))
      ensures callback == Answered(ExpectedClaim(p)) && writerBusy ==>
                file == old(file) && r == Some(Report(p.request, JournalNeverApplied, Some("settings_writer_busy"), None))
      ensures callback == Answered(ExpectedClaim(p)) && !writerBusy && world == QUIET && j.preimage == old(file) && old(file).Json? ==>
                && (t.NoTrouble? ==> replaced && r == Some(Report(p.request, JournalComplete, None, Some(Identity("agent", p.siteId, p.siteName, p.target)))))
                && (t.Crash? ==> r.None? && journal.value.state.Applying?)
    {
      replaced := false;
      r := Save(j);
      match callback
      case Died => return None, false;
      case Failed(how) => r := Save(AfterFailure(j, how));
      case Answered(claim) =>
        if claim != ExpectedClaim(p) {
          r := Save(AfterFailure(j, BadClaim));
        } else if writerBusy {
          r := Save(WriterBusy(j));
        } else {
          r, replaced := ApplyClaim(j, world, t);
          if j.preimage.Json? { StagedIsEnrolled(j.preimage, p, j.origin); }
        }
    }

    /**
     One `/apply` call.  The file is only ever replaced after the redemption call answered exactly the
     claim this dispatch stands for, on a journal that was still waiting for it, and then holds the five
     values of this dispatch, the fifth being the origin this call resolved.
     */
    method Apply(p: Payload, env: Env, clock: Time, callback: Callback, writerBusy: bool, world: Foreign, t: Trouble)
      returns (r: Option<Report>, ghost replaced: bool)
      requires Valid()
      modifies this
      ensures Valid()
      ensures replaced ==> p.Dispatch? && callback == Answered(ExpectedClaim(p)) && !writerBusy && clock < p.expiresAt
                           && env.origin.Resolved? && Admit(old(journal), old(file), p, env, clock).Attempt?
      ensures replaced && (world.afterReplace.None? || r.None?) ==> Enrolled(file, p, env.origin.origin)
      ensures replaced && world == QUIET ==> old(file).Json? && OthersUntouched(old(file), file)
      ensures !replaced && world == QUIET ==> file == old(file)
      ensures Admit(old(journal), old(file), p, env, clock).Reply? ==>
                file == old(file) && r == Some(Admit(old(journal), old(file), p, env, clock).report)
                && journal == Admit(old(journal), old(file), p, env, clock).saved
      ensures r.None? ==> journal.Some? && journal.value.request == p.request
                          && (journal.value.state.RedemptionAttempted? || journal.value.state.Applying?)
                          && (world == QUIET && journal.value.state.Applying? ==>
                                p.Dispatch? && env.origin.Resolved? && journal.value.origin == env.origin.origin
                                && Interrupted(journal.value, p, old(file), file, replaced))
      ensures Admit(old(journal), old(file), p, env, clock).Attempt? ==>
                var j := Admit(old(journal), old(file), p, env, clock).journal;
                && p.Dispatch? && env.origin.Resolved?
                && (r.Some? && r.value.state.JournalComplete? ==> Enrolled(file, p, env.origin.origin))
                && (callback.Died? ==> r.None? && file == old(file) && journal == Some(j))
                && (callback.Failed? ==>
                      file == old(file) && journal == Some(AfterFailure(j, callback.how)) && r == Some(ResultOf(AfterFailure(j, callback.how))))
                && (callback.Answered? && callback.claim != ExpectedClaim(p) ==>
                      file == old(file) && r == Some(ReviewReport(p.request, "claim_invalid")))
                && (callback == Answered(ExpectedClaim(p)) && writerBusy ==>
                      file == old(file) && r == Some(Report(p.request, JournalNeverApplied, Some("settings_writer_busy"), None)))
                && (callback == Answered(ExpectedClaim(p)) && !writerBusy && world == QUIET && j.preimage == old(file) ==>
                      && (t.NoTrouble? ==> replaced && r == Some(Report(p.request, JournalComplete, None, Some(Identity("agent", p.siteId, p.siteName, p.target)))))
                      && (t.Crash? ==> r.None? && journal.value.state.Applying?))
    {
      hide Enrolled, OthersUntouched, AfterFailure;
      var admission := Admit(journal, file, p, env, clock);
      AdmissionIsSound(journal, file, p, env, clock);
      hide Admit;
      match admission
      case Reply(saved, report) =>
        journal := saved;
        r, replaced := Some(report), false;
      case Attempt(j) =>
        r, replaced := Redeem(j, p, callback, writerBusy, world, t);
    }

    method Status(request: RequestId, source: Option<string>, lockFree: bool, clock: Time) returns (r: Report)
      requires Valid()
      modifies this`journal
      ensures Valid()
      ensures journal != old(journal) ==>
                journal.Some? && old(journal).Some? && lockFree && source == Some(old(journal).value.address)
                && journal.value == Expire(old(journal).value, clock) && journal.value.state.JournalNeverApplied?
      ensures old(journal).Some? && lockFree && source == Some(old(journal).value.address) && old(journal).value.request == request
                && old(journal).value.state.RedemptionAttempted? && old(journal).value.expiresAt <= clock ==>
                journal != old(journal)
      ensures r == if journal.None? || journal.value.request != request then ReviewReport(request, "request_not_found")
                   else if source != Some(journal.value.address) then ReviewReport(request, "callback_source_mismatch")
                   else Report(request, journal.value.state, journal.value.error,
                               if journal.value.state.JournalComplete? then journal.value.identity else None)
    {
      if journal.None? || journal.value.request != request { return ReviewReport(request, "request_not_found"); }
      if source != Some(journal.value.address) { return ReviewReport(request, "callback_source_mismatch"); }
      if lockFree { journal := Some(Expire(journal.value, clock)); }
      r := ResultOf(journal.value);
    }

    /** Restart: an apply that was under way is classified, a waiting attempt past its deadline expires. */
    method Recover(clock: Time) returns (r: Option<Report>)
      requires Valid()
      modifies this`journal
      ensures Valid()
      ensures old(journal).None? <==> r.None?
      ensures old(journal).Some? ==>
                var j := old(journal).value;
                journal == Some(if j.state.Accepted? || j.state.Applying? then Classify(j, file) else Expire(j, clock))
                && r == Some(ResultOf(journal.value)) && !journal.value.state.Applying? && !journal.value.state.Accepted?
    {
      if journal.None? { return None; }
      var j := journal.value;
      if j.state.Accepted? || j.state.Applying? {
        ClassifyIsTruthful(j, file);
        r := ClassifyCurrent(j);
      } else {
        r := Save(Expire(j, clock));
      }
    }

    /**
     Crash-truthful apply: a crash anywhere after the claim was recorded, then a restart, with no
     foreign writer, ends as complete with the staged content or as never applied with the old one.
     */
    method CrashAndRestart(p: Payload, env: Env, clock: Time, t: Trouble, later: Time) returns (r: Option<Report>, ghost replaced: bool)
      requires Valid() && t.Crash? && p.Dispatch?
      modifies this
      ensures Valid()
      ensures Admit(old(journal), old(file), p, env, clock).Attempt? && Admit(old(journal), old(file), p, env, clock).journal.preimage == old(file) ==>
                && r.Some? && r.value.request == p.request
                && (r.value.state.JournalComplete? || r.value.state.JournalNeverApplied?)
                && env.origin.Resolved?
                && (r.value.state.JournalComplete? ==> Enrolled(file, p, env.origin.origin))
                && (r.value.state.JournalNeverApplied? ==> !replaced && file == old(file))
                && (replaced ==> r.value.state.JournalComplete? && old(file).Json? && OthersUntouched(old(file), file))
                && (!replaced ==> file == old(file))
    {
      hide Admit, StagedFile, HoldsIdentity, Enrolled, OthersUntouched;
      ghost var admission := Admit(journal, file, p, env, clock);
      r, replaced := Apply(p, env, clock, Answered(ExpectedClaim(p)), false, QUIET, t);
      if admission.Attempt? && admission.journal.preimage == old(file) {
        RestartDecides(journal.value, p, old(file), file, replaced);
      }
      r := Recover(later);
    }
  }

  /** The journal a crash leaves behind records both contents the file can have. */
  ghost predicate Interrupted(j: Journal, p: Payload, before: SettingsFile, after: SettingsFile, replaced: bool)
    requires p.Dispatch?
  {
    && j.claim == Some(ExpectedClaim(p)) && j.preimage == before && before.Json?
    && (if replaced then j.staged == Some(after) else after == before)
    && (j.staged.None? || j.staged == Some(StagedFile(before, ExpectedClaim(p), j.origin)))
  }

  /** From such a journal a restart tells which of the two the file holds, and complete means all five values are in it. */
  lemma RestartDecides(j: Journal, p: Payload, before: SettingsFile, after: SettingsFile, replaced: bool)
    requires p.Dispatch? && Interrupted(j, p, before, after, replaced)
    ensures var c := Classify(j, after);
            && c.request == j.request
            && (c.state.JournalComplete? || c.state.JournalNeverApplied?)
            && (c.state.JournalComplete? ==> Enrolled(after, p, j.origin))
            && (c.state.JournalNeverApplied? ==> !replaced && after == before)
            && (replaced ==> c.state.JournalComplete? && OthersUntouched(before, after))
            && (!replaced ==> after == before && (c.state.JournalComplete? <==> j.staged == Some(before)))
  {
    StagedIsEnrolled(before, p, j.origin);
  }

  lemma AdmissionIsSound(journal: Option<Journal>, f: SettingsFile, p: Payload, env: Env, clock: Time)
    requires journal.Some? ==> Sound(journal.value)
    ensures match Admit(journal, f, p, env, clock)
            case Reply(saved, _) => saved.Some? ==> Sound(saved.value)
            case Attempt(j) => Sound(j) && j.state.RedemptionAttempted? && j.request == p.request && j.digest == p
                               && p.Dispatch? && clock < p.expiresAt && f.Json? && env.origin.Resolved? && j.origin == env.origin.origin
                               && (j.preimage == f || (journal.Some? && j.preimage == journal.value.preimage))
  {
    hide StagedFile, DatabaseMode, ExpectedClaim;
  }
}

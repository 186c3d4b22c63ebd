/** Where the two models of a handling meet: a run of the lease protocol decides what its script says. */
module LeaseScripts {
  import opened Wrappers
  import opened LeaseProtocol
  import opened LeaseCases
  import ClaimedJobs

  predicate IsJoining(tm: Timing, steps: seq<Step>, i: nat) {
    && After(tm, steps).Some? && i < |After(tm, steps).value.runs|
    && After(tm, steps).value.runs[i].check.Joining?
  }

  /** A run can only wait for its join because its check has stopped. */
  lemma {:induction false} JoinFollowsStop(tm: Timing, steps: seq<Step>, i: nat) returns (n: nat, slotDenied: bool)
    requires IsJoining(tm, steps, i)
    ensures n < |steps| && steps[n] == Stop(i, slotDenied)
  {
    var init, last := steps[..|steps| - 1], steps[|steps| - 1];
    n, slotDenied := |init|, false;
    if last.Stop? && last.i == i {
      slotDenied := last.slotDenied;
    } else {
      JoiningStays(tm, After(tm, init).value, last, i);
      n, slotDenied := JoinFollowsStop(tm, init, i);
    }
  }

  lemma JoiningStays(tm: Timing, s: State, step: Step, i: nat)
    requires Enabled(tm, s, step) && !(step.Stop? && step.i == i)
    requires i < |Apply(tm, s, step).runs| && Apply(tm, s, step).runs[i].check.Joining?
    ensures i < |s.runs| && s.runs[i].check.Joining?
  {
  }

  /** What the join sees of the lease. */
  predicate LossSeen(s: State, i: nat)
    requires i < |s.runs|
  {
    s.runs[i].leaseLost || s.runs[i].expiresAt <= s.now
  }

  /** The world of the handling a run is part of: its slot, its cancellation and its lease as the execution
      had them, with the check and the requests as in `w`. */
  predicate WorldOf(tm: Timing, steps: seq<Step>, i: nat, n: nat, slotDenied: bool, w: ClaimedJobs.World) {
    && n < |steps| && steps[n] == Stop(i, slotDenied)
    && After(tm, steps[..n]).Some? && i < |After(tm, steps[..n]).value.runs|
    && After(tm, steps).Some? && i < |After(tm, steps).value.runs|
    && w.slotDenied == slotDenied
    && w.parentCanceled == After(tm, steps[..n]).value.runs[i].parentCancelled
    && w.leaseLost == LossSeen(After(tm, steps).value, i)
  }

  /** Every execution in which a run joins has such a world, whatever the check and the requests do. */
  lemma ExecutionHasWorld(tm: Timing, steps: seq<Step>, i: nat, w: ClaimedJobs.World)
    returns (n: nat, slotDenied: bool, v: ClaimedJobs.World)
    requires IsJoining(tm, steps, i)
    ensures WorldOf(tm, steps, i, n, slotDenied, v)
    ensures v == w.(slotDenied := v.slotDenied, parentCanceled := v.parentCanceled, leaseLost := v.leaseLost)
  {
    n, slotDenied := JoinFollowsStop(tm, steps, i);
    assert steps == steps[..n] + [Stop(i, slotDenied)] + steps[n + 1..];
    AfterPrefix(tm, steps[..n] + [Stop(i, slotDenied)], steps[n + 1..]);
    OneMore(tm, steps[..n], Stop(i, slotDenied));
    v := w.(slotDenied := slotDenied, parentCanceled := After(tm, steps[..n]).value.runs[i].parentCancelled,
            leaseLost := LossSeen(After(tm, steps).value, i));
  }

  predicate GivesUp(w: ClaimedJobs.World) {
    w.slotDenied || w.parentCanceled || w.leaseLost
  }

  lemma JoinDecides(tm: Timing, steps: seq<Step>, i: nat, n: nat, slotDenied: bool, w: ClaimedJobs.World)
    requires IsJoining(tm, steps, i) && WorldOf(tm, steps, i, n, slotDenied, w)
    requires After(tm, steps + [Join(i)]).Some?
    ensures i < |After(tm, steps + [Join(i)]).value.runs|
    ensures After(tm, steps + [Join(i)]).value.runs[i].check == if GivesUp(w) then Releasing else Completing
  {
    assert steps == steps[..n] + [Stop(i, slotDenied)] + steps[n + 1..];
    CompletedIff(tm, steps[..n], i, slotDenied, steps[n + 1..]);
    JoinEnds(tm, steps, i);
  }

  lemma JoinEnds(tm: Timing, steps: seq<Step>, i: nat)
    requires After(tm, steps + [Join(i)]).Some?
    ensures i < |After(tm, steps + [Join(i)]).value.runs|
    ensures var check := After(tm, steps + [Join(i)]).value.runs[i].check; check.Completing? || check.Releasing?
  {
    OneMore(tm, steps, Join(i));
  }

  lemma ScriptDecides(job: ClaimedJobs.ClaimedJob, w: ClaimedJobs.World)
    ensures ClaimedJobs.Guard(job, w.now).LetThrough? && !job.monitoring.maintenanceActive ==>
              && (ClaimedJobs.Completes(ClaimedJobs.JobScript(job, w)) <==> !GivesUp(w))
              && (ClaimedJobs.Releases(ClaimedJobs.JobScript(job, w)) <==> GivesUp(w))
  {
    ClaimedJobs.LetThroughIsValid(job, w.now);
    ClaimedJobs.CompletedIffReports(job, w);
    ClaimedJobs.ReleasedIffNotReports(job, w);
  }

  /** In every timed execution in which a run joins, and for every claimed job it may have been for: the run
      goes on to a completion exactly if the script of its handling completes the job, and to a release
      exactly if the script releases it. */
  lemma RunDoesItsScript(tm: Timing, steps: seq<Step>, i: nat, n: nat, slotDenied: bool,
                         job: ClaimedJobs.ClaimedJob, w: ClaimedJobs.World)
    requires IsJoining(tm, steps, i) && WorldOf(tm, steps, i, n, slotDenied, w)
    requires After(tm, steps + [Join(i)]).Some?
    requires ClaimedJobs.Guard(job, w.now).LetThrough? && !job.monitoring.maintenanceActive
    ensures i < |After(tm, steps + [Join(i)]).value.runs|
    ensures After(tm, steps + [Join(i)]).value.runs[i].check.Completing?
       <==> ClaimedJobs.Completes(ClaimedJobs.JobScript(job, w))
    ensures After(tm, steps + [Join(i)]).value.runs[i].check.Releasing?
       <==> ClaimedJobs.Releases(ClaimedJobs.JobScript(job, w))
  {
    JoinDecides(tm, steps, i, n, slotDenied, w);
    ScriptDecides(job, w);
  }
}

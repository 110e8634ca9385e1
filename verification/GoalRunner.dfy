/** The goal runner as an object: the stored goal's fields, its criteria engine and its loops. */
module GoalRunner {
  import opened Basics
  import opened Goal

  class Runner {
    const criteria: seq<Criterion>
    var status: GoalStatus
    var acGate: GateStatus
    var planGate: GateStatus
    var active: Option<nat>
    var acStatus: map<Id, AcStatus>
    var deferred: seq<Id>
    var tasks: seq<nat>
    var approvals: seq<Id>

    function View(): GoalState
      reads this
    {
      GoalState(status, acGate, planGate, active, acStatus, deferred, tasks, approvals)
    }

    constructor (criteria: seq<Criterion>)
      ensures this.criteria == criteria && View() == NEW_GOAL
    {
      this.criteria := criteria;
      status, acGate, planGate, active := Draft, GatePending, GatePending, None;
      acStatus, deferred, tasks, approvals := map[], [], [], [];
    }

    // -------------------------------------------------------------------
    // Policy
    // -------------------------------------------------------------------

    method TransitionStatus(to: GoalStatus) returns (moved: bool)
      modifies this`status, this`active
      ensures View() == SetStatus(old(View()), to) && moved == CanMove(old(status), to)
    {
      if status != to && to !in AllowedGoalMoves(status) {
        return false;
      }
      status := to;
      if to.Blocked? || to.Done? || to.Cancelled? {
        active := None;
      }
      moved := true;
    }

    /** The greatest work-task number in history, plus one. */
    method NextNumber() returns (n: nat)
      ensures n == Highest(tasks) + 1 && forall t :: t in tasks ==> t < n
    {
      var highest := 0;
      for i := 0 to |tasks|
        invariant highest == Highest(tasks[..i])
      {
        assert tasks[..i + 1][..i] == tasks[..i];
        if highest < tasks[i] {
          highest := tasks[i];
        }
      }
      assert tasks[..|tasks|] == tasks;
      HighestBounds(tasks);
      n := highest + 1;
    }

    method ClaimNextTask() returns (task: Option<nat>)
      modifies this`active, this`tasks, this`status
      ensures if old(active).Some? then task.None? && View() == old(View())
              else View() == Claim(old(View())) && task == active && task.Some? && task.value !in old(tasks)
    {
      var n := NextNumber();
      if active.Some? {
        return None;
      }
      ClaimedTaskIsNew(View());
      active := Some(n);
      tasks := tasks + [n];
      if status.Ready? {
        status := Running;
      }
      task := active;
    }

    method SetAcStatus(id: Id, s: AcStatus)
      modifies this`acStatus, this`approvals
      ensures View() == SetAc(old(View()), id, s)
    {
      acStatus := acStatus[id := s];
      if s.Verified? || s.HumanApproved? {
        approvals := approvals + [id];
      }
    }

    method DeferAcceptance(id: Id)
      modifies this`acStatus, this`deferred
      ensures View() == DeferAc(old(View()), id)
    {
      if id !in deferred {
        deferred := deferred + [id];
      }
      acStatus := acStatus[id := Deferred];
    }

    method ApproveGates(ac: bool, plan: bool)
      modifies this`acGate, this`planGate, this`status
      ensures View() == Step(criteria, old(View()), DoApprove(ac, plan))
    {
      if ac {
        acGate := Approved;
      }
      if plan {
        planGate := Approved;
      }
      RefreshFromGates();
    }

    method RejectGates()
      modifies this`acGate, this`planGate, this`status
      ensures View() == Step(criteria, old(View()), DoReject)
    {
      acGate, planGate := Rejected, Rejected;
      RefreshFromGates();
    }

    method RefreshFromGates()
      modifies this`status
      ensures View() == RefreshStatus(old(View()))
    {
      var approved := acGate.Approved? && planGate.Approved?;
      if approved && status.Draft? {
        status := Ready;
      } else if !approved && status.Ready? {
        status := Draft;
      }
    }

    method Cancel() returns (cancelled: bool)
      modifies this`status, this`active
      ensures View() == Step(criteria, old(View()), DoCancel)
    {
      cancelled := TransitionStatus(Cancelled);
    }

    // -------------------------------------------------------------------
    // Criteria engine
    // -------------------------------------------------------------------

    /** The first core criterion in file order that is open, checkable and has its dependencies. */
    method SelectCriterion() returns (selected: Option<Criterion>)
      ensures selected == Selected(criteria, acStatus)
    {
      assert criteria[0..] == criteria;
      for i := 0 to |criteria|
        invariant Selected(criteria, acStatus) == Selected(criteria[i..], acStatus)
      {
        assert criteria[i..][1..] == criteria[i + 1..];
        var criterion := criteria[i];
        if !criterion.core {
          continue;
        }
        var s := StatusOf(acStatus, criterion.id);
        if s.Verified? || s.HumanApproved? || s.Deferred? {
          continue;
        }
        if criterion.subjective || !criterion.hasCheck {
          continue;
        }
        if DependenciesSatisfied(acStatus, criterion) {
          return Some(criterion);
        }
      }
      selected := None;
    }

    method AllRequiredSatisfied() returns (all: bool)
      ensures all == AllSatisfied(criteria, acStatus)
    {
      if criteria == [] {
        return false;
      }
      for i := 0 to |criteria|
        invariant forall j :: 0 <= j < i && criteria[j].core ==> IsOK(acStatus, criteria[j].id)
      {
        var s := StatusOf(acStatus, criteria[i].id);
        if criteria[i].core && !(s.Verified? || s.HumanApproved?) {
          assert criteria[i] in criteria;
          return false;
        }
      }
      all := true;
    }

    method HasPendingSubjective() returns (some: bool)
      ensures some == exists c :: c in criteria && AwaitsSignoff(acStatus, c)
    {
      for i := 0 to |criteria|
        invariant forall j :: 0 <= j < i ==> !AwaitsSignoff(acStatus, criteria[j])
      {
        if AwaitsSignoff(acStatus, criteria[i]) {
          assert criteria[i] in criteria;
          return true;
        }
      }
      some := false;
    }

    method ProcessNoncoreCriteria(passes: Checks)
      modifies this`acStatus, this`deferred, this`approvals
      ensures View() == ProcessNoncore(old(View()), old(acStatus), criteria, passes)
    {
      ghost var start := View();
      var statuses := acStatus;
      for i := 0 to |criteria|
        invariant View() == ProcessNoncore(start, statuses, criteria[..i], passes)
      {
        assert criteria[..i + 1][..i] == criteria[..i];
        var criterion := criteria[i];
        var s := StatusOf(statuses, criterion.id);
        if criterion.core || s.Verified? || s.Deferred? {
          continue;
        }
        if !DependenciesSatisfied(acStatus, criterion) {
          continue;
        }
        if criterion.subjective || !criterion.hasCheck {
          DeferAcceptance(criterion.id);
          continue;
        }
        if passes(criterion.id) {
          SetAcStatus(criterion.id, Verified);
        } else {
          DeferAcceptance(criterion.id);
        }
      }
      assert criteria[..|criteria|] == criteria;
    }

    // -------------------------------------------------------------------
    // Runner
    // -------------------------------------------------------------------

    method FinishWith(to: GoalStatus, wanted: Outcome) returns (outcome: Outcome)
      modifies this`status, this`active
      ensures Worked(View(), outcome) == Finish(old(View()), to, wanted)
    {
      var moved := TransitionStatus(to);
      outcome := if moved then wanted else Refused;
    }

    method ConcludeWork(passes: Checks) returns (outcome: Outcome)
      modifies this`acStatus, this`deferred, this`approvals, this`status, this`active
      ensures Worked(View(), outcome) == Conclude(criteria, old(View()), passes)
    {
      hide SetStatus, CanMove, ProcessNoncore;
      ProcessNoncoreCriteria(passes);
      var all := AllRequiredSatisfied();
      if all {
        outcome := FinishWith(Done, NowDone);
        return;
      }
      var pending := HasPendingSubjective();
      if pending {
        outcome := FinishWith(Gated, SignoffRequired);
      } else {
        outcome := FinishWith(Blocked, ManualVerificationRequired);
      }
    }

    method Work(maxSteps: nat, round: nat -> Round) returns (outcome: Outcome)
      modifies this
      ensures Worked(View(), outcome) == Goal.Work(criteria, old(View()), maxSteps, round)
    {
      hide SetStatus, CanMove, ProcessNoncore, Conclude, AllSatisfied, Claim, Selected, IsEligible, SetAc, Finish, Highest;
      if status.Cancelled? {
        return GoalCancelled;
      }
      if !GatesApproved(View()) {
        return AwaitingGates;
      }
      if active.Some? {
        return TaskStillActive;
      }
      if status.Done? {
        return AlreadyDone;
      }
      ghost var start := View();
      var steps := 0;
      while steps < maxSteps
        invariant WorkLoop(criteria, start, 0, maxSteps, round) == WorkLoop(criteria, View(), steps, maxSteps, round)
        decreases maxSteps - steps
      {
        var now := round(steps);
        var selected := SelectCriterion();
        if selected.None? {
          outcome := ConcludeWork(now.passes);
          return;
        }
        var task := ClaimNextTask();
        if task.None? {
          return TaskStillActive;
        }
        if now.reply.DispatchFailed? {
          outcome := FinishWith(Blocked, BrokerBlocked);
          return;
        }
        active := None;
        if now.reply.BlockerReply? {
          outcome := FinishWith(Blocked, WorkerBlocked);
          return;
        }
        var passed := now.passes(selected.value.id);
        SetAcStatus(selected.value.id, if passed then Verified else Failed);
        if passed {
          ProcessNoncoreCriteria(now.passes);
          var all := AllRequiredSatisfied();
          if all {
            outcome := FinishWith(Done, NowDone);
            return;
          }
        }
        steps := steps + 1;
      }
      outcome := FinishWith(Blocked, CapReached);
    }

    /** Approve matching manual core criteria; nothing changes when one of them lacks a dependency. */
    method Signoff(which: Option<Id>) returns (accepted: bool)
      modifies this
      ensures View() == Goal.Signoff(criteria, old(View()), which)
    {
      ghost var start := View();
      if !(exists c :: c in criteria && IsSignable(View(), c, which)) {
        return false;
      }
      if exists c :: c in criteria && IsSignable(View(), c, which) && !DependenciesSatisfied(acStatus, c) {
        return false;
      }
      var before := View();
      for i := 0 to |criteria|
        invariant View() == ApproveAll(start, before, criteria[..i], which)
      {
        assert criteria[..i + 1][..i] == criteria[..i];
        if IsSignable(before, criteria[i], which) {
          SetAcStatus(criteria[i].id, HumanApproved);
        }
      }
      assert criteria[..|criteria|] == criteria;
      var all := AllRequiredSatisfied();
      accepted := true;
      if all {
        accepted := TransitionStatus(Done);
      }
    }
  }
}

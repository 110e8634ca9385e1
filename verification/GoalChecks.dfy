/** Every approval is earned: by a check that passed in some round, or by a sign-off that asked for it. */
module GoalChecks {
  import opened Basics
  import opened Goal

  // ---------------------------------------------------------------------
  // The pass over the non-core criteria
  // ---------------------------------------------------------------------

  /** What one pass may do to a criterion: verify it by a passing check, or defer it without one. */
  predicate PassMove(c: Criterion, before: AcStatus, after: AcStatus, passed: bool) {
    || after == before
    || (!c.core && !before.Verified? && !before.Deferred? &&
          after == if c.hasCheck && !c.subjective && passed then Verified else Deferred)
  }

  lemma {:induction false} PassMoves(criteria: seq<Criterion>, g: GoalState, k: nat, passes: Checks, c: Criterion)
    requires DistinctIds(criteria) && k <= |criteria| && c in criteria
    ensures var after := ProcessNoncore(g, g.acStatus, criteria[..k], passes).acStatus;
            && PassMove(c, StatusOf(g.acStatus, c.id), StatusOf(after, c.id), passes(c.id))
            && (c !in criteria[..k] ==> StatusOf(after, c.id) == StatusOf(g.acStatus, c.id))
  {
    if k > 0 {
      OneMoreProcessed(criteria, g, k, passes);
      hide ProcessNoncore, DependenciesSatisfied;
      assert criteria[..k] == criteria[..k - 1] + [criteria[k - 1]];
      var j :| 0 <= j < |criteria| && criteria[j] == c;
      PassMoves(criteria, g, k - 1, passes, c);
      assert j != k - 1 ==> criteria[k - 1].id != c.id;
      assert j == k - 1 ==> c !in criteria[..k - 1];
    }
  }

  predicate DependenciesAreIn(st: map<Id, AcStatus>, c: Criterion) {
    forall d :: d in c.dependsOn ==> StatusOf(st, d).Verified? || StatusOf(st, d).HumanApproved?
  }

  /** A pass leaves no non-core criterion open whose dependencies are in: it is verified or deferred. */
  lemma {:induction false} PassLeavesNoneOpen(criteria: seq<Criterion>, g: GoalState, k: nat, passes: Checks, c: Criterion)
    requires DistinctIds(criteria) && GoalInv(criteria, g) && k <= |criteria| && c in criteria[..k] && !c.core
    requires DependenciesAreIn(g.acStatus, c)
    ensures var after := StatusOf(ProcessNoncore(g, g.acStatus, criteria[..k], passes).acStatus, c.id); after.Verified? || after.Deferred?
  {
    OneMoreProcessed(criteria, g, k, passes);
    hide GoalInv, DependenciesAreIn, ProcessNoncore, DependenciesSatisfied;
    assert criteria[..k] == criteria[..k - 1] + [criteria[k - 1]];
    if c in criteria[..k - 1] {
      PassLeavesNoneOpen(criteria, g, k - 1, passes, c);
      var j :| 0 <= j < k - 1 && criteria[j] == c;
      assert criteria[k - 1].id != c.id;
    } else {
      hide DistinctIds, ProcessOne;
      ItsTurn(criteria, g, k, passes, c);
    }
  }

  /** At its own turn a criterion still has the status and the dependencies it had. */
  lemma ItsTurn(criteria: seq<Criterion>, g: GoalState, k: nat, passes: Checks, c: Criterion)
    requires DistinctIds(criteria) && GoalInv(criteria, g) && 0 < k <= |criteria| && c == criteria[k - 1] && c !in criteria[..k - 1] && !c.core
    requires DependenciesAreIn(g.acStatus, c)
    ensures var before := ProcessNoncore(g, g.acStatus, criteria[..k - 1], passes);
            var after := StatusOf(ProcessOne(before, g.acStatus, c, passes).acStatus, c.id); after.Verified? || after.Deferred?
  {
    hide GoalInv, DependenciesAreIn, ProcessNoncore, DependenciesSatisfied, DistinctIds;
    var before := ProcessNoncore(g, g.acStatus, criteria[..k - 1], passes);
    ProcessNoncoreKeeps(criteria, g, k - 1, passes);
    PassMoves(criteria, g, k - 1, passes, c);
    DependenciesIn(g.acStatus, c);
    StillSatisfied(criteria, g, before, c);
    NoncoreIsNotApproved(criteria, g, c);
  }

  lemma OneMoreProcessed(criteria: seq<Criterion>, g: GoalState, k: nat, passes: Checks)
    requires 0 < k <= |criteria|
    ensures ProcessNoncore(g, g.acStatus, criteria[..k], passes) ==
            ProcessOne(ProcessNoncore(g, g.acStatus, criteria[..k - 1], passes), g.acStatus, criteria[k - 1], passes)
  {
    assert criteria[..k][..k - 1] == criteria[..k - 1];
  }

  lemma DependenciesIn(st: map<Id, AcStatus>, c: Criterion)
    ensures DependenciesAreIn(st, c) <==> DependenciesSatisfied(st, c)
  {
  }

  lemma NoncoreIsNotApproved(criteria: seq<Criterion>, g: GoalState, c: Criterion)
    requires GoalInv(criteria, g) && c in criteria && !c.core
    ensures !StatusOf(g.acStatus, c.id).HumanApproved?
  {
  }

  // ---------------------------------------------------------------------
  // The work loop
  // ---------------------------------------------------------------------

  /**
   * Round `n` of a loop ran a check of the criterion and it passed; a core criterion was the one selected
   * after the rounds before, and its worker had replied.
   */
  predicate PassedIn(criteria: seq<Criterion>, g: GoalState, steps: nat, n: nat, round: nat -> Round, c: Criterion) {
    && steps <= n && c.hasCheck && !c.subjective && round(n).passes(c.id)
    && (c.core ==> round(n).reply.WorkReply? && Selected(criteria, WorkLoop(criteria, g, steps, n, round).goal.acStatus) == Some(c))
  }

  ghost predicate PassedBefore(criteria: seq<Criterion>, g: GoalState, steps: nat, maxSteps: nat, round: nat -> Round, c: Criterion) {
    exists n: nat :: n < maxSteps && PassedIn(criteria, g, steps, n, round, c)
  }

  /** A core criterion becomes verified by its passed check or else failed; another one verified or deferred. */
  ghost predicate WorkMove(c: Criterion, before: AcStatus, after: AcStatus, passed: bool) {
    || after == before
    || (!before.Verified? && passed && after.Verified?)
    || (!before.Verified? && !before.HumanApproved? && c.core && c.hasCheck && !c.subjective && after.Failed?)
    || (!before.Verified? && !c.core && after.Deferred?)
  }

  lemma PassedLater(criteria: seq<Criterion>, g: GoalState, h: GoalState, steps: nat, maxSteps: nat, round: nat -> Round, c: Criterion)
    requires PassedBefore(criteria, h, steps + 1, maxSteps, round, c)
    requires forall n :: n > steps ==> WorkLoop(criteria, g, steps, n, round) == WorkLoop(criteria, h, steps + 1, n, round)
    ensures PassedBefore(criteria, g, steps, maxSteps, round, c)
  {
    hide WorkLoop, Selected;
    var n: nat :| n < maxSteps && PassedIn(criteria, h, steps + 1, n, round, c);
    assert PassedIn(criteria, g, steps, n, round, c);
  }

  lemma {:induction false} LoopMoves(criteria: seq<Criterion>, g: GoalState, steps: nat, maxSteps: nat, round: nat -> Round, c: Criterion)
    requires DistinctIds(criteria) && c in criteria
    ensures WorkMove(c, StatusOf(g.acStatus, c.id), StatusOf(WorkLoop(criteria, g, steps, maxSteps, round).goal.acStatus, c.id),
                     PassedBefore(criteria, g, steps, maxSteps, round, c))
    decreases maxSteps - steps
  {
    hide DistinctIds, ProcessNoncore, AllSatisfied, DependenciesSatisfied, AwaitsSignoff, PassedBefore;
    if steps < maxSteps {
      var passes := round(steps).passes;
      var selected := Selected(criteria, g.acStatus);
      if selected.None? {
        PassMoves(criteria, g, |criteria|, passes, c);
        assert criteria[..|criteria|] == criteria;
        if !c.core && c.hasCheck && !c.subjective && passes(c.id) {
          NoncorePassedNow(criteria, g, steps, maxSteps, round, c);
        }
      } else if g.active.None? && round(steps).reply.WorkReply? {
        RoundMoves(criteria, g, selected.value, steps, maxSteps, round, c);
      }
    }
  }

  lemma NoncorePassedNow(criteria: seq<Criterion>, g: GoalState, steps: nat, maxSteps: nat, round: nat -> Round, c: Criterion)
    requires steps < maxSteps && !c.core && c.hasCheck && !c.subjective && round(steps).passes(c.id)
    ensures PassedBefore(criteria, g, steps, maxSteps, round, c)
  {
    hide WorkLoop, Selected;
    assert PassedIn(criteria, g, steps, steps, round, c);
  }

  /** The selected criterion of a round in which its worker replied and its check passed. */
  lemma SelectedPassedNow(criteria: seq<Criterion>, g: GoalState, steps: nat, maxSteps: nat, round: nat -> Round, c: Criterion)
    requires steps < maxSteps && Selected(criteria, g.acStatus) == Some(c) && round(steps).reply.WorkReply? && round(steps).passes(c.id)
    ensures PassedBefore(criteria, g, steps, maxSteps, round, c)
  {
    hide Selected;
    assert PassedIn(criteria, g, steps, steps, round, c);
  }

  lemma RoundMoves(criteria: seq<Criterion>, g: GoalState, selected: Criterion, steps: nat, maxSteps: nat, round: nat -> Round, c: Criterion)
    requires DistinctIds(criteria) && c in criteria && steps < maxSteps
    requires Selected(criteria, g.acStatus) == Some(selected) && g.active.None? && round(steps).reply.WorkReply?
    ensures WorkMove(c, StatusOf(g.acStatus, c.id), StatusOf(WorkLoop(criteria, g, steps, maxSteps, round).goal.acStatus, c.id),
                     PassedBefore(criteria, g, steps, maxSteps, round, c))
    decreases maxSteps - steps, 0
  {
    hide ProcessNoncore, AllSatisfied, DependenciesSatisfied, AwaitsSignoff, PassedBefore;
    var passes := round(steps).passes;
    var verified := Verify(CompleteTask(Claim(g)), selected, passes);
    if c.id == selected.id {
      SameIdSameCriterion(criteria, c, selected);
    }
    if c == selected && passes(c.id) {
      SelectedPassedNow(criteria, g, steps, maxSteps, round, c);
    }
    if !passes(selected.id) {
      LoopMoves(criteria, verified, steps + 1, maxSteps, round, c);
      if PassedBefore(criteria, verified, steps + 1, maxSteps, round, c) {
        PassedLater(criteria, g, verified, steps, maxSteps, round, c);
      }
    } else {
      var n := ProcessNoncore(verified, verified.acStatus, criteria, passes);
      PassMoves(criteria, verified, |criteria|, passes, c);
      assert criteria[..|criteria|] == criteria;
      if !c.core && c.hasCheck && !c.subjective && passes(c.id) {
        NoncorePassedNow(criteria, g, steps, maxSteps, round, c);
      }
      if !AllSatisfied(criteria, n.acStatus) {
        LoopMoves(criteria, n, steps + 1, maxSteps, round, c);
        if PassedBefore(criteria, n, steps + 1, maxSteps, round, c) {
          PassedLater(criteria, g, n, steps, maxSteps, round, c);
        }
      }
    }
  }

  lemma SameIdSameCriterion(criteria: seq<Criterion>, c: Criterion, d: Criterion)
    requires DistinctIds(criteria) && c in criteria && d in criteria && c.id == d.id
    ensures c == d
  {
  }

  /** Every core criterion is verified or approved, and there is one at all. */
  predicate CoreIsIn(criteria: seq<Criterion>, st: map<Id, AcStatus>) {
    criteria != [] && forall c :: c in criteria && c.core ==> StatusOf(st, c.id).Verified? || StatusOf(st, c.id).HumanApproved?
  }

  lemma CoreIn(criteria: seq<Criterion>, st: map<Id, AcStatus>)
    ensures CoreIsIn(criteria, st) <==> AllSatisfied(criteria, st)
  {
  }

  /** An open manual core criterion whose dependencies are in. */
  predicate WaitsForPerson(st: map<Id, AcStatus>, c: Criterion) {
    && c.core && (c.subjective || !c.hasCheck)
    && !StatusOf(st, c.id).Verified? && !StatusOf(st, c.id).HumanApproved? && DependenciesAreIn(st, c)
  }

  lemma WaitingForPerson(st: map<Id, AcStatus>, c: Criterion)
    ensures WaitsForPerson(st, c) <==> AwaitsSignoff(st, c)
  {
  }

  /** What round `n` does when it found nothing to select. */
  ghost predicate ConcludesRight(criteria: seq<Criterion>, before: map<Id, AcStatus>, r: Worked) {
    var after := r.goal.acStatus;
    && (forall c :: c in criteria && c.core ==> StatusOf(after, c.id) == StatusOf(before, c.id))
    && if CoreIsIn(criteria, after) then r.outcome.NowDone? && r.goal.status.Done?
       else if exists c :: c in criteria && WaitsForPerson(after, c) then r.outcome.SignoffRequired? && r.goal.status.Gated?
       else r.outcome.ManualVerificationRequired? && r.goal.status.Blocked?
  }

  /** What it does when it selected a criterion: only a completed work reply has the check decide it. */
  ghost predicate RoundsRight(criteria: seq<Criterion>, before: map<Id, AcStatus>, selected: Criterion, now: Round, r: Worked) {
    var after := r.goal.acStatus;
    match now.reply
    case DispatchFailed => after == before && r.outcome.BrokerBlocked? && r.goal.status.Blocked?
    case BlockerReply => after == before && r.outcome.WorkerBlocked? && r.goal.status.Blocked?
    case WorkReply =>
      && StatusOf(after, selected.id) == (if now.passes(selected.id) then Verified else Failed)
      && (forall c :: c in criteria && c.core && c != selected ==> StatusOf(after, c.id) == StatusOf(before, c.id))
      && (!now.passes(selected.id) ==> after == before[selected.id := Failed])
      && if now.passes(selected.id) && CoreIsIn(criteria, after) then r.outcome.NowDone? && r.goal.status.Done?
         else r.outcome.CapReached? && r.goal.status.Blocked?
  }

  /**
   * Round by round. If `n` rounds leave the loop at its cap, one round more selects the first open core
   * criterion that is checkable and has its dependencies, and its check alone decides its status; or it
   * selects none and the goal ends done, gated or blocked.
   */
  lemma {:induction false} LoopDecides(criteria: seq<Criterion>, g: GoalState, steps: nat, n: nat, round: nat -> Round)
    requires DistinctIds(criteria) && steps <= n && g.active.None? && !g.status.Draft?
    requires WorkLoop(criteria, g, steps, n, round).outcome.CapReached?
    ensures var before := WorkLoop(criteria, g, steps, n, round).goal.acStatus;
            var r := WorkLoop(criteria, g, steps, n + 1, round);
            match Selected(criteria, before)
            case None => ConcludesRight(criteria, before, r)
            case Some(c) => RoundsRight(criteria, before, c, round(n), r)
    decreases n - steps
  {
    hide DistinctIds, ProcessNoncore, AllSatisfied, DependenciesSatisfied, AwaitsSignoff, ConcludesRight, RoundsRight, Selected, Conclude;
    if steps == n {
      var selected := Selected(criteria, g.acStatus);
      assert WorkLoop(criteria, g, steps, n, round).goal.acStatus == g.acStatus;
      if selected.None? {
        ConcludeDecides(criteria, g, round(n).passes);
      } else {
        SelectedIsCore(criteria, g.acStatus);
        RoundDecides(criteria, g, selected.value, n, round);
      }
    } else {
      var selected := Selected(criteria, g.acStatus);
      ConcludingIsNoCap(criteria, g, round(steps).passes);
      var verified := Verify(CompleteTask(Claim(g)), selected.value, round(steps).passes);
      var m := ProcessNoncore(verified, verified.acStatus, criteria, round(steps).passes);
      PassKeepsRest(criteria, verified, round(steps).passes);
      LoopDecides(criteria, if round(steps).passes(selected.value.id) then m else verified, steps + 1, n, round);
    }
  }

  lemma SelectedIsCore(criteria: seq<Criterion>, st: map<Id, AcStatus>)
    ensures var s := Selected(criteria, st); s.Some? ==> s.value in criteria && s.value.core
  {
  }

  lemma ConcludingIsNoCap(criteria: seq<Criterion>, g: GoalState, passes: Checks)
    ensures !Conclude(criteria, g, passes).outcome.CapReached?
  {
    hide ProcessNoncore, AllSatisfied, AwaitsSignoff;
  }

  lemma PassKeepsRest(criteria: seq<Criterion>, g: GoalState, passes: Checks)
    ensures var n := ProcessNoncore(g, g.acStatus, criteria, passes); n.status == g.status && n.active == g.active
  {
    PartPassKeepsRest(g, g.acStatus, criteria, passes);
  }

  lemma {:induction false} PartPassKeepsRest(g: GoalState, before: map<Id, AcStatus>, part: seq<Criterion>, passes: Checks)
    ensures var n := ProcessNoncore(g, before, part, passes); n.status == g.status && n.active == g.active
  {
    hide DependenciesSatisfied;
    if part != [] {
      PartPassKeepsRest(g, before, part[..|part| - 1], passes);
    }
  }

  lemma CorePassesBy(criteria: seq<Criterion>, g: GoalState, passes: Checks)
    requires DistinctIds(criteria)
    ensures var n := ProcessNoncore(g, g.acStatus, criteria, passes);
            forall c :: c in criteria && c.core ==> StatusOf(n.acStatus, c.id) == StatusOf(g.acStatus, c.id)
  {
    hide DistinctIds, ProcessNoncore;
    assert criteria[..|criteria|] == criteria;
    forall c | c in criteria && c.core
      ensures StatusOf(ProcessNoncore(g, g.acStatus, criteria, passes).acStatus, c.id) == StatusOf(g.acStatus, c.id)
    {
      PassMoves(criteria, g, |criteria|, passes, c);
    }
  }

  lemma ConcludeDecides(criteria: seq<Criterion>, g: GoalState, passes: Checks)
    requires DistinctIds(criteria) && CanMove(g.status, Blocked) && !g.status.Draft?
    ensures ConcludesRight(criteria, g.acStatus, Conclude(criteria, g, passes))
  {
    hide DistinctIds, ProcessNoncore, AllSatisfied, CoreIsIn, AwaitsSignoff, WaitsForPerson;
    CorePassesBy(criteria, g, passes);
    PassKeepsRest(criteria, g, passes);
    var n := ProcessNoncore(g, g.acStatus, criteria, passes);
    CoreIn(criteria, n.acStatus);
    forall c
      ensures WaitsForPerson(n.acStatus, c) <==> AwaitsSignoff(n.acStatus, c)
    {
      WaitingForPerson(n.acStatus, c);
    }
  }

  lemma RoundDecides(criteria: seq<Criterion>, g: GoalState, c: Criterion, n: nat, round: nat -> Round)
    requires DistinctIds(criteria) && CanMove(g.status, Blocked) && !g.status.Draft? && g.active.None?
    requires Selected(criteria, g.acStatus) == Some(c) && c in criteria && c.core
    ensures RoundsRight(criteria, g.acStatus, c, round(n), WorkLoop(criteria, g, n, n + 1, round))
  {
    hide DistinctIds, ProcessNoncore, AllSatisfied, CoreIsIn, Verify, Selected;
    if round(n).reply.WorkReply? {
      ReplyDecides(criteria, CompleteTask(Claim(g)), c, round(n).passes);
    }
  }

  /** One completed work reply: the check, and the pass after it. */
  lemma ReplyDecides(criteria: seq<Criterion>, g: GoalState, c: Criterion, passes: Checks)
    requires DistinctIds(criteria) && c in criteria && c.core
    ensures var verified := Verify(g, c, passes);
            var n := ProcessNoncore(verified, verified.acStatus, criteria, passes);
            && verified.acStatus == g.acStatus[c.id := if passes(c.id) then Verified else Failed]
            && verified.status == g.status == n.status
            && (AllSatisfied(criteria, n.acStatus) <==> CoreIsIn(criteria, n.acStatus))
            && StatusOf(n.acStatus, c.id) == StatusOf(verified.acStatus, c.id)
            && (forall d :: d in criteria && d.core && d != c ==>
                  StatusOf(verified.acStatus, d.id) == StatusOf(n.acStatus, d.id) == StatusOf(g.acStatus, d.id))
  {
    hide DistinctIds, ProcessNoncore, AllSatisfied, CoreIsIn;
    var verified := Verify(g, c, passes);
    var n := ProcessNoncore(verified, verified.acStatus, criteria, passes);
    CorePassesBy(criteria, verified, passes);
    PassKeepsRest(criteria, verified, passes);
    CoreIn(criteria, n.acStatus);
    forall d | d in criteria && d.core && d != c
      ensures d.id != c.id
    {
      if d.id == c.id {
        SameIdSameCriterion(criteria, d, c);
      }
    }
  }

  /** Selection takes the first criterion in file order that is core, checkable, open and has its dependencies in. */
  lemma {:induction false} SelectedIsFirst(criteria: seq<Criterion>, st: map<Id, AcStatus>)
    ensures match Selected(criteria, st)
            case None => forall c :: c in criteria ==> !CanBeSelected(st, c)
            case Some(c) => exists i :: 0 <= i < |criteria| && criteria[i] == c && CanBeSelected(st, c)
                                        && forall j :: 0 <= j < i ==> !CanBeSelected(st, criteria[j])
  {
    if criteria != [] {
      DependenciesIn(st, criteria[0]);
      hide DependenciesAreIn, DependenciesSatisfied;
      var rest := criteria[1..];
      SelectedIsFirst(rest, st);
      if CanBeSelected(st, criteria[0]) {
        assert Selected(criteria, st) == Some(criteria[0]);
      } else {
        assert Selected(criteria, st) == Selected(rest, st);
        hide CanBeSelected, Selected;
        assert criteria == [criteria[0]] + rest;
        if Selected(rest, st).Some? {
          var i :| 0 <= i < |rest| && rest[i] == Selected(rest, st).value && forall j :: 0 <= j < i ==> !CanBeSelected(st, rest[j]);
          assert criteria[i + 1] == rest[i];
        }
      }
    }
  }

  predicate CanBeSelected(st: map<Id, AcStatus>, c: Criterion) {
    && c.core && c.hasCheck && !c.subjective && DependenciesAreIn(st, c)
    && !StatusOf(st, c.id).Verified? && !StatusOf(st, c.id).HumanApproved? && !StatusOf(st, c.id).Deferred?
  }

  // ---------------------------------------------------------------------
  // Whole runs
  // ---------------------------------------------------------------------

  /** Round `n` of call `i` ran the criterion's check and it passed; a core one was then the one selected. */
  predicate PassedAt(criteria: seq<Criterion>, ops: seq<GoalOp>, i: nat, n: nat, c: Criterion) {
    && i < |ops| && ops[i].DoWork? && n < ops[i].maxSteps && ops[i].round(n).passes(c.id)
    && (c.core ==>
          && ops[i].round(n).reply.WorkReply?
          && Selected(criteria, Work(criteria, RunGoal(criteria, ops[..i]), n, ops[i].round).goal.acStatus) == Some(c))
  }

  predicate SignedAt(ops: seq<GoalOp>, i: nat, id: Id) {
    i < |ops| && ops[i].DoSignoff? && (ops[i].which.None? || ops[i].which == Some(id))
  }

  ghost predicate HasPassed(criteria: seq<Criterion>, ops: seq<GoalOp>, c: Criterion) {
    exists i: nat, n: nat :: PassedAt(criteria, ops, i, n, c)
  }

  ghost predicate WasSigned(ops: seq<GoalOp>, id: Id) {
    exists i: nat :: SignedAt(ops, i, id)
  }

  lemma EarnedStays(criteria: seq<Criterion>, ops: seq<GoalOp>, c: Criterion)
    requires ops != []
    ensures HasPassed(criteria, ops[..|ops| - 1], c) ==> HasPassed(criteria, ops, c)
    ensures WasSigned(ops[..|ops| - 1], c.id) ==> WasSigned(ops, c.id)
  {
    hide RunGoal, Work, Selected;
    var before := ops[..|ops| - 1];
    if HasPassed(criteria, before, c) {
      var i: nat, n: nat :| PassedAt(criteria, before, i, n, c);
      assert before[..i] == ops[..i];
      assert PassedAt(criteria, ops, i, n, c);
    }
    if WasSigned(before, c.id) {
      var i: nat :| SignedAt(before, i, c.id);
      assert SignedAt(ops, i, c.id);
    }
  }

  /** A work call verifies nothing but what a check of it passed. */
  lemma WorkEarns(criteria: seq<Criterion>, ops: seq<GoalOp>, c: Criterion)
    requires DistinctIds(criteria) && c in criteria && ops != [] && ops[|ops| - 1].DoWork?
    ensures var before := StatusOf(RunGoal(criteria, ops[..|ops| - 1]).acStatus, c.id);
            var after := StatusOf(RunGoal(criteria, ops).acStatus, c.id);
            && (after.Verified? && !before.Verified? ==> c.hasCheck && !c.subjective && HasPassed(criteria, ops, c))
            && (after.HumanApproved? ==> before.HumanApproved?)
  {
    hide DistinctIds, WorkLoop, Selected;
    var last, g := ops[|ops| - 1], RunGoal(criteria, ops[..|ops| - 1]);
    LoopMoves(criteria, g, 0, last.maxSteps, last.round, c);
    if PassedBefore(criteria, g, 0, last.maxSteps, last.round, c) {
      var n: nat :| n < last.maxSteps && PassedIn(criteria, g, 0, n, last.round, c);
      if RunGoal(criteria, ops) != g {
        assert PassedAt(criteria, ops, |ops| - 1, n, c);
      }
    }
  }

  /** A sign-off approves only manual core criteria it asks for. */
  lemma SignoffEarns(criteria: seq<Criterion>, ops: seq<GoalOp>, c: Criterion)
    requires DistinctIds(criteria) && c in criteria && ops != [] && ops[|ops| - 1].DoSignoff?
    ensures var before := StatusOf(RunGoal(criteria, ops[..|ops| - 1]).acStatus, c.id);
            var after := StatusOf(RunGoal(criteria, ops).acStatus, c.id);
            || after == before
            || (after.HumanApproved? && c.core && (c.subjective || !c.hasCheck) && WasSigned(ops, c.id))
  {
    hide Signoff, DependenciesSatisfied;
    var g := RunGoal(criteria, ops[..|ops| - 1]);
    var which := ops[|ops| - 1].which;
    SignoffDecides(criteria, g, which, c.id);
    if exists d :: d in criteria && IsSignable(g, d, which) && d.id == c.id {
      var d :| d in criteria && IsSignable(g, d, which) && d.id == c.id;
      SameIdSameCriterion(criteria, c, d);
      assert SignedAt(ops, |ops| - 1, c.id);
    }
  }

  /**
   * Every approval is earned. In every reachable goal a verified criterion has a check and that check
   * passed in some round, in which a core criterion was the one selected and its worker had replied; an
   * approved one is a manual core criterion that a sign-off asked for.
   */
  lemma {:induction false} EveryApprovalIsEarned(criteria: seq<Criterion>, ops: seq<GoalOp>, c: Criterion)
    requires DistinctIds(criteria) && c in criteria
    ensures var s := StatusOf(RunGoal(criteria, ops).acStatus, c.id);
            && (s.Verified? ==> c.hasCheck && !c.subjective && HasPassed(criteria, ops, c))
            && (s.HumanApproved? ==> c.core && (c.subjective || !c.hasCheck) && WasSigned(ops, c.id))
  {
    if ops != [] {
      hide DistinctIds, Work, Signoff, HasPassed, WasSigned;
      var last := ops[|ops| - 1];
      EveryApprovalIsEarned(criteria, ops[..|ops| - 1], c);
      EarnedStays(criteria, ops, c);
      match last {
        case DoWork(_, _) => hide RunGoal; WorkEarns(criteria, ops, c);
        case DoSignoff(_) => hide RunGoal; SignoffEarns(criteria, ops, c);
        case _ =>
      }
    }
  }

  /** So a checkable core criterion whose check fails in every round is never approved, and its goal is never done. */
  lemma FailingCheckIsNeverDone(criteria: seq<Criterion>, ops: seq<GoalOp>, c: Criterion)
    requires DistinctIds(criteria) && c in criteria && c.core && c.hasCheck && !c.subjective
    requires forall i, n: nat :: 0 <= i < |ops| && ops[i].DoWork? && n < ops[i].maxSteps ==> !ops[i].round(n).passes(c.id)
    ensures var g := RunGoal(criteria, ops);
            !StatusOf(g.acStatus, c.id).Verified? && !StatusOf(g.acStatus, c.id).HumanApproved? && !g.status.Done?
  {
    hide RunGoal, DistinctIds, ApprovedInOrder;
    EveryApprovalIsEarned(criteria, ops, c);
    RunKeepsGoalInv(criteria, ops);
  }

  /** A done goal has criteria, and each core one passed its check or was signed off. */
  lemma DoneIsEarned(criteria: seq<Criterion>, ops: seq<GoalOp>, c: Criterion)
    requires DistinctIds(criteria) && RunGoal(criteria, ops).status.Done?
    ensures criteria != []
    ensures c in criteria && c.core ==>
              || (c.hasCheck && !c.subjective && HasPassed(criteria, ops, c))
              || ((c.subjective || !c.hasCheck) && WasSigned(ops, c.id))
  {
    hide RunGoal, DistinctIds, ApprovedInOrder, HasPassed, WasSigned;
    RunKeepsGoalInv(criteria, ops);
    if c in criteria && c.core {
      EveryApprovalIsEarned(criteria, ops, c);
    }
  }

  // ---------------------------------------------------------------------
  // The ends of a goal
  // ---------------------------------------------------------------------

  /**
   * A sign-off ends the goal exactly when it approves something, all core criteria are in afterwards, and
   * the goal is past draft and not cancelled; else its status stays.
   */
  lemma SignoffEndsGoalIff(criteria: seq<Criterion>, g: GoalState, which: Option<Id>)
    ensures var n := Signoff(criteria, g, which);
            var asked := set c | c in criteria && c.core && (c.subjective || !c.hasCheck) && !StatusOf(g.acStatus, c.id).Verified?
                                 && (which.None? || which == Some(c.id));
            n.status == if asked != {} && (forall c :: c in asked ==> DependenciesAreIn(g.acStatus, c)) && CoreIsIn(criteria, n.acStatus)
                           && !g.status.Draft? && !g.status.Cancelled?
                        then Done else g.status
  {
    hide DependenciesAreIn, DependenciesSatisfied, CoreIsIn, AllSatisfied, ApproveAll;
    forall c
      ensures DependenciesAreIn(g.acStatus, c) <==> DependenciesSatisfied(g.acStatus, c)
    {
      DependenciesIn(g.acStatus, c);
    }
    var asked := set c | c in criteria && c.core && (c.subjective || !c.hasCheck) && !StatusOf(g.acStatus, c.id).Verified?
                         && (which.None? || which == Some(c.id));
    assert forall c :: c in asked <==> c in criteria && IsSignable(g, c, which);
    CoreIn(criteria, ApproveAll(g, g, criteria, which).acStatus);
    ApprovingKeepsStatus(g, g, criteria, which);
  }

  lemma {:induction false} ApprovingKeepsStatus(g: GoalState, start: GoalState, part: seq<Criterion>, which: Option<Id>)
    ensures ApproveAll(g, start, part, which).status == g.status
    decreases |part|
  {
    hide IsSignable;
    if part != [] {
      ApprovingKeepsStatus(g, start, part[..|part| - 1], which);
    }
  }

  /** Done and cancelled are final. */
  lemma {:induction false} EndedGoalsStay(criteria: seq<Criterion>, ops: seq<GoalOp>, n: nat)
    requires n <= |ops| && (RunGoal(criteria, ops[..n]).status.Done? || RunGoal(criteria, ops[..n]).status.Cancelled?)
    ensures RunGoal(criteria, ops).status == RunGoal(criteria, ops[..n]).status
    decreases |ops|
  {
    if n == |ops| {
      assert ops[..n] == ops;
    } else {
      var before, last := ops[..|ops| - 1], ops[|ops| - 1];
      assert before[..n] == ops[..n];
      EndedGoalsStay(criteria, before, n);
      hide WorkLoop, Signoff;
      if last.DoSignoff? {
        SignoffEndsGoalIff(criteria, RunGoal(criteria, before), last.which);
      }
    }
  }

  /** Work does nothing before both gates are approved, while a task is active, or once the goal has ended. */
  lemma WorkNeedsGates(criteria: seq<Criterion>, g: GoalState, maxSteps: nat, round: nat -> Round)
    requires g.status.Cancelled? || g.acGate != Approved || g.planGate != Approved || g.active.Some? || g.status.Done?
    ensures var r := Work(criteria, g, maxSteps, round);
            r.goal == g && r.outcome == if g.status.Cancelled? then GoalCancelled
                                        else if g.acGate != Approved || g.planGate != Approved then AwaitingGates
                                        else if g.active.Some? then TaskStillActive
                                        else AlreadyDone
  {
  }

  /** What one round more of a work call does, from every goal a run leads to. */
  lemma WorkDecides(criteria: seq<Criterion>, ops: seq<GoalOp>, n: nat, round: nat -> Round)
    requires DistinctIds(criteria) && Work(criteria, RunGoal(criteria, ops), n, round).outcome.CapReached?
    ensures var g := RunGoal(criteria, ops);
            var before := Work(criteria, g, n, round).goal.acStatus;
            var r := Work(criteria, g, n + 1, round);
            match Selected(criteria, before)
            case None => ConcludesRight(criteria, before, r)
            case Some(c) => RoundsRight(criteria, before, c, round(n), r)
  {
    hide RunGoal, WorkLoop, Selected, ConcludesRight, RoundsRight, DistinctIds, CoreUndeferred;
    RunRests(criteria, ops);
    LoopDecides(criteria, RunGoal(criteria, ops), 0, n, round);
  }

  /** Without a round to take, a call stops at its cap at once, whatever runs led here. */
  lemma WorkStartsAtCap(criteria: seq<Criterion>, ops: seq<GoalOp>, round: nat -> Round)
    requires DistinctIds(criteria)
    requires var g := RunGoal(criteria, ops); g.acGate.Approved? && g.planGate.Approved? && !g.status.Cancelled? && !g.status.Done?
    ensures var g := RunGoal(criteria, ops);
            var r := Work(criteria, g, 0, round);
            r.outcome.CapReached? && r.goal == g.(status := Blocked)
  {
    hide RunGoal, DistinctIds, CoreUndeferred;
    RunRests(criteria, ops);
  }

  /** Between calls no task is active, and each work task of the goal has a greater number than those before it. */
  lemma {:induction false} TaskNumbersRise(criteria: seq<Criterion>, ops: seq<GoalOp>, i: nat, j: nat)
    requires DistinctIds(criteria) && i < j < |RunGoal(criteria, ops).tasks|
    ensures RunGoal(criteria, ops).active.None? && RunGoal(criteria, ops).tasks[i] < RunGoal(criteria, ops).tasks[j]
    decreases |ops|
  {
    hide DistinctIds, GoalInv, CoreUndeferred, WorkLoop, ApproveAll;
    RunRests(criteria, ops);
    RunKeepsRising(criteria, ops);
  }

  ghost predicate AreRising(tasks: seq<nat>) {
    forall i, j :: 0 <= i < j < |tasks| ==> tasks[i] < tasks[j]
  }

  lemma {:induction false} RunKeepsRising(criteria: seq<Criterion>, ops: seq<GoalOp>)
    ensures AreRising(RunGoal(criteria, ops).tasks)
  {
    hide WorkLoop, ApproveAll, AreRising;
    if ops == [] {
      assert AreRising([]) by { NoTasksRise(); }
    } else {
      var before, last := RunGoal(criteria, ops[..|ops| - 1]), ops[|ops| - 1];
      RunKeepsRising(criteria, ops[..|ops| - 1]);
      match last {
        case DoWork(maxSteps, round) => LoopKeepsRising(criteria, before, 0, maxSteps, round);
        case DoSignoff(which) => ApprovingKeepsTasks(before, before, criteria, which);
        case _ =>
      }
    }
  }

  lemma NoTasksRise()
    ensures AreRising([])
  {
  }

  lemma {:induction false} ApprovingKeepsTasks(g: GoalState, start: GoalState, part: seq<Criterion>, which: Option<Id>)
    ensures ApproveAll(g, start, part, which).tasks == g.tasks
    decreases |part|
  {
    hide IsSignable;
    if part != [] {
      ApprovingKeepsTasks(g, start, part[..|part| - 1], which);
    }
  }

  lemma {:induction false} PassKeepsTasks(g: GoalState, before: map<Id, AcStatus>, part: seq<Criterion>, passes: Checks)
    ensures ProcessNoncore(g, before, part, passes).tasks == g.tasks
  {
    hide DependenciesSatisfied;
    if part != [] {
      PassKeepsTasks(g, before, part[..|part| - 1], passes);
    }
  }

  lemma ClaimRises(g: GoalState)
    requires AreRising(g.tasks)
    ensures AreRising(Claim(g).tasks) && |Claim(g).tasks| == |g.tasks| + 1
  {
    HighestBounds(g.tasks);
  }

  lemma {:induction false} LoopKeepsRising(criteria: seq<Criterion>, g: GoalState, steps: nat, maxSteps: nat, round: nat -> Round)
    requires AreRising(g.tasks)
    ensures AreRising(WorkLoop(criteria, g, steps, maxSteps, round).goal.tasks)
    decreases maxSteps - steps
  {
    hide ProcessNoncore, AllSatisfied, AwaitsSignoff, AreRising, Claim, Selected;
    if steps < maxSteps {
      PassKeepsTasks(g, g.acStatus, criteria, round(steps).passes);
      if Selected(criteria, g.acStatus).Some? && g.active.None? {
        ClaimRises(g);
        var verified := Verify(CompleteTask(Claim(g)), Selected(criteria, g.acStatus).value, round(steps).passes);
        var n := ProcessNoncore(verified, verified.acStatus, criteria, round(steps).passes);
        PassKeepsTasks(verified, verified.acStatus, criteria, round(steps).passes);
        if round(steps).reply.WorkReply? {
          LoopKeepsRising(criteria, verified, steps + 1, maxSteps, round);
          LoopKeepsRising(criteria, n, steps + 1, maxSteps, round);
        }
      }
    }
  }

  /** A gate call sets the gates it names: approving both readies a draft, rejecting returns a ready goal to draft. */
  lemma GatesDecide(criteria: seq<Criterion>, g: GoalState, ac: bool, plan: bool)
    ensures var n := Step(criteria, g, DoApprove(ac, plan));
            && n.acGate == (if ac then Approved else g.acGate) && n.planGate == (if plan then Approved else g.planGate)
            && (n.acGate.Approved? && n.planGate.Approved? ==> n.status == if g.status.Draft? then Ready else g.status)
            && (!(n.acGate.Approved? && n.planGate.Approved?) ==> n.status == if g.status.Ready? then Draft else g.status)
            && n == g.(acGate := n.acGate, planGate := n.planGate, status := n.status)
    ensures Step(criteria, g, DoReject) == g.(acGate := Rejected, planGate := Rejected, status := if g.status.Ready? then Draft else g.status)
  {
  }

  /** A cancel ends every goal that is not done, and no task of it stays active. */
  lemma CancelEndsGoal(criteria: seq<Criterion>, g: GoalState)
    ensures var n := Step(criteria, g, DoCancel);
            if g.status.Done? then n.status.Done? && n.acStatus == g.acStatus
            else n == g.(status := Cancelled, active := None)
  {
  }

  /** Every deferred criterion is on the goal's list of deferred ones. */
  ghost predicate DeferredAreListed(g: GoalState) {
    forall id :: StatusOf(g.acStatus, id).Deferred? ==> id in g.deferred
  }

  lemma {:induction false} PassLists(g: GoalState, before: map<Id, AcStatus>, part: seq<Criterion>, passes: Checks)
    requires DeferredAreListed(g)
    ensures DeferredAreListed(ProcessNoncore(g, before, part, passes))
  {
    hide DependenciesSatisfied;
    if part != [] {
      PassLists(g, before, part[..|part| - 1], passes);
    }
  }

  lemma {:induction false} ApprovingLists(g: GoalState, start: GoalState, part: seq<Criterion>, which: Option<Id>)
    requires DeferredAreListed(g)
    ensures DeferredAreListed(ApproveAll(g, start, part, which))
    decreases |part|
  {
    hide IsSignable;
    if part != [] {
      ApprovingLists(g, start, part[..|part| - 1], which);
    }
  }

  lemma VerifyLists(g: GoalState, c: Criterion, passes: Checks)
    requires DeferredAreListed(g)
    ensures DeferredAreListed(Verify(g, c, passes))
  {
  }

  lemma {:induction false} LoopLists(criteria: seq<Criterion>, g: GoalState, steps: nat, maxSteps: nat, round: nat -> Round)
    requires DeferredAreListed(g)
    ensures DeferredAreListed(WorkLoop(criteria, g, steps, maxSteps, round).goal)
    decreases maxSteps - steps
  {
    SameCriteriaList(g, Claim(g));
    hide ProcessNoncore, AllSatisfied, AwaitsSignoff, Selected, Verify;
    if steps < maxSteps {
      PassLists(g, g.acStatus, criteria, round(steps).passes);
      if Selected(criteria, g.acStatus).Some? && g.active.None? && round(steps).reply.WorkReply? {
        var verified := Verify(CompleteTask(Claim(g)), Selected(criteria, g.acStatus).value, round(steps).passes);
        VerifyLists(CompleteTask(Claim(g)), Selected(criteria, g.acStatus).value, round(steps).passes);
        PassLists(verified, verified.acStatus, criteria, round(steps).passes);
        LoopLists(criteria, verified, steps + 1, maxSteps, round);
        LoopLists(criteria, ProcessNoncore(verified, verified.acStatus, criteria, round(steps).passes), steps + 1, maxSteps, round);
      }
    }
  }

  lemma SameCriteriaList(g: GoalState, n: GoalState)
    requires DeferredAreListed(g) && n.acStatus == g.acStatus && n.deferred == g.deferred
    ensures DeferredAreListed(n)
  {
  }

  lemma {:induction false} RunListsDeferred(criteria: seq<Criterion>, ops: seq<GoalOp>)
    ensures DeferredAreListed(RunGoal(criteria, ops))
  {
    if ops != [] {
      var before, last := RunGoal(criteria, ops[..|ops| - 1]), ops[|ops| - 1];
      RunListsDeferred(criteria, ops[..|ops| - 1]);
      hide WorkLoop, ApproveAll, AllSatisfied, IsSignable, DependenciesSatisfied;
      match last {
        case DoWork(maxSteps, round) => LoopLists(criteria, before, 0, maxSteps, round);
        case DoSignoff(which) => ApprovingLists(before, before, criteria, which);
        case _ =>
      }
    }
  }
}

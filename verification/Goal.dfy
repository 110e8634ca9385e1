/** Goal Mode: criteria, their verification in dependency order, and the bounded work loop. */
module Goal {
  import opened Basics

  type Id = string

  datatype AcStatus = Pending | Verified | Failed | Deferred | HumanApproved

  datatype GoalStatus = Draft | Ready | Running | Gated | Blocked | Done | Cancelled

  datatype GateStatus = GatePending | Approved | Rejected

  datatype Criterion = Criterion(id: Id, core: bool, subjective: bool, hasCheck: bool, dependsOn: seq<Id>)

  /**
   * The stored goal. `tasks` are the numbers of the work tasks its history names, `approvals` the
   * criteria that became verified or approved, in the order history and evidence record them.
   */
  datatype GoalState = GoalState(
    status: GoalStatus, acGate: GateStatus, planGate: GateStatus, active: Option<nat>,
    acStatus: map<Id, AcStatus>, deferred: seq<Id>, tasks: seq<nat>, approvals: seq<Id>)

  const NEW_GOAL := GoalState(Draft, GatePending, GatePending, None, map[], [], [], [])

  // ---------------------------------------------------------------------
  // Policy
  // ---------------------------------------------------------------------

  function AllowedGoalMoves(s: GoalStatus): set<GoalStatus> {
    match s
    case Draft => {Ready, Blocked, Cancelled}
    case Ready => {Draft, Running, Gated, Blocked, Done, Cancelled}
    case Running => {Gated, Blocked, Done, Cancelled}
    case Gated => {Running, Blocked, Done, Cancelled}
    case Blocked => {Running, Gated, Done, Cancelled}
    case Done => {}
    case Cancelled => {}
  }

  predicate CanMove(from: GoalStatus, to: GoalStatus) {
    from == to || to in AllowedGoalMoves(from)
  }

  /** A refused move raises and leaves the goal alone. */
  function SetStatus(g: GoalState, to: GoalStatus): GoalState {
    if !CanMove(g.status, to) then g
    else g.(status := to, active := if to.Blocked? || to.Done? || to.Cancelled? then None else g.active)
  }

  function GatesApproved(g: GoalState): bool {
    g.acGate.Approved? && g.planGate.Approved?
  }

  /** Draft and ready follow the gates; other statuses do not. */
  function RefreshStatus(g: GoalState): GoalState {
    if GatesApproved(g) && g.status.Draft? then g.(status := Ready)
    else if !GatesApproved(g) && g.status.Ready? then g.(status := Draft)
    else g
  }

  function Highest(tasks: seq<nat>): nat {
    if tasks == [] then 0
    else
      var rest := Highest(tasks[..|tasks| - 1]);
      if rest < tasks[|tasks| - 1] then tasks[|tasks| - 1] else rest
  }

  lemma HighestBounds(tasks: seq<nat>)
    ensures forall t :: t in tasks ==> t <= Highest(tasks)
    ensures Highest(tasks) == 0 || Highest(tasks) in tasks
  {
    if tasks != [] {
      HighestBounds(tasks[..|tasks| - 1]);
      assert tasks == tasks[..|tasks| - 1] + [tasks[|tasks| - 1]];
    }
  }

  function Claim(g: GoalState): GoalState {
    var n := Highest(g.tasks) + 1;
    g.(active := Some(n), tasks := g.tasks + [n], status := if g.status.Ready? then Running else g.status)
  }

  /** A claimed work task has a number no earlier task of the goal had, joins its history, and sets a ready goal running. */
  lemma ClaimedTaskIsNew(g: GoalState)
    ensures Claim(g).active.Some? && Claim(g).active.value !in g.tasks
    ensures (forall t :: t in g.tasks ==> t < Claim(g).active.value) && (Claim(g).active.value == 1 || Claim(g).active.value - 1 in g.tasks)
    ensures Claim(g).tasks == g.tasks + [Claim(g).active.value] && (g.status.Ready? ==> Claim(g).status.Running?) && (!g.status.Ready? ==> Claim(g).status == g.status)
  {
    HighestBounds(g.tasks);
  }

  predicate Approves(s: AcStatus) {
    s.Verified? || s.HumanApproved?
  }

  function StatusOf(st: map<Id, AcStatus>, id: Id): AcStatus {
    if id in st then st[id] else Pending
  }

  predicate IsOK(st: map<Id, AcStatus>, id: Id) {
    Approves(StatusOf(st, id))
  }

  function SetAc(g: GoalState, id: Id, s: AcStatus): GoalState {
    g.(acStatus := g.acStatus[id := s], approvals := if Approves(s) then g.approvals + [id] else g.approvals)
  }

  function DeferAc(g: GoalState, id: Id): GoalState {
    g.(acStatus := g.acStatus[id := Deferred], deferred := if id in g.deferred then g.deferred else g.deferred + [id])
  }

  // ---------------------------------------------------------------------
  // Criteria
  // ---------------------------------------------------------------------

  predicate DependenciesSatisfied(st: map<Id, AcStatus>, c: Criterion) {
    forall d :: d in c.dependsOn ==> IsOK(st, d)
  }

  predicate IsManual(c: Criterion) {
    c.subjective || !c.hasCheck
  }

  predicate IsEligible(st: map<Id, AcStatus>, c: Criterion) {
    c.core && !IsOK(st, c.id) && !StatusOf(st, c.id).Deferred? && !IsManual(c) && DependenciesSatisfied(st, c)
  }

  function Selected(criteria: seq<Criterion>, st: map<Id, AcStatus>): (r: Option<Criterion>)
    ensures r.Some? ==> r.value in criteria && IsEligible(st, r.value)
    ensures r.None? ==> forall c :: c in criteria ==> !IsEligible(st, c)
  {
    if criteria == [] then None
    else if IsEligible(st, criteria[0]) then Some(criteria[0])
    else Selected(criteria[1..], st)
  }

  predicate AllSatisfied(criteria: seq<Criterion>, st: map<Id, AcStatus>) {
    criteria != [] && forall c :: c in criteria && c.core ==> IsOK(st, c.id)
  }

  predicate AwaitsSignoff(st: map<Id, AcStatus>, c: Criterion) {
    c.core && !IsOK(st, c.id) && IsManual(c) && DependenciesSatisfied(st, c)
  }

  /** What running a criterion's check would report. */
  type Checks = Id -> bool

  /** One non-core criterion, judged by the statuses read before the pass and the dependencies as they are now. */
  function ProcessOne(g: GoalState, before: map<Id, AcStatus>, c: Criterion, passes: Checks): GoalState {
    if c.core || StatusOf(before, c.id).Verified? || StatusOf(before, c.id).Deferred? then g
    else if !DependenciesSatisfied(g.acStatus, c) then g
    else if !IsManual(c) && passes(c.id) then SetAc(g, c.id, Verified)
    else DeferAc(g, c.id)
  }

  function ProcessNoncore(g: GoalState, before: map<Id, AcStatus>, criteria: seq<Criterion>, passes: Checks): GoalState {
    if criteria == [] then g
    else
      ProcessOne(ProcessNoncore(g, before, criteria[..|criteria| - 1], passes), before, criteria[|criteria| - 1], passes)
  }

  // ---------------------------------------------------------------------
  // The work loop
  // ---------------------------------------------------------------------

  datatype Reply = DispatchFailed | BlockerReply | WorkReply

  /** What happens at one step: the worker's reply, and the results of the checks. */
  datatype Round = Round(reply: Reply, passes: Checks)

  datatype Outcome =
    | GoalCancelled | AwaitingGates | TaskStillActive | AlreadyDone
    | NowDone | SignoffRequired | ManualVerificationRequired | BrokerBlocked | WorkerBlocked | CapReached | Refused

  datatype Worked = Worked(goal: GoalState, outcome: Outcome)

  /** A status change that may be refused ends the call either way. */
  function Finish(g: GoalState, to: GoalStatus, outcome: Outcome): Worked {
    if CanMove(g.status, to) then Worked(SetStatus(g, to), outcome) else Worked(g, Refused)
  }

  /** No criterion can be selected: finish, ask for sign-off, or give up. */
  function Conclude(criteria: seq<Criterion>, g: GoalState, passes: Checks): Worked {
    var n := ProcessNoncore(g, g.acStatus, criteria, passes);
    if AllSatisfied(criteria, n.acStatus) then Finish(n, Done, NowDone)
    else if exists c :: c in criteria && AwaitsSignoff(n.acStatus, c) then Finish(n, Gated, SignoffRequired)
    else Finish(n, Blocked, ManualVerificationRequired)
  }

  function CompleteTask(g: GoalState): GoalState {
    g.(active := None)
  }

  /** The selected criterion's check decides its status. */
  function Verify(g: GoalState, c: Criterion, passes: Checks): GoalState {
    SetAc(g, c.id, if passes(c.id) then Verified else Failed)
  }

  function WorkLoop(criteria: seq<Criterion>, g: GoalState, steps: nat, maxSteps: nat, round: nat -> Round): Worked
    decreases maxSteps - steps
  {
    if steps >= maxSteps then Finish(g, Blocked, CapReached)
    else
      var selected := Selected(criteria, g.acStatus);
      if selected.None? then Conclude(criteria, g, round(steps).passes)
      else if g.active.Some? then Worked(g, TaskStillActive)
      else
        var claimed := Claim(g);
        if round(steps).reply.DispatchFailed? then Finish(claimed, Blocked, BrokerBlocked)
        else if round(steps).reply.BlockerReply? then Finish(CompleteTask(claimed), Blocked, WorkerBlocked)
        else
          var verified := Verify(CompleteTask(claimed), selected.value, round(steps).passes);
          if !round(steps).passes(selected.value.id) then WorkLoop(criteria, verified, steps + 1, maxSteps, round)
          else
            var n := ProcessNoncore(verified, verified.acStatus, criteria, round(steps).passes);
            if AllSatisfied(criteria, n.acStatus) then Finish(n, Done, NowDone)
            else WorkLoop(criteria, n, steps + 1, maxSteps, round)
  }

  function Work(criteria: seq<Criterion>, g: GoalState, maxSteps: nat, round: nat -> Round): Worked {
    if g.status.Cancelled? then Worked(g, GoalCancelled)
    else if !GatesApproved(g) then Worked(g, AwaitingGates)
    else if g.active.Some? then Worked(g, TaskStillActive)
    else if g.status.Done? then Worked(g, AlreadyDone)
    else WorkLoop(criteria, g, 0, maxSteps, round)
  }

  // ---------------------------------------------------------------------
  // Sign-off
  // ---------------------------------------------------------------------

  predicate IsSignable(g: GoalState, c: Criterion, which: Option<Id>) {
    c.core && IsManual(c) && !StatusOf(g.acStatus, c.id).Verified? && (which.None? || c.id == which.value)
  }

  /** Approve the matching manual core criteria one by one. */
  function ApproveAll(g: GoalState, start: GoalState, criteria: seq<Criterion>, which: Option<Id>): GoalState {
    if criteria == [] then g
    else
      var before := ApproveAll(g, start, criteria[..|criteria| - 1], which);
      var c := criteria[|criteria| - 1];
      if IsSignable(start, c, which) then SetAc(before, c.id, HumanApproved) else before
  }

  /** Sign-off raises without a match or with an unmet dependency; finishing may still be refused afterwards. */
  function Signoff(criteria: seq<Criterion>, g: GoalState, which: Option<Id>): GoalState {
    if !(exists c :: c in criteria && IsSignable(g, c, which)) then g
    else if exists c :: c in criteria && IsSignable(g, c, which) && !DependenciesSatisfied(g.acStatus, c) then g
    else
      var n := ApproveAll(g, g, criteria, which);
      if AllSatisfied(criteria, n.acStatus) then SetStatus(n, Done) else n
  }

  // ---------------------------------------------------------------------
  // Runs of a goal whose acceptance file stays fixed
  // ---------------------------------------------------------------------

  datatype GoalOp =
    | DoWork(maxSteps: nat, round: nat -> Round)
    | DoSignoff(which: Option<Id>)
    | DoApprove(ac: bool, plan: bool)
    | DoReject
    | DoCancel

  function Step(criteria: seq<Criterion>, g: GoalState, op: GoalOp): GoalState {
    match op
    case DoWork(maxSteps, round) => Work(criteria, g, maxSteps, round).goal
    case DoSignoff(which) => Signoff(criteria, g, which)
    case DoApprove(ac, plan) =>
      RefreshStatus(g.(acGate := if ac then Approved else g.acGate, planGate := if plan then Approved else g.planGate))
    case DoReject => RefreshStatus(g.(acGate := Rejected, planGate := Rejected))
    case DoCancel => SetStatus(g, Cancelled)
  }

  function RunGoal(criteria: seq<Criterion>, ops: seq<GoalOp>): GoalState {
    if ops == [] then NEW_GOAL else Step(criteria, RunGoal(criteria, ops[..|ops| - 1]), ops[|ops| - 1])
  }

  ghost predicate DistinctIds(criteria: seq<Criterion>) {
    forall i, j :: 0 <= i < j < |criteria| ==> criteria[i].id != criteria[j].id
  }

  /** The approvals are exactly the approved criteria, and each came after all its dependencies. */
  ghost predicate ApprovedInOrder(criteria: seq<Criterion>, g: GoalState) {
    && (forall id :: IsOK(g.acStatus, id) <==> id in g.approvals)
    && (forall c, i :: c in criteria && 0 <= i < |g.approvals| && g.approvals[i] == c.id ==>
          forall d :: d in c.dependsOn ==> d in g.approvals[..i])
  }

  ghost predicate GoalInv(criteria: seq<Criterion>, g: GoalState) {
    && ApprovedInOrder(criteria, g)
    && (forall c :: c in criteria && !c.core ==> !StatusOf(g.acStatus, c.id).HumanApproved?)
    && (g.status.Done? ==> AllSatisfied(criteria, g.acStatus))
  }

  /** Approved criteria stay approved. */
  ghost predicate NoRegress(g: GoalState, n: GoalState) {
    g.approvals <= n.approvals
  }

  lemma MarkKeeps(criteria: seq<Criterion>, g: GoalState, c: Criterion, s: AcStatus)
    requires DistinctIds(criteria) && GoalInv(criteria, g) && c in criteria
    requires Approves(s) ==> DependenciesSatisfied(g.acStatus, c)
    requires !Approves(s) ==> !IsOK(g.acStatus, c.id)
    requires !c.core ==> !s.HumanApproved?
    ensures GoalInv(criteria, SetAc(g, c.id, s)) && NoRegress(g, SetAc(g, c.id, s))
  {
    var n := SetAc(g, c.id, s);
    forall e, i | e in criteria && 0 <= i < |n.approvals| && n.approvals[i] == e.id
      ensures forall d :: d in e.dependsOn ==> d in n.approvals[..i]
    {
      if i < |g.approvals| {
        assert n.approvals[..i] == g.approvals[..i];
      } else {
        var j :| 0 <= j < |criteria| && criteria[j] == e;
        var k :| 0 <= k < |criteria| && criteria[k] == c;
        assert j == k;
        assert e == c && n.approvals[..i] == g.approvals;
      }
    }
    forall e | e in criteria && !e.core
      ensures !StatusOf(n.acStatus, e.id).HumanApproved?
    {
      var j :| 0 <= j < |criteria| && criteria[j] == e;
      var k :| 0 <= k < |criteria| && criteria[k] == c;
      assert e.id == c.id ==> j == k;
    }
  }

  lemma DeferKeeps(criteria: seq<Criterion>, g: GoalState, c: Criterion)
    requires DistinctIds(criteria) && GoalInv(criteria, g) && c in criteria && !IsOK(g.acStatus, c.id)
    ensures GoalInv(criteria, DeferAc(g, c.id)) && NoRegress(g, DeferAc(g, c.id))
  {
    MarkKeeps(criteria, g, c, Deferred);
    var n, m := DeferAc(g, c.id), SetAc(g, c.id, Deferred);
    assert n == m.(deferred := n.deferred);
  }

  lemma ProcessOneKeeps(criteria: seq<Criterion>, g: GoalState, before: map<Id, AcStatus>, c: Criterion, passes: Checks)
    requires DistinctIds(criteria) && GoalInv(criteria, g) && c in criteria && StatusOf(before, c.id) == StatusOf(g.acStatus, c.id)
    ensures var n := ProcessOne(g, before, c, passes); GoalInv(criteria, n) && NoRegress(g, n)
  {
    if !c.core && !IsOK(g.acStatus, c.id) {
      DeferKeeps(criteria, g, c);
      if DependenciesSatisfied(g.acStatus, c) {
        MarkKeeps(criteria, g, c, Verified);
      }
    }
  }

  /** A pass over the non-core criteria touches each of them at most once and no core criterion. */
  lemma {:induction false} ProcessNoncoreKeeps(criteria: seq<Criterion>, g: GoalState, k: nat, passes: Checks)
    requires DistinctIds(criteria) && GoalInv(criteria, g) && k <= |criteria|
    ensures var n := ProcessNoncore(g, g.acStatus, criteria[..k], passes);
            && GoalInv(criteria, n) && NoRegress(g, n)
            && (forall id :: (forall i :: 0 <= i < k ==> criteria[i].id != id) ==> StatusOf(n.acStatus, id) == StatusOf(g.acStatus, id))
            && (forall c :: c in criteria && c.core ==> StatusOf(n.acStatus, c.id) == StatusOf(g.acStatus, c.id))
            && n.status == g.status && n.active == g.active && n.acGate == g.acGate && n.planGate == g.planGate
    decreases k
  {
    hide GoalInv, DependenciesSatisfied;
    if k > 0 {
      assert criteria[..k][..k - 1] == criteria[..k - 1];
      var c := criteria[k - 1];
      var before := ProcessNoncore(g, g.acStatus, criteria[..k - 1], passes);
      ProcessNoncoreKeeps(criteria, g, k - 1, passes);
      ProcessOneKeeps(criteria, before, g.acStatus, c, passes);
      forall d | d in criteria && d.core
        ensures StatusOf(ProcessOne(before, g.acStatus, c, passes).acStatus, d.id) == StatusOf(before.acStatus, d.id)
      {
        var j :| 0 <= j < |criteria| && criteria[j] == d;
      }
    }
  }

  lemma StatusMoveKeeps(criteria: seq<Criterion>, g: GoalState, to: GoalStatus)
    requires GoalInv(criteria, g) && (to.Done? ==> AllSatisfied(criteria, g.acStatus))
    ensures GoalInv(criteria, SetStatus(g, to)) && NoRegress(g, SetStatus(g, to))
  {
  }

  lemma ConcludeKeeps(criteria: seq<Criterion>, g: GoalState, passes: Checks)
    requires DistinctIds(criteria) && GoalInv(criteria, g)
    ensures var n := Conclude(criteria, g, passes).goal; GoalInv(criteria, n) && NoRegress(g, n)
  {
    hide GoalInv;
    ProcessNoncoreKeeps(criteria, g, |criteria|, passes);
    assert criteria[..|criteria|] == criteria;
    var n := ProcessNoncore(g, g.acStatus, criteria, passes);
    StatusMoveKeeps(criteria, n, Gated);
    StatusMoveKeeps(criteria, n, Blocked);
    if AllSatisfied(criteria, n.acStatus) {
      StatusMoveKeeps(criteria, n, Done);
    }
  }

  /** Claiming and completing a task change no criterion. */
  lemma SameCriteriaKeep(criteria: seq<Criterion>, g: GoalState, n: GoalState)
    requires GoalInv(criteria, g) && n.acStatus == g.acStatus && n.approvals == g.approvals && (n.status.Done? ==> g.status.Done?)
    ensures GoalInv(criteria, n) && NoRegress(g, n)
  {
  }

  lemma {:induction false} WorkLoopKeeps(criteria: seq<Criterion>, g: GoalState, steps: nat, maxSteps: nat, round: nat -> Round)
    requires DistinctIds(criteria) && GoalInv(criteria, g)
    ensures var n := WorkLoop(criteria, g, steps, maxSteps, round).goal; GoalInv(criteria, n) && NoRegress(g, n)
    decreases maxSteps - steps
  {
    hide GoalInv, DistinctIds, ProcessNoncore, Conclude, DependenciesSatisfied, AllSatisfied;
    StatusMoveKeeps(criteria, g, Blocked);
    if steps < maxSteps {
      var selected := Selected(criteria, g.acStatus);
      if selected.None? {
        ConcludeKeeps(criteria, g, round(steps).passes);
      } else if g.active.None? {
        SameCriteriaKeep(criteria, g, Claim(g));
        StatusMoveKeeps(criteria, Claim(g), Blocked);
        SameCriteriaKeep(criteria, g, CompleteTask(Claim(g)));
        StatusMoveKeeps(criteria, CompleteTask(Claim(g)), Blocked);
        if round(steps).reply.WorkReply? {
          RoundKeeps(criteria, g, selected.value, steps, maxSteps, round);
        }
      }
    }
  }

  /** One completed round: verify the selected criterion, and go on from there. */
  lemma RoundKeeps(criteria: seq<Criterion>, g: GoalState, c: Criterion, steps: nat, maxSteps: nat, round: nat -> Round)
    requires DistinctIds(criteria) && GoalInv(criteria, g) && c in criteria && IsEligible(g.acStatus, c)
    requires steps < maxSteps && Selected(criteria, g.acStatus) == Some(c) && g.active.None? && round(steps).reply.WorkReply?
    ensures var n := WorkLoop(criteria, g, steps, maxSteps, round).goal; GoalInv(criteria, n) && NoRegress(g, n)
    decreases maxSteps - steps, 0
  {
    hide GoalInv, DistinctIds, ProcessNoncore, Conclude, DependenciesSatisfied, AllSatisfied;
    var passes := round(steps).passes;
    var idle := CompleteTask(Claim(g));
    SameCriteriaKeep(criteria, g, idle);
    MarkKeeps(criteria, idle, c, if passes(c.id) then Verified else Failed);
    var verified := Verify(idle, c, passes);
    if !passes(c.id) {
      WorkLoopKeeps(criteria, verified, steps + 1, maxSteps, round);
    } else {
      ProcessNoncoreKeeps(criteria, verified, |criteria|, passes);
      assert criteria[..|criteria|] == criteria;
      var n := ProcessNoncore(verified, verified.acStatus, criteria, passes);
      if AllSatisfied(criteria, n.acStatus) {
        StatusMoveKeeps(criteria, n, Done);
      } else {
        WorkLoopKeeps(criteria, n, steps + 1, maxSteps, round);
      }
    }
  }

  lemma {:induction false} ApproveAllKeeps(criteria: seq<Criterion>, g: GoalState, k: nat, which: Option<Id>)
    requires DistinctIds(criteria) && GoalInv(criteria, g) && k <= |criteria|
    requires forall c :: c in criteria && IsSignable(g, c, which) ==> DependenciesSatisfied(g.acStatus, c)
    ensures var n := ApproveAll(g, g, criteria[..k], which); GoalInv(criteria, n) && NoRegress(g, n) && n.status == g.status
    decreases k
  {
    if k > 0 {
      assert criteria[..k][..k - 1] == criteria[..k - 1];
      var c := criteria[k - 1];
      ApproveAllKeeps(criteria, g, k - 1, which);
      var before := ApproveAll(g, g, criteria[..k - 1], which);
      if IsSignable(g, c, which) {
        StillSatisfied(criteria, g, before, c);
        hide GoalInv, DependenciesSatisfied;
        MarkKeeps(criteria, before, c, HumanApproved);
      }
    }
  }

  lemma {:induction false} ApproveAllDecides(g: GoalState, start: GoalState, part: seq<Criterion>, which: Option<Id>, id: Id)
    ensures var signed := exists c :: c in part && IsSignable(start, c, which) && c.id == id;
            StatusOf(ApproveAll(g, start, part, which).acStatus, id) == if signed then HumanApproved else StatusOf(g.acStatus, id)
    decreases |part|
  {
    hide IsSignable;
    if part != [] {
      ApproveAllDecides(g, start, part[..|part| - 1], which, id);
      assert part == part[..|part| - 1] + [part[|part| - 1]];
    }
  }

  /**
   * Sign-off approves exactly the manual core criteria asked for that are not verified yet, provided all
   * of them have their dependencies; otherwise it changes no criterion.
   */
  lemma SignoffDecides(criteria: seq<Criterion>, g: GoalState, which: Option<Id>, id: Id)
    ensures var legal := forall c :: c in criteria && IsSignable(g, c, which) ==> DependenciesSatisfied(g.acStatus, c);
            var signed := exists c :: c in criteria && IsSignable(g, c, which) && c.id == id;
            StatusOf(Signoff(criteria, g, which).acStatus, id) == if legal && signed then HumanApproved else StatusOf(g.acStatus, id)
  {
    hide IsSignable, DependenciesSatisfied, AllSatisfied;
    ApproveAllDecides(g, g, criteria, which, id);
  }

  lemma StillSatisfied(criteria: seq<Criterion>, g: GoalState, n: GoalState, c: Criterion)
    requires GoalInv(criteria, g) && GoalInv(criteria, n) && NoRegress(g, n) && DependenciesSatisfied(g.acStatus, c)
    ensures DependenciesSatisfied(n.acStatus, c)
  {
    forall d | d in c.dependsOn
      ensures IsOK(n.acStatus, d)
    {
      assert IsOK(g.acStatus, d);
      assert d in g.approvals;
      assert d in n.approvals;
    }
  }

  lemma StepKeeps(criteria: seq<Criterion>, g: GoalState, op: GoalOp)
    requires DistinctIds(criteria) && GoalInv(criteria, g)
    ensures GoalInv(criteria, Step(criteria, g, op)) && NoRegress(g, Step(criteria, g, op))
  {
    match op
    case DoWork(maxSteps, round) =>
      hide GoalInv;
      WorkLoopKeeps(criteria, g, 0, maxSteps, round);
    case DoSignoff(which) =>
      if forall c :: c in criteria && IsSignable(g, c, which) ==> DependenciesSatisfied(g.acStatus, c) {
        ApproveAllKeeps(criteria, g, |criteria|, which);
        assert criteria[..|criteria|] == criteria;
        var n := ApproveAll(g, g, criteria, which);
        if AllSatisfied(criteria, n.acStatus) {
          StatusMoveKeeps(criteria, n, Done);
        }
      }
    case _ =>
      hide AllSatisfied;
  }

  lemma {:induction false} RunKeepsGoalInv(criteria: seq<Criterion>, ops: seq<GoalOp>)
    requires DistinctIds(criteria)
    ensures GoalInv(criteria, RunGoal(criteria, ops))
  {
    hide GoalInv, Step;
    if ops == [] {
      NewGoalIsOK(criteria);
    } else {
      RunKeepsGoalInv(criteria, ops[..|ops| - 1]);
      StepKeeps(criteria, RunGoal(criteria, ops[..|ops| - 1]), ops[|ops| - 1]);
    }
  }

  lemma NewGoalIsOK(criteria: seq<Criterion>)
    ensures GoalInv(criteria, NEW_GOAL)
  {
  }

  /** No work, sign-off, gate or cancel ever takes a verified or approved criterion back. */
  lemma {:induction false} ApprovalsNeverRegress(criteria: seq<Criterion>, ops: seq<GoalOp>, n: nat, id: Id)
    requires DistinctIds(criteria) && n <= |ops| && IsOK(RunGoal(criteria, ops[..n]).acStatus, id)
    ensures IsOK(RunGoal(criteria, ops).acStatus, id)
    decreases |ops|
  {
    hide Step;
    if n == |ops| {
      assert ops[..n] == ops;
    } else {
      var before := ops[..|ops| - 1];
      assert before[..n] == ops[..n];
      ApprovalsNeverRegress(criteria, before, n, id);
      RunKeepsGoalInv(criteria, before);
      RunKeepsGoalInv(criteria, ops);
      StepKeeps(criteria, RunGoal(criteria, before), ops[|ops| - 1]);
    }
  }

  // ---------------------------------------------------------------------
  // Dependencies
  // ---------------------------------------------------------------------

  ghost predicate DependsOn(criteria: seq<Criterion>, a: Id, b: Id) {
    exists c :: c in criteria && c.id == a && b in c.dependsOn
  }

  /** Each id names a criterion that depends on the next. */
  ghost predicate IsChain(criteria: seq<Criterion>, path: seq<Id>) {
    forall i, j :: 0 <= i && j == i + 1 < |path| ==> DependsOn(criteria, path[i], path[j])
  }

  /** When an approved id was first approved. */
  function Position(approvals: seq<Id>, id: Id): (p: nat)
    requires id in approvals
    ensures p < |approvals| && approvals[p] == id && id !in approvals[..p]
  {
    if approvals[0] == id then 0 else 1 + Position(approvals[1..], id)
  }

  lemma DependencyCameFirst(criteria: seq<Criterion>, g: GoalState, a: Id, b: Id)
    requires ApprovedInOrder(criteria, g) && a in g.approvals && DependsOn(criteria, a, b)
    ensures b in g.approvals && Position(g.approvals, b) < Position(g.approvals, a)
  {
    var c :| c in criteria && c.id == a && b in c.dependsOn;
    var p := Position(g.approvals, a);
    assert b in g.approvals[..p];
  }

  /** Along a chain from an approved criterion everything is approved, each link strictly earlier. */
  lemma {:induction false} ChainDescends(criteria: seq<Criterion>, g: GoalState, path: seq<Id>, j: nat, k: nat)
    requires ApprovedInOrder(criteria, g) && IsChain(criteria, path) && j <= k < |path| && path[j] in g.approvals
    ensures path[k] in g.approvals && (j < k ==> Position(g.approvals, path[k]) < Position(g.approvals, path[j]))
    decreases k - j
  {
    hide ApprovedInOrder;
    if j < k {
      ChainDescends(criteria, g, path, j, k - 1);
      DependencyCameFirst(criteria, g, path[k - 1], path[k]);
    }
  }

  /** Nothing on or behind a dependency cycle is ever verified or approved. */
  lemma NothingBehindACycleIsApproved(criteria: seq<Criterion>, ops: seq<GoalOp>, path: seq<Id>, j: nat, k: nat)
    requires DistinctIds(criteria) && IsChain(criteria, path) && j < k < |path| && path[j] == path[k]
    ensures !IsOK(RunGoal(criteria, ops).acStatus, path[0])
  {
    hide RunGoal, IsChain;
    RunKeepsGoalInv(criteria, ops);
    var g := RunGoal(criteria, ops);
    if IsOK(g.acStatus, path[0]) {
      ChainDescends(criteria, g, path, 0, j);
      ChainDescends(criteria, g, path, j, k);
    }
  }

  /** A done goal has every core criterion and all its transitive dependencies verified or approved. */
  lemma DoneIsDependencyClosed(criteria: seq<Criterion>, ops: seq<GoalOp>, c: Criterion, path: seq<Id>)
    requires DistinctIds(criteria) && RunGoal(criteria, ops).status.Done?
    requires c in criteria && c.core && IsChain(criteria, path) && path != [] && path[0] == c.id
    ensures IsOK(RunGoal(criteria, ops).acStatus, path[|path| - 1])
  {
    hide RunGoal, IsChain;
    RunKeepsGoalInv(criteria, ops);
    ChainDescends(criteria, RunGoal(criteria, ops), path, 0, |path| - 1);
  }

  // ---------------------------------------------------------------------
  // Progress
  // ---------------------------------------------------------------------

  /** Every core criterion can be verified by a check, depends only on core criteria, and no dependencies go in circles. */
  ghost predicate CoreIsAutomatic(criteria: seq<Criterion>) {
    forall c :: c in criteria && c.core ==> !IsManual(c) && forall d :: d in c.dependsOn ==> NamesCore(criteria, d)
  }

  ghost predicate NamesCore(criteria: seq<Criterion>, id: Id) {
    exists c :: c in criteria && c.core && c.id == id
  }

  ghost predicate IsAcyclic(criteria: seq<Criterion>) {
    forall path, j, k :: IsChain(criteria, path) && 0 <= j < k < |path| ==> path[j] != path[k]
  }

  function OpenCore(criteria: seq<Criterion>, st: map<Id, AcStatus>): nat {
    if criteria == [] then 0
    else
      var last := criteria[|criteria| - 1];
      OpenCore(criteria[..|criteria| - 1], st) + if last.core && !IsOK(st, last.id) then 1 else 0
  }

  /** A sequence of different members of a set is no longer than the set is large. */
  lemma {:induction false} Pigeonhole(path: seq<Id>, s: set<Id>)
    requires forall i :: 0 <= i < |path| ==> path[i] in s
    requires forall i, j :: 0 <= i < j < |path| ==> path[i] != path[j]
    ensures |path| <= |s|
    decreases |path|
  {
    if path != [] {
      var last, rest := path[|path| - 1], path[..|path| - 1];
      Pigeonhole(rest, s - {last});
    }
  }

  ghost predicate IsStuck(criteria: seq<Criterion>, st: map<Id, AcStatus>, id: Id) {
    NamesCore(criteria, id) && !IsOK(st, id)
  }

  ghost predicate NothingIsSelectable(criteria: seq<Criterion>, st: map<Id, AcStatus>) {
    forall c :: c in criteria && c.core ==> !IsEligible(st, c) && !StatusOf(st, c.id).Deferred?
  }

  lemma NextStuck(criteria: seq<Criterion>, st: map<Id, AcStatus>, id: Id) returns (d: Id)
    requires CoreIsAutomatic(criteria) && IsStuck(criteria, st, id) && NothingIsSelectable(criteria, st)
    ensures DependsOn(criteria, id, d) && IsStuck(criteria, st, d)
  {
    var c :| c in criteria && c.core && c.id == id;
    hide NamesCore;
    d :| d in c.dependsOn && !IsOK(st, d);
  }

  /** If no open core criterion were eligible, dependencies could be followed for ever. */
  lemma {:induction false} StuckChain(criteria: seq<Criterion>, st: map<Id, AcStatus>, id: Id, n: nat) returns (path: seq<Id>)
    requires CoreIsAutomatic(criteria) && IsStuck(criteria, st, id) && NothingIsSelectable(criteria, st)
    ensures |path| == n + 1 && path[0] == id && IsChain(criteria, path)
    ensures forall i :: 0 <= i < |path| ==> IsStuck(criteria, st, path[i])
    decreases n
  {
    hide CoreIsAutomatic, IsStuck, NothingIsSelectable, DependsOn;
    path := [id];
    if n > 0 {
      var d := NextStuck(criteria, st, id);
      var rest := StuckChain(criteria, st, d, n - 1);
      path := [id] + rest;
      forall i, j | 0 <= i && j == i + 1 < |path|
        ensures DependsOn(criteria, path[i], path[j])
      {
        if i > 0 {
          assert path[i] == rest[i - 1] && path[j] == rest[i];
        }
      }
    }
  }

  function Ids(criteria: seq<Criterion>): set<Id> {
    set c | c in criteria :: c.id
  }

  lemma StuckIdsAreIds(criteria: seq<Criterion>, st: map<Id, AcStatus>, id: Id)
    requires IsStuck(criteria, st, id)
    ensures id in Ids(criteria)
  {
  }

  lemma AcyclicChainsDiffer(criteria: seq<Criterion>, path: seq<Id>)
    requires IsAcyclic(criteria) && IsChain(criteria, path)
    ensures forall i, j :: 0 <= i < j < |path| ==> path[i] != path[j]
  {
    hide IsChain;
  }

  /** An open core criterion of an automatic, acyclic goal leaves one that can be selected. */
  lemma SomethingIsSelectable(criteria: seq<Criterion>, st: map<Id, AcStatus>, c: Criterion)
    requires CoreIsAutomatic(criteria) && IsAcyclic(criteria) && c in criteria && c.core && !IsOK(st, c.id)
    requires forall e :: e in criteria && e.core ==> !StatusOf(st, e.id).Deferred?
    ensures Selected(criteria, st).Some?
  {
    hide IsAcyclic, IsChain, CoreIsAutomatic, IsEligible, Ids;
    if Selected(criteria, st).None? {
      var path := StuckChain(criteria, st, c.id, |Ids(criteria)|);
      forall i | 0 <= i < |path|
        ensures path[i] in Ids(criteria)
      {
        StuckIdsAreIds(criteria, st, path[i]);
      }
      AcyclicChainsDiffer(criteria, path);
      Pigeonhole(path, Ids(criteria));
    }
  }

  lemma {:induction false} NoOpenCore(criteria: seq<Criterion>, st: map<Id, AcStatus>)
    ensures OpenCore(criteria, st) == 0 <==> forall c :: c in criteria && c.core ==> IsOK(st, c.id)
  {
    if criteria != [] {
      NoOpenCore(criteria[..|criteria| - 1], st);
      assert criteria == criteria[..|criteria| - 1] + [criteria[|criteria| - 1]];
    }
  }

  lemma {:induction false} SameOpenCore(criteria: seq<Criterion>, st: map<Id, AcStatus>, other: map<Id, AcStatus>)
    requires forall c :: c in criteria && c.core ==> StatusOf(other, c.id) == StatusOf(st, c.id)
    ensures OpenCore(criteria, other) == OpenCore(criteria, st)
  {
    if criteria != [] {
      SameOpenCore(criteria[..|criteria| - 1], st, other);
    }
  }

  /** Verifying one open core criterion leaves one fewer. */
  lemma {:induction false} VerifyingClosesOne(criteria: seq<Criterion>, st: map<Id, AcStatus>, c: Criterion)
    requires DistinctIds(criteria) && c in criteria && c.core && !IsOK(st, c.id)
    ensures OpenCore(criteria, st) == OpenCore(criteria, st[c.id := Verified]) + 1
  {
    var rest, last := criteria[..|criteria| - 1], criteria[|criteria| - 1];
    if last == c {
      SameOpenCore(rest, st, st[c.id := Verified]);
    } else {
      assert criteria == rest + [last];
      var i :| 0 <= i < |rest| && rest[i] == c;
      assert criteria[i].id != criteria[|criteria| - 1].id;
      VerifyingClosesOne(rest, st, c);
    }
  }

  /** Every worker replies and every core check passes. */
  ghost predicate AllGoesWell(criteria: seq<Criterion>, round: nat -> Round) {
    forall n: nat :: round(n).reply.WorkReply? && forall c :: c in criteria && c.core ==> round(n).passes(c.id)
  }

  ghost predicate CoreUndeferred(criteria: seq<Criterion>, g: GoalState) {
    forall c :: c in criteria && c.core ==> !StatusOf(g.acStatus, c.id).Deferred?
  }

  predicate IsWorkable(g: GoalState) {
    g.active.None? && !g.status.Draft? && !g.status.Cancelled? && !g.status.Done?
  }

  /** The rounds still needed: one for each open core criterion, and one even when there is none. */
  function RoundsNeeded(criteria: seq<Criterion>, g: GoalState): nat {
    if OpenCore(criteria, g.acStatus) == 0 then 1 else OpenCore(criteria, g.acStatus)
  }

  lemma ConcludeFinishes(criteria: seq<Criterion>, g: GoalState, passes: Checks)
    requires DistinctIds(criteria) && GoalInv(criteria, g) && criteria != [] && IsWorkable(g) && OpenCore(criteria, g.acStatus) == 0
    ensures Conclude(criteria, g, passes).goal.status.Done? && Conclude(criteria, g, passes).outcome.NowDone?
  {
    hide GoalInv, DistinctIds;
    ProcessNoncoreKeeps(criteria, g, |criteria|, passes);
    assert criteria[..|criteria|] == criteria;
    NoOpenCore(criteria, g.acStatus);
  }

  /** One good round verifies the selected criterion and touches no other core criterion. */
  lemma GoodRound(criteria: seq<Criterion>, g: GoalState, c: Criterion, passes: Checks)
    requires DistinctIds(criteria) && GoalInv(criteria, g) && CoreUndeferred(criteria, g) && IsWorkable(g)
    requires c in criteria && IsEligible(g.acStatus, c) && passes(c.id)
    ensures var verified := Verify(CompleteTask(Claim(g)), c, passes);
            var n := ProcessNoncore(verified, verified.acStatus, criteria, passes);
            && GoalInv(criteria, n) && CoreUndeferred(criteria, n) && IsWorkable(n)
            && OpenCore(criteria, n.acStatus) + 1 == OpenCore(criteria, g.acStatus)
  {
    hide GoalInv, DependenciesSatisfied;
    var idle := CompleteTask(Claim(g));
    SameCriteriaKeep(criteria, g, idle);
    MarkKeeps(criteria, idle, c, Verified);
    var verified := Verify(idle, c, passes);
    ProcessNoncoreKeeps(criteria, verified, |criteria|, passes);
    assert criteria[..|criteria|] == criteria;
    var n := ProcessNoncore(verified, verified.acStatus, criteria, passes);
    VerifyingClosesOne(criteria, g.acStatus, c);
    SameOpenCore(criteria, verified.acStatus, n.acStatus);
  }

  lemma {:induction false} WorkLoopFinishes(criteria: seq<Criterion>, g: GoalState, steps: nat, maxSteps: nat, round: nat -> Round)
    requires DistinctIds(criteria) && GoalInv(criteria, g) && CoreUndeferred(criteria, g) && IsWorkable(g)
    requires criteria != [] && CoreIsAutomatic(criteria) && IsAcyclic(criteria) && AllGoesWell(criteria, round) && steps <= maxSteps
    ensures var r := WorkLoop(criteria, g, steps, maxSteps, round);
            if maxSteps - steps >= RoundsNeeded(criteria, g) then r.goal.status.Done? && r.outcome.NowDone?
            else r.goal.status.Blocked? && r.outcome.CapReached?
    decreases maxSteps - steps
  {
    hide GoalInv, DistinctIds, IsAcyclic, CoreIsAutomatic, ProcessNoncore, Conclude, IsEligible;
    if steps < maxSteps {
      var selected := Selected(criteria, g.acStatus);
      NoOpenCore(criteria, g.acStatus);
      if selected.None? {
        if OpenCore(criteria, g.acStatus) != 0 {
          var c :| c in criteria && c.core && !IsOK(g.acStatus, c.id);
          SomethingIsSelectable(criteria, g.acStatus, c);
        }
        ConcludeFinishes(criteria, g, round(steps).passes);
      } else {
        var passes := round(steps).passes;
        EligibleIsOpenCore(g.acStatus, selected.value);
        GoodRound(criteria, g, selected.value, passes);
        var verified := Verify(CompleteTask(Claim(g)), selected.value, passes);
        var n := ProcessNoncore(verified, verified.acStatus, criteria, passes);
        NoOpenCore(criteria, n.acStatus);
        if !AllSatisfied(criteria, n.acStatus) {
          WorkLoopFinishes(criteria, n, steps + 1, maxSteps, round);
        }
      }
    }
  }

  lemma EligibleIsOpenCore(st: map<Id, AcStatus>, c: Criterion)
    requires IsEligible(st, c)
    ensures c.core && !IsOK(st, c.id)
  {
  }

  // ---------------------------------------------------------------------
  // Goals at rest between calls
  // ---------------------------------------------------------------------

  /** Between calls no task is active, approved gates have led out of draft, and no core criterion is deferred. */
  ghost predicate AtRest(criteria: seq<Criterion>, g: GoalState) {
    g.active.None? && (GatesApproved(g) ==> !g.status.Draft?) && CoreUndeferred(criteria, g)
  }

  lemma {:induction false} WorkLoopRests(criteria: seq<Criterion>, g: GoalState, steps: nat, maxSteps: nat, round: nat -> Round)
    requires DistinctIds(criteria) && GoalInv(criteria, g) && AtRest(criteria, g) && IsWorkable(g)
    ensures AtRest(criteria, WorkLoop(criteria, g, steps, maxSteps, round).goal)
    decreases maxSteps - steps
  {
    hide GoalInv, DistinctIds, ProcessNoncore, AllSatisfied, DependenciesSatisfied, AwaitsSignoff;
    if steps < maxSteps {
      var selected := Selected(criteria, g.acStatus);
      if selected.None? {
        ConcludeRests(criteria, g, round(steps).passes);
      } else if round(steps).reply.WorkReply? {
        RoundRests(criteria, g, selected.value, steps, maxSteps, round);
      }
    }
  }

  lemma ConcludeRests(criteria: seq<Criterion>, g: GoalState, passes: Checks)
    requires DistinctIds(criteria) && GoalInv(criteria, g) && AtRest(criteria, g) && IsWorkable(g)
    ensures AtRest(criteria, Conclude(criteria, g, passes).goal)
  {
    hide GoalInv, DistinctIds, ProcessNoncore, AllSatisfied, AwaitsSignoff;
    ProcessNoncoreKeeps(criteria, g, |criteria|, passes);
    assert criteria[..|criteria|] == criteria;
  }

  lemma RoundRests(criteria: seq<Criterion>, g: GoalState, c: Criterion, steps: nat, maxSteps: nat, round: nat -> Round)
    requires DistinctIds(criteria) && GoalInv(criteria, g) && AtRest(criteria, g) && IsWorkable(g)
    requires steps < maxSteps && Selected(criteria, g.acStatus) == Some(c) && c in criteria && IsEligible(g.acStatus, c)
    requires round(steps).reply.WorkReply?
    ensures AtRest(criteria, WorkLoop(criteria, g, steps, maxSteps, round).goal)
    decreases maxSteps - steps, 0
  {
    hide GoalInv, ProcessNoncore, AllSatisfied, DependenciesSatisfied;
    var passes := round(steps).passes;
    var idle := CompleteTask(Claim(g));
    var verified := Verify(idle, c, passes);
    SameCriteriaKeep(criteria, g, idle);
    MarkKeeps(criteria, idle, c, if passes(c.id) then Verified else Failed);
    if !passes(c.id) {
      WorkLoopRests(criteria, verified, steps + 1, maxSteps, round);
    } else {
      ProcessNoncoreKeeps(criteria, verified, |criteria|, passes);
      assert criteria[..|criteria|] == criteria;
      var n := ProcessNoncore(verified, verified.acStatus, criteria, passes);
      if !AllSatisfied(criteria, n.acStatus) {
        WorkLoopRests(criteria, n, steps + 1, maxSteps, round);
      }
    }
  }

  lemma {:induction false} ApproveAllRests(criteria: seq<Criterion>, g: GoalState, start: GoalState, part: seq<Criterion>, which: Option<Id>)
    requires AtRest(criteria, g)
    ensures AtRest(criteria, ApproveAll(g, start, part, which))
    decreases |part|
  {
    if part != [] {
      ApproveAllRests(criteria, g, start, part[..|part| - 1], which);
    }
  }

  lemma StepRests(criteria: seq<Criterion>, g: GoalState, op: GoalOp)
    requires DistinctIds(criteria) && GoalInv(criteria, g) && AtRest(criteria, g)
    ensures AtRest(criteria, Step(criteria, g, op))
  {
    hide GoalInv, DistinctIds, AllSatisfied, WorkLoop, IsSignable, DependenciesSatisfied;
    match op
    case DoWork(maxSteps, round) =>
      if IsWorkable(g) {
        WorkLoopRests(criteria, g, 0, maxSteps, round);
      }
    case DoSignoff(which) => ApproveAllRests(criteria, g, g, criteria, which);
    case _ =>
  }

  lemma {:induction false} RunRests(criteria: seq<Criterion>, ops: seq<GoalOp>)
    requires DistinctIds(criteria)
    ensures AtRest(criteria, RunGoal(criteria, ops))
  {
    hide GoalInv, Step;
    if ops == [] {
    } else {
      RunRests(criteria, ops[..|ops| - 1]);
      RunKeepsGoalInv(criteria, ops[..|ops| - 1]);
      StepRests(criteria, RunGoal(criteria, ops[..|ops| - 1]), ops[|ops| - 1]);
    }
  }

  /**
   * Progress. When every core criterion is automatic, no dependencies go in circles, and every worker
   * replies and every core check passes, then from any reachable state with approved gates, not
   * cancelled and not already done, work ends done exactly when it may take at least one step and one
   * for each open core criterion; otherwise it stops at the cap.
   */
  lemma WorkEndsDoneIff(criteria: seq<Criterion>, ops: seq<GoalOp>, maxSteps: nat, round: nat -> Round)
    requires DistinctIds(criteria) && criteria != [] && CoreIsAutomatic(criteria) && IsAcyclic(criteria) && AllGoesWell(criteria, round)
    requires GatesApproved(RunGoal(criteria, ops))
    requires !RunGoal(criteria, ops).status.Cancelled? && !RunGoal(criteria, ops).status.Done?
    ensures var g := RunGoal(criteria, ops);
            var r := Work(criteria, g, maxSteps, round);
            && (r.goal.status.Done? <==> maxSteps >= 1 && maxSteps >= OpenCore(criteria, g.acStatus))
            && (!r.goal.status.Done? ==> r.outcome.CapReached?)
  {
    hide RunGoal, GoalInv, DistinctIds, CoreIsAutomatic, IsAcyclic, AllGoesWell, CoreUndeferred;
    RunKeepsGoalInv(criteria, ops);
    RunRests(criteria, ops);
    WorkLoopFinishes(criteria, RunGoal(criteria, ops), 0, maxSteps, round);
  }
}

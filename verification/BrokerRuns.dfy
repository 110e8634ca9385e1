/** Guarantees over whole runs of the broker, whatever calls arrive and wherever they raise. */
module BrokerRuns {
  import opened Basics
  import opened Jobs
  import opened BrokerState
  import opened BrokerOps
  import opened BrokerInvariants
  import opened BrokerSteps
  import opened BrokerActs
  import opened BrokerCover
  import opened BrokerWakes

  datatype Call = Call(now: int, op: Op)

  ghost function Run(cfg: Config, calls: seq<Call>): State {
    if calls == [] then EMPTY
    else
      var last := calls[|calls| - 1];
      Apply(cfg, Run(cfg, calls[..|calls| - 1]), last.op, last.now).state
  }

  /** The state a call acts on, after its sweep. */
  ghost function Before(cfg: Config, calls: seq<Call>): State
    requires calls != []
  {
    var last := calls[|calls| - 1];
    Swept(cfg, Run(cfg, calls[..|calls| - 1]), last.op, last.now)
  }

  lemma EmptyIsOK()
    ensures Inv(EMPTY) && Covered(EMPTY)
  {
  }

  lemma {:induction false} RunKeepsInv(cfg: Config, calls: seq<Call>)
    ensures Inv(Run(cfg, calls))
  {
    hide Inv, Apply;
    if calls == [] {
      EmptyIsOK();
    } else {
      var last := calls[|calls| - 1];
      RunKeepsInv(cfg, calls[..|calls| - 1]);
      ApplyKeeps(cfg, Run(cfg, calls[..|calls| - 1]), last.op, last.now, []);
    }
  }

  /** In every reachable state each project and agent has at most one busy worker-bound message. */
  lemma OneBusyItemPerWorker(cfg: Config, calls: seq<Call>, a: Id, b: Id)
    requires var w := Run(cfg, calls).work.byId;
             a in w && b in w && Occupies(w[a]) && Occupies(w[b]) && SameTarget(w[a], w[b])
    ensures a == b
  {
    hide Run, WaitsOK, BoardOK, TalksOK, RegistryOK, OneSessionPerAgent, WorkOK;
    RunKeepsInv(cfg, calls);
  }

  /** And each project and agent has at most one active session. */
  lemma OneActiveSessionPerAgent(cfg: Config, calls: seq<Call>, a: Id, b: Id)
    requires var x := Run(cfg, calls).registry.byLease;
             a in x && b in x && x[a].status.Active? && x[b].status.Active? && x[a].project == x[b].project && x[a].agent == x[b].agent
    ensures a == b
  {
    hide Run, WaitsOK, BoardOK, TalksOK, RegistryOK, WorkOK, OneBusyPerWorker;
    RunKeepsInv(cfg, calls);
  }

  // ---------------------------------------------------------------------
  // No work is left for an offline worker
  // ---------------------------------------------------------------------

  ghost predicate NeverOrphans(cfg: Config, calls: seq<Call>) {
    calls != [] ==>
      && NeverOrphans(cfg, calls[..|calls| - 1])
      && (calls[|calls| - 1].op.DoAcquire? ==> !Orphans(Before(cfg, calls), calls[|calls| - 1].op.command))
  }

  lemma {:induction false} NoOrphanedWork(cfg: Config, calls: seq<Call>)
    requires cfg.requirePeers && NeverOrphans(cfg, calls)
    ensures Covered(Run(cfg, calls))
  {
    hide Inv, Covered, Apply, Orphans, Swept;
    if calls == [] {
      EmptyIsOK();
    } else {
      var last := calls[|calls| - 1];
      NoOrphanedWork(cfg, calls[..|calls| - 1]);
      RunKeepsInv(cfg, calls[..|calls| - 1]);
      ApplyKeepsCover(cfg, Run(cfg, calls[..|calls| - 1]), last.op, last.now);
    }
  }

  // ---------------------------------------------------------------------
  // Finished jobs, finished waits
  // ---------------------------------------------------------------------

  lemma Prefix<T>(s: seq<T>, n: nat)
    requires n < |s|
    ensures s[..|s| - 1][..n] == s[..n]
  {
  }

  /** What one call of a run does to the job under a key, and to conversations and waits. */
  lemma LastStep(cfg: Config, calls: seq<Call>, key: Id)
    requires calls != []
    ensures var last := calls[|calls| - 1];
            Proceeds(Run(cfg, calls[..|calls| - 1]), Run(cfg, calls), key, Reclaims(Before(cfg, calls), last.op, last.now, key), last.now)
  {
    hide Inv, Apply, Swept, Proceeds, Reclaims;
    RunKeepsInv(cfg, calls[..|calls| - 1]);
    var last := calls[|calls| - 1];
    ApplyKeeps(cfg, Run(cfg, calls[..|calls| - 1]), last.op, last.now, key);
  }

  /** A finished task job keeps its status for the rest of the run and never has a lease. */
  lemma {:induction false} FinishedJobsStay(cfg: Config, calls: seq<Call>, n: nat, key: Id)
    requires n <= |calls|
    requires var b := Run(cfg, calls[..n]).board; key in b.jobs && IsTerminal(b.jobs[key].status)
    ensures var b, m := Run(cfg, calls[..n]).board, Run(cfg, calls).board;
            key in m.jobs && m.jobs[key].status == b.jobs[key].status && LeaseAt(m, key).None?
  {
    hide Run, Inv, TalksQuiet, WaitsGrow, Reclaims;
    if n < |calls| {
      Prefix(calls, n);
      FinishedJobsStay(cfg, calls[..|calls| - 1], n, key);
      LastStep(cfg, calls, key);
    } else {
      assert calls[..n] == calls;
      RunKeepsInv(cfg, calls);
      JobsAreShaped(Run(cfg, calls));
    }
  }

  lemma {:induction false} FinishedTalksStay(cfg: Config, calls: seq<Call>, n: nat, key: Id)
    requires n <= |calls|
    requires var t := Run(cfg, calls[..n]).talks; key in t.jobs && IsTerminal(t.jobs[key].status)
    ensures var t, m := Run(cfg, calls[..n]).talks, Run(cfg, calls).talks;
            key in m.jobs && m.jobs[key].status == t.jobs[key].status
  {
    hide Run, Inv, JobStep, WaitsGrow, Reclaims;
    if n < |calls| {
      Prefix(calls, n);
      FinishedTalksStay(cfg, calls[..|calls| - 1], n, key);
      LastStep(cfg, calls, key);
    } else {
      assert calls[..n] == calls;
    }
  }

  /** In every reachable state a leased job is delivered or running, and reclaimable is never stored. */
  lemma StoredJobsHaveShape(cfg: Config, calls: seq<Call>, key: Id)
    requires key in Run(cfg, calls).board.jobs
    ensures var job := Run(cfg, calls).board.jobs[key];
            && !job.status.Reclaimable?
            && (job.lease.Some? ==> (job.status.Delivered? || job.status.Running?) && job.lease.value.epoch >= 1)
            && (IsTerminal(job.status) ==> job.lease.None?)
  {
    hide Run, Inv;
    RunKeepsInv(cfg, calls);
    JobsAreShaped(Run(cfg, calls));
  }

  /**
   * In every reachable state exactly the jobs have a projection, with the same lease; it shows the job's
   * status, save that activity may show as running a task that is still queued or delivered.
   */
  lemma ProjectionsFollowJobs(cfg: Config, calls: seq<Call>, key: Id)
    ensures var b := Run(cfg, calls).board;
            && (key in b.tasks <==> key in b.jobs)
            && (key in b.jobs ==>
                  && b.tasks[key].id == b.jobs[key].id && b.tasks[key].project == b.jobs[key].project && b.tasks[key].lease == b.jobs[key].lease
                  && (b.tasks[key].status != b.jobs[key].status ==>
                        b.tasks[key].status.Running? && (b.jobs[key].status.Queued? || b.jobs[key].status.Delivered?)))
  {
    hide Run, WorkOK, TalksOK, WaitsOK, RegistryOK, OneBusyPerWorker, OneSessionPerAgent, JobShape;
    RunKeepsInv(cfg, calls);
  }

  lemma {:induction false} WaitsGrowOverRuns(cfg: Config, calls: seq<Call>, n: nat)
    requires n <= |calls|
    ensures WaitsGrow(Run(cfg, calls[..n]).waits, Run(cfg, calls).waits)
  {
    hide Run, Inv, JobStep, TalksQuiet, Reclaims;
    if n < |calls| {
      Prefix(calls, n);
      WaitsGrowOverRuns(cfg, calls[..|calls| - 1], n);
      LastStep(cfg, calls, []);
      WaitsGrowTransitive(Run(cfg, calls[..n]).waits, Run(cfg, calls[..|calls| - 1]).waits, Run(cfg, calls).waits);
    } else {
      assert calls[..n] == calls;
    }
  }

  /** The results a call of a run stores. */
  ghost function StoredAt(cfg: Config, calls: seq<Call>, i: nat): iset<TaskResult>
    requires i < |calls|
  {
    StoredBy(cfg, Run(cfg, calls[..i]), calls[i].op, calls[i].now)
  }

  /**
   * Each call of a run ends exactly those pending task waits, scoped or bare, that await a result the call
   * stores, each with such a result, and the wait it abandons.
   */
  lemma CallsWakeExactly(cfg: Config, calls: seq<Call>, i: nat, f: nat)
    requires i < |calls| && IsPendingTaskWait(Run(cfg, calls[..i]).waits, f)
    ensures var after := Run(cfg, calls[..i + 1]).waits.futures;
            var stored, abandoned := StoredAt(cfg, calls, i), calls[i].op == DoAbandonWait(f);
            && f < |after| && after[f].kind == Run(cfg, calls[..i]).waits.futures[f].kind
            && (after[f].state.Pending? <==> !abandoned && forall r :: r in stored ==> !Awaits(after[f].kind, r))
            && (!after[f].state.Pending? ==>
                  || (after[f].state.GotResult? && after[f].state.result in stored && Awaits(after[f].kind, after[f].state.result))
                  || (after[f].state.Abandoned? && abandoned))
  {
    hide Run, Inv, Apply, StoredBy, ResultsChange, KeyOf;
    var before, now := Run(cfg, calls[..i]), calls[..i + 1];
    assert now[..|now| - 1] == calls[..i];
    LastWakes(cfg, now);
    RunKeepsInv(cfg, now);
    if Run(cfg, now).waits.futures[f].state.GotResult? {
      AnswersAreAwaited(Run(cfg, now), f);
    }
  }

  lemma LastWakes(cfg: Config, calls: seq<Call>)
    requires calls != []
    ensures var last := calls[|calls| - 1];
            var before := Run(cfg, calls[..|calls| - 1]);
            Wakes(before.waits, Run(cfg, calls).waits, StoredBy(cfg, before, last.op, last.now), AbandonedBy(last.op))
  {
    hide Inv, Apply, StoredBy, Wakes;
    var last := calls[|calls| - 1];
    RunKeepsInv(cfg, calls[..|calls| - 1]);
    ApplyWakes(cfg, Run(cfg, calls[..|calls| - 1]), last.op, last.now);
  }

  /** The call found the wait pending and stored the result. */
  ghost predicate WokenAt(cfg: Config, calls: seq<Call>, i: nat, f: nat, r: TaskResult) {
    i < |calls| && IsPendingTaskWait(Run(cfg, calls[..i]).waits, f) && r in StoredAt(cfg, calls, i)
  }

  /** Every result a wait has was stored by the very call that ended the wait. */
  lemma {:induction false} AnswersWereStored(cfg: Config, calls: seq<Call>, f: nat)
    requires f < |Run(cfg, calls).waits.futures| && Run(cfg, calls).waits.futures[f].kind.TaskWait?
    requires Run(cfg, calls).waits.futures[f].state.GotResult?
    ensures exists i :: WokenAt(cfg, calls, i, f, Run(cfg, calls).waits.futures[f].state.result)
  {
    if calls != [] {
      hide Inv, Apply, StoredBy, ResultsChange;
      var before, last := calls[..|calls| - 1], |calls| - 1;
      var r := Run(cfg, calls).waits.futures[f].state.result;
      LastWakes(cfg, calls);
      hide Run;
      if IsPendingTaskWait(Run(cfg, before).waits, f) {
        assert WokenAt(cfg, calls, last, f, r);
      } else {
        AnswersWereStored(cfg, before, f);
        var i :| WokenAt(cfg, before, i, f, r);
        Prefix(calls, i);
        assert WokenAt(cfg, calls, i, f, r);
      }
    }
  }

  /**
   * No lost wakeup. A project-scoped task wait is pending only while no result of its task is stored; a
   * wait that is no longer pending was abandoned or got a result of its own task, stored by the call that
   * woke it; and its outcome is final.
   */
  lemma NoLostWakeup(cfg: Config, calls: seq<Call>, n: nat, f: nat)
    requires n <= |calls| && f < |Run(cfg, calls[..n]).waits.futures| && Run(cfg, calls[..n]).waits.futures[f].kind.TaskWait?
    ensures var before, after := Run(cfg, calls[..n]).waits, Run(cfg, calls).waits;
            && f < |after.futures| && after.futures[f].kind == before.futures[f].kind
            && (!before.futures[f].state.Pending? ==> after.futures[f] == before.futures[f])
            && var wait := after.futures[f];
               && (wait.kind.scoped && wait.kind.key in after.results ==> !wait.state.Pending?)
               && (wait.state.Pending? ==> f in WaitersAt(after, wait.kind.key))
               && (wait.state.Pending? || wait.state.Abandoned? ||
                     (&& wait.state.GotResult? && Awaits(wait.kind, wait.state.result)
                      && exists i :: WokenAt(cfg, calls, i, f, wait.state.result)))
  {
    hide Run, Key, BoardOK, TalksOK, RegistryOK, OneSessionPerAgent, WorkOK, OneBusyPerWorker, ListsAreTyped, WokenAt, Awaits;
    WaitsGrowOverRuns(cfg, calls, n);
    RunKeepsInv(cfg, calls);
    var after := Run(cfg, calls).waits;
    assert IsAnswered(after.futures[f]);
    if after.futures[f].state.Pending? {
      assert IsPendingTaskWait(after, f);
    } else if after.futures[f].state.GotResult? {
      AnswersAreAwaited(Run(cfg, calls), f);
      AnswersWereStored(cfg, calls, f);
    }
  }

  /** A call of a run stores a result for exactly the tasks whose kept result may change, and keeps one of these. */
  lemma ResultsAreOfStoringCalls(cfg: Config, calls: seq<Call>, i: nat, key: Id)
    requires i < |calls|
    ensures var before, after := Run(cfg, calls[..i]).waits.results, Run(cfg, calls[..i + 1]).waits.results;
            var stored := StoredAt(cfg, calls, i);
            if exists r :: r in stored && KeyOf(r) == key then key in after && after[key] in stored && KeyOf(after[key]) == key
            else (key in after <==> key in before) && (key in after ==> after[key] == before[key])
  {
    hide Run, StoredBy, WaitsEnd, WaitsGrow, KeyOf;
    var now := calls[..i + 1];
    assert now[..|now| - 1] == calls[..i];
    LastWakes(cfg, now);
  }

  // ---------------------------------------------------------------------
  // Fencing
  // ---------------------------------------------------------------------

  /** How often the job under a key was reclaimed. */
  ghost function ReclaimCount(cfg: Config, calls: seq<Call>, key: Id): nat {
    if calls == [] then 0
    else
      var last := calls[|calls| - 1];
      ReclaimCount(cfg, calls[..|calls| - 1], key) + if Reclaims(Before(cfg, calls), last.op, last.now, key) then 1 else 0
  }

  /** Until a job is first leased nothing was reclaimed; then its epoch counts the reclaims. */
  lemma {:induction false} EpochCountsReclaims(cfg: Config, calls: seq<Call>, key: Id)
    ensures var b := Run(cfg, calls).board;
            match LeaseAt(b, key)
            case Some(l) => l.epoch == 1 + ReclaimCount(cfg, calls, key)
            case None => ReclaimCount(cfg, calls, key) == 0 || (key in b.jobs && IsTerminal(b.jobs[key].status))
  {
    if calls != [] {
      hide Inv, Apply, Reclaims, Swept, TalksQuiet, WaitsGrow;
      var before := calls[..|calls| - 1];
      EpochCountsReclaims(cfg, before, key);
      LastStep(cfg, calls, key);
      RunKeepsInv(cfg, calls);
      JobsAreShaped(Run(cfg, calls));
    }
  }

  lemma {:induction false} ReclaimCountGrows(cfg: Config, calls: seq<Call>, n: nat, key: Id)
    requires n <= |calls|
    ensures ReclaimCount(cfg, calls[..n], key) <= ReclaimCount(cfg, calls, key)
  {
    hide Reclaims, Before;
    if n < |calls| {
      Prefix(calls, n);
      ReclaimCountGrows(cfg, calls[..|calls| - 1], n, key);
    } else {
      assert calls[..n] == calls;
    }
  }

  /** The sweep may clear a lease but never changes one. */
  lemma SweptLeases(cfg: Config, s: State, op: Op, now: int, key: Id)
    requires Inv(s)
    ensures var b := Swept(cfg, s, op, now).board; LeaseAt(b, key).Some? ==> LeaseAt(s.board, key) == LeaseAt(b, key)
  {
    hide Inv, Sweep, Winds, EndsSettled;
    if Sweeps(op) {
      SweepIsComplete(cfg, s, now);
    }
  }

  /** The call speaks for the job under `key` in the name of a holder and an epoch. */
  ghost predicate SpeaksFor(s: State, op: Op, key: Id, holder: Id, epoch: int) {
    match op
    case DoHeartbeatJob(task, h, e, scope, _) => FindJob(s.board, task, scope) == Some(key) && h == holder && e == epoch
    case DoAppendTranscript(project, task, _, _, claim) => Key(project, task) == key && claim == Asserted(epoch, holder)
    case DoRecordTelemetry(project, task, _, _, claim, _) => Key(project, task) == key && claim == Asserted(epoch, holder)
    case _ => false
  }

  lemma SpeakingNeedsTheLease(cfg: Config, s: State, op: Op, now: int, key: Id, holder: Id, epoch: int)
    requires SpeaksFor(s, op, key, holder, epoch)
    ensures Act(cfg, s, op, now).outcome.Raised? || (LeaseAt(s.board, key).Some? && Matches(LeaseAt(s.board, key).value, holder, epoch))
  {
    hide FindJob, Key, Renew, StoreLease;
  }

  /**
   * Fencing. Once a job was leased at some epoch, a heartbeat, transcript append or telemetry write in
   * the name of a smaller epoch raises for the rest of the run; and any that succeeds names the holder
   * and epoch of the lease as it stands.
   */
  lemma StaleHoldersAreFenced(cfg: Config, calls: seq<Call>, n: nat, key: Id, holder: Id, epoch: int)
    requires n < |calls| && LeaseAt(Run(cfg, calls[..n]).board, key).Some?
    requires SpeaksFor(Before(cfg, calls), calls[|calls| - 1].op, key, holder, epoch)
    ensures var last := calls[|calls| - 1];
            var before := Run(cfg, calls[..|calls| - 1]);
            || Apply(cfg, before, last.op, last.now).outcome.Raised?
            || (&& epoch >= LeaseAt(Run(cfg, calls[..n]).board, key).value.epoch
                && LeaseAt(before.board, key).Some? && Matches(LeaseAt(before.board, key).value, holder, epoch))
  {
    hide Run, Inv, Act, Swept, SpeaksFor;
    var last := calls[|calls| - 1];
    var before := calls[..|calls| - 1];
    RunKeepsInv(cfg, before);
    SpeakingNeedsTheLease(cfg, Before(cfg, calls), last.op, last.now, key, holder, epoch);
    SweptLeases(cfg, Run(cfg, before), last.op, last.now, key);
    EpochCountsReclaims(cfg, calls[..n], key);
    EpochCountsReclaims(cfg, before, key);
    Prefix(calls, n);
    ReclaimCountGrows(cfg, before, n, key);
  }

  /** While a job is leased, a reply asserting an epoch changes nothing unless it names the current holder and epoch. */
  lemma EpochRepliesNeedTheLease(cfg: Config, s: State, op: Op, now: int)
    requires op.DoSaveReply? && op.claim.Asserted? && op.env.task != []
    requires var b := Sweep(cfg, s, now).board; LeaseAt(b, Key(op.env.project, op.env.task)).Some?
    ensures var l := LeaseAt(Sweep(cfg, s, now).board, Key(op.env.project, op.env.task)).value;
            var e := Apply(cfg, s, op, now);
            Matches(l, op.claim.holder, op.claim.epoch) || (e.outcome.Raised? && e.state == Sweep(cfg, s, now))
  {
    hide Sweep, Key, Replied;
  }

  /**
   * Fencing of replies. Once a job was leased at some epoch, a reply asserting a smaller one raises and
   * changes nothing for as long as the job is leased; and one that is not refused names the holder and
   * epoch of the lease as it stands.
   */
  lemma StaleRepliesAreFenced(cfg: Config, calls: seq<Call>, n: nat)
    requires n < |calls| && calls[|calls| - 1].op.DoSaveReply?
    requires var op := calls[|calls| - 1].op; op.claim.Asserted? && op.env.task != []
    requires var key := Key(calls[|calls| - 1].op.env.project, calls[|calls| - 1].op.env.task);
             LeaseAt(Run(cfg, calls[..n]).board, key).Some? && LeaseAt(Before(cfg, calls).board, key).Some?
    ensures var last := calls[|calls| - 1];
            var key := Key(last.op.env.project, last.op.env.task);
            var before := Run(cfg, calls[..|calls| - 1]);
            || (Apply(cfg, before, last.op, last.now).outcome.Raised? && Run(cfg, calls) == Before(cfg, calls))
            || (&& last.op.claim.epoch >= LeaseAt(Run(cfg, calls[..n]).board, key).value.epoch
                && LeaseAt(before.board, key).Some? && Matches(LeaseAt(before.board, key).value, last.op.claim.holder, last.op.claim.epoch))
  {
    hide Inv, Act, Sweep, Key;
    var last := calls[|calls| - 1];
    var before := calls[..|calls| - 1];
    var key := Key(last.op.env.project, last.op.env.task);
    RunKeepsInv(cfg, before);
    EpochRepliesNeedTheLease(cfg, Run(cfg, before), last.op, last.now);
    SweptLeases(cfg, Run(cfg, before), last.op, last.now, key);
    EpochCountsReclaims(cfg, calls[..n], key);
    EpochCountsReclaims(cfg, before, key);
    Prefix(calls, n);
    ReclaimCountGrows(cfg, before, n, key);
  }

  // ---------------------------------------------------------------------
  // Lease spans
  // ---------------------------------------------------------------------

  ghost predicate ClockIsMonotone(calls: seq<Call>) {
    |calls| >= 2 ==> ClockIsMonotone(calls[..|calls| - 1]) && calls[|calls| - 2].now <= calls[|calls| - 1].now
  }

  /** The last lease of an epoch a run stored under a key, as last renewed. */
  ghost function Held(cfg: Config, calls: seq<Call>, key: Id, epoch: int): Option<Lease> {
    if calls == [] then None
    else
      var now := LeaseAt(Run(cfg, calls).board, key);
      if now.Some? && now.value.epoch == epoch then now else Held(cfg, calls[..|calls| - 1], key, epoch)
  }

  /** When a run first granted a lease of an epoch. */
  ghost function GrantedAt(cfg: Config, calls: seq<Call>, key: Id, epoch: int): Option<int> {
    if calls == [] then None
    else
      var before := GrantedAt(cfg, calls[..|calls| - 1], key, epoch);
      var now := LeaseAt(Run(cfg, calls).board, key);
      if before.None? && now.Some? && now.value.epoch == epoch then Some(calls[|calls| - 1].now) else before
  }

  ghost predicate SpansAreDisjoint(cfg: Config, calls: seq<Call>, key: Id) {
    forall e, f :: e < f && GrantedAt(cfg, calls, key, e).Some? && GrantedAt(cfg, calls, key, f).Some? ==>
      Held(cfg, calls, key, e).Some? && Held(cfg, calls, key, e).value.expiresAt <= GrantedAt(cfg, calls, key, f).value
  }

  /** Epochs are granted one after another, and the current lease is the last one granted. */
  ghost predicate GrantsInOrder(cfg: Config, calls: seq<Call>, key: Id) {
    && (forall e :: GrantedAt(cfg, calls, key, e).Some? ==> calls != [] && GrantedAt(cfg, calls, key, e).value <= calls[|calls| - 1].now)
    && match LeaseAt(Run(cfg, calls).board, key)
       case Some(l) =>
         && Held(cfg, calls, key, l.epoch) == Some(l)
         && (forall e :: GrantedAt(cfg, calls, key, e).Some? <==> 1 <= e <= l.epoch)
       case None =>
         var jobs := Run(cfg, calls).board.jobs;
         (key in jobs && IsTerminal(jobs[key].status)) || (forall e :: GrantedAt(cfg, calls, key, e).None?)
  }

  lemma {:induction false} SpansStayDisjoint(cfg: Config, calls: seq<Call>, key: Id)
    requires ClockIsMonotone(calls)
    ensures GrantsInOrder(cfg, calls, key) && SpansAreDisjoint(cfg, calls, key)
  {
    hide Run, TalksQuiet, WaitsGrow, Reclaims;
    if calls == [] {
      NothingIsStoredAtFirst(cfg, key);
    } else {
      var before, last := calls[..|calls| - 1], calls[|calls| - 1];
      SpansStayDisjoint(cfg, before, key);
      LastStep(cfg, calls, key);
      var l, m := LeaseAt(Run(cfg, before).board, key), LeaseAt(Run(cfg, calls).board, key);
      assert before != [] ==> before[|before| - 1].now <= last.now;
      if m.Some? {
        LeaseIsRecorded(cfg, calls, key, m.value);
        if l.Some? {
          StoredJobsHaveShape(cfg, before, key);
          assert GrantedAt(cfg, before, key, l.value.epoch).Some?;
        }
      } else {
        NothingIsRecorded(cfg, calls, key);
      }
    }
  }

  lemma NothingIsStoredAtFirst(cfg: Config, key: Id)
    ensures LeaseAt(Run(cfg, []).board, key).None?
  {
  }

  lemma LeaseIsRecorded(cfg: Config, calls: seq<Call>, key: Id, m: Lease)
    requires calls != [] && LeaseAt(Run(cfg, calls).board, key) == Some(m)
    ensures var before := calls[..|calls| - 1];
            && (forall e :: Held(cfg, calls, key, e) == if e == m.epoch then Some(m) else Held(cfg, before, key, e))
            && (forall e :: GrantedAt(cfg, calls, key, e) ==
                  if e == m.epoch && GrantedAt(cfg, before, key, e).None? then Some(calls[|calls| - 1].now) else GrantedAt(cfg, before, key, e))
  {
    hide Run;
  }

  lemma NothingIsRecorded(cfg: Config, calls: seq<Call>, key: Id)
    requires calls != [] && LeaseAt(Run(cfg, calls).board, key).None?
    ensures var before := calls[..|calls| - 1];
            && (forall e :: Held(cfg, calls, key, e) == Held(cfg, before, key, e))
            && (forall e :: GrantedAt(cfg, calls, key, e) == GrantedAt(cfg, before, key, e))
  {
    hide Run;
  }

  /** The lease of an epoch is in force from its grant until its expiry as last renewed. */
  ghost predicate InForce(cfg: Config, calls: seq<Call>, key: Id, epoch: int, t: int) {
    && GrantedAt(cfg, calls, key, epoch).Some? && Held(cfg, calls, key, epoch).Some?
    && GrantedAt(cfg, calls, key, epoch).value <= t < Held(cfg, calls, key, epoch).value.expiresAt
  }

  /** With a clock that never goes back, no two leases of one job are in force at the same time. */
  lemma LeaseSpansAreDisjoint(cfg: Config, calls: seq<Call>, key: Id, e: int, f: int, t: int)
    requires ClockIsMonotone(calls) && InForce(cfg, calls, key, e, t) && InForce(cfg, calls, key, f, t)
    ensures e == f
  {
    hide Run, Held, GrantedAt, GrantsInOrder;
    SpansStayDisjoint(cfg, calls, key);
  }

  // ---------------------------------------------------------------------
  // Taking over another agent's session id
  // ---------------------------------------------------------------------

  lemma QuietSweep(cfg: Config, s: State, now: int, op: Op)
    requires |s.registry.order| <= 1 && |s.work.order| <= 1
    requires forall l :: l in s.registry.byLease ==> !IsStale(cfg, s.registry.byLease[l], now)
    requires forall id :: id in s.work.byId ==> !IsOverdue(s.work.byId[id], now)
    ensures Swept(cfg, s, op, now) == s
  {
    hide EndSession, Settle;
    assert ExpireSessions(cfg, s, s.registry.order, now) == s;
    assert TimeoutMessages(s, s.work.order, now) == s;
  }

  lemma RunExtends(cfg: Config, calls: seq<Call>, call: Call)
    ensures Run(cfg, calls + [call]) == Apply(cfg, Run(cfg, calls), call.op, call.now).state
  {
    assert (calls + [call])[..|calls|] == calls;
  }

  function Begin(cfg: Config, lease: Id, project: Id, agent: Id): Registry {
    Registry([lease], map[lease := Session(lease, project, agent, [], Active, 0, cfg.graceSeconds, [])])
  }

  lemma FirstSession(cfg: Config, lease: Id, project: Id, agent: Id)
    ensures Run(cfg, [Call(0, DoAcquire(AcquireCommand(lease, project, agent, [], 0)))]) ==
            EMPTY.(registry := Begin(cfg, lease, project, agent))
  {
    var call := Call(0, DoAcquire(AcquireCommand(lease, project, agent, [], 0)));
    RunExtends(cfg, [], call);
    assert [] + [call] == [call];
    QuietSweep(cfg, EMPTY, 0, call.op);
    hide Run, Sweep;
    assert EMPTY.registry.byLease[lease := Session(lease, project, agent, [], Active, 0, cfg.graceSeconds, [])] ==
           Begin(cfg, lease, project, agent).byLease;
  }

  lemma FirstTask(cfg: Config, lease: Id, task: Envelope)
    requires cfg.graceSeconds > 0 && task.kind.TaskMessage? && task.timeoutSeconds > 0
    ensures var s := EMPTY.(registry := Begin(cfg, lease, task.project, task.target));
            var n := Apply(cfg, s, DoEnqueue(task, false), 0).state;
            n.registry == s.registry && n.work == Work([task.id], map[task.id := Message(task, MessageStatus.Queued, 0)])
  {
    hide UpsertTask, UpsertFails, Touch, Key;
    var s := EMPTY.(registry := Begin(cfg, lease, task.project, task.target));
    QuietSweep(cfg, s, 0, DoEnqueue(task, false));
    hide Sweep;
    assert IsActiveFor(s.registry.byLease[lease], task.target, Some(task.project));
    assert PutMessage(s.work, Message(task, MessageStatus.Queued, 0)).byId == map[task.id := Message(task, MessageStatus.Queued, 0)];
  }

  /** Acquiring a session under the id of another agent's active session leaves that agent's work orphaned. */
  lemma TakenOverSessionOrphansWork(cfg: Config, lease: Id, task: Envelope, other: Id)
    requires cfg.graceSeconds > 0
    requires task.kind.TaskMessage? && task.timeoutSeconds > 0 && task.target != [] && task.target != other
    ensures !Covered(Run(cfg, [Call(0, DoAcquire(AcquireCommand(lease, task.project, task.target, [], 0)))]
                              + [Call(0, DoEnqueue(task, false))]
                              + [Call(0, DoAcquire(AcquireCommand(lease, task.project, other, [], 0)))]))
  {
    hide Inv, Covered, Enqueue, Sweep, Run;
    var first := [Call(0, DoAcquire(AcquireCommand(lease, task.project, task.target, [], 0)))];
    var second, third := Call(0, DoEnqueue(task, false)), Call(0, DoAcquire(AcquireCommand(lease, task.project, other, [], 0)));
    FirstSession(cfg, lease, task.project, task.target);
    FirstTask(cfg, lease, task);
    RunExtends(cfg, first, second);
    RunExtends(cfg, first + [second], third);
    var s := Run(cfg, first + [second]);
    QuietSweep(cfg, s, 0, third.op);
    RunKeepsInv(cfg, first + [second]);
    RegistryIsOK(s);
    assert Orphans(s, third.op.command) by { assert Occupies(s.work.byId[task.id]); }
    TakenOverLeaseOrphans(cfg, s, third.op.command, 0);
  }
}
